/** Every step of every run keeps the invariant. A step of a task either leaves the channels alone, adds one hop
    of its payment, or removes one; each of the three keeps each clause. */
module NetworkProofs {
  import opened Types
  import opened Channel
  import opened Payments
  import opened Network
  import opened Invariant
  import opened ChannelProofs

  /** Payment `q` is `p` further on. */
  predicate Continues(p: Payment, q: Payment) {
    q.source == p.source && q.route == p.route && q.hash == p.hash
  }

  /** The task moved on without touching a channel. */
  predicate Waits(p: Payment, q: Payment) {
    && Continues(p, q)
    && q.indexes == p.indexes && q.phase.Locked() == p.phase.Locked()
    && (p.phase.Locked() < |p.indexes| ==> q.phase.Settling() == p.phase.Settling())
  }

  /** The task locked its next hop. */
  predicate Locks(base: Topology, channels: Topology, p: Payment, channels': Topology, q: Payment) {
    var i := |p.indexes|;
    && Continues(p, q)
    && p.phase.Locked() == i && q.phase.Locked() == i + 1
    && Placed(base, p, i)
    && var (id, w) := PlaceOf(base, p, i);
       && id in channels
       && var c := channels[id];
          && p.hash !in c.Get(w).inFlight
          && channels' == channels[id := c.Set(w, Charged(c, w, p.hash, p.HtlcAt(i)))]
          && q.indexes == p.indexes + [c.Get(w).index]
  }

  /** The task removed the last hop it held. */
  predicate Unlocks(base: Topology, channels: Topology, p: Payment, channels': Topology, q: Payment) {
    && Continues(p, q)
    && q.indexes == p.indexes
    && q.phase.Settling() == p.phase.Settling()
    && 0 < p.phase.Locked() <= |p.indexes|
    && var i := p.phase.Locked() - 1;
       && q.phase.Locked() == i
       && Placed(base, p, i)
       && var (id, w) := PlaceOf(base, p, i);
          && id in channels
          && p.hash in channels[id].Get(w).inFlight
          && channels' == channels[id := Settle(channels[id], w, p.hash, q.phase.Settling())]
  }

  ghost predicate Moves(base: Topology, channels: Topology, p: Payment, channels': Topology, q: Payment) {
    && ChannelsOk(base, channels')
    && PaymentOk(base, q)
    && (|| (channels' == channels && Waits(p, q))
        || Locks(base, channels, p, channels', q)
        || Unlocks(base, channels, p, channels', q))
  }

  // ---------- Which kind a step is ----------

  /** Hops do not depend on the phase of a payment. */
  lemma SameHops(base: Topology, p: Payment, q: Payment)
    requires Continues(p, q)
    ensures forall i :: Placed(base, q, i) == Placed(base, p, i)
    ensures forall i: nat {:trigger Forwardable(base, q, i)} :: i + 1 < |p.route| ==>
              Forwardable(base, q, i) == Forwardable(base, p, i)
    ensures forall i, id, w: Who :: SentOn(base, q, i, id, w) == SentOn(base, p, i, id, w)
  {
    forall i: nat ensures Placed(base, q, i) == Placed(base, p, i) {
      assert i < |p.route| ==> q.Sender(i) == p.Sender(i);
    }
  }

  /** A forward check that passes gives what the next policy asks. */
  lemma ForwardCheckMeans(base: Topology, channels: Topology, p: Payment, i: nat)
    requires ChannelsOk(base, channels)
    requires i + 1 < |p.route|
    ensures ForwardCheck(channels, p, i).Accepted? ==> Forwardable(base, p, i)
  {
  }

  /** A payment that goes on without locking or removing a hop stays well formed. */
  lemma MovesOn(base: Topology, p: Payment, phase: Phase)
    requires PaymentOk(base, p)
    requires PhaseOk(p.(phase := phase))
    requires phase.Locked() == p.phase.Locked()
    requires p.phase.Locked() < |p.indexes| ==> phase.Settling() == p.phase.Settling()
    requires (phase.Intercepting? || phase.Adding?) ==> p.phase.Intercepting?
    ensures PaymentOk(base, p.(phase := phase))
  {
    SameHops(base, p, p.(phase := phase));
  }

  /** The phases that may follow once hop `i` is added. */
  predicate FollowsAdd(p: Payment, i: nat, phase: Phase) {
    phase == Ended(Unknown, i + 1) || phase == Removing(i, IndexFailure(i)) || phase == Intercepting(i)
  }

  /** Payment `p` with one more hop added, at `index`. */
  function Extended(p: Payment, index: nat, phase: Phase): Payment {
    p.(indexes := p.indexes + [index], phase := phase)
  }

  /** A payment that has just locked a hop is well formed in each phase that may follow. */
  lemma LockedOn(base: Topology, p: Payment, index: nat, phase: Phase)
    requires PaymentOk(base, p) && p.phase.Adding? && Placed(base, p, p.phase.hop)
    requires FollowsAdd(p, p.phase.hop, phase)
    requires phase.Intercepting? && p.phase.hop + 1 < |p.route| ==> Forwardable(base, p, p.phase.hop)
    ensures PaymentOk(base, Extended(p, index, phase))
  {
    var q := Extended(p, index, phase);
    SameHops(base, p, q);
    forall i: nat | i + 1 < |q.indexes| ensures Forwardable(base, q, i) {
      assert Forwardable(base, p, i);
    }
  }

  lemma AcceptedAdd(base: Topology, channels: Topology, p: Payment, i: nat, c: Chan, index: nat)
    requires i < |p.route| && ChannelsOk(base, channels[p.route[i].scid := c])
    ensures var (channels', q) := AfterAdd(channels, p, i, c, Accepted(index));
            && channels' == channels[p.route[i].scid := c]
            && q == Extended(p, index, q.phase)
            && FollowsAdd(p, i, q.phase)
            && (q.phase.Intercepting? && i + 1 < |p.route| ==> Forwardable(base, p, i))
  {
    if i + 1 < |p.route| {
      ForwardCheckMeans(base, channels[p.route[i].scid := c], p, i);
    }
  }

  /** A channel may be replaced by one in good order on the same terms. */
  lemma PutChannel(base: Topology, channels: Topology, id: Scid, c: Chan)
    requires ChannelsOk(base, channels) && id in channels
    requires ChannelOk(c) && SameTerms(channels[id], c)
    ensures ChannelsOk(base, channels[id := c])
  {
  }

  /** In a network on the terms of `base`, a node is on the same side of a channel as in `base`. */
  lemma SidesAsInBase(base: Topology, channels: Topology)
    requires ChannelsOk(base, channels)
    ensures forall id, n :: id in channels ==> channels[id].SideOf(n) == base[id].SideOf(n)
  {
  }

  lemma AddSectionMoves(base: Topology, channels: Topology, p: Payment)
    requires ChannelsOk(base, channels) && PaymentOk(base, p) && p.phase.Adding?
    ensures var (channels', q) := AddSection(channels, p, p.phase.hop);
            Moves(base, channels, p, channels', q)
  {
    var i := p.phase.hop;
    var id := p.route[i].scid;
    var (channels', q) := AddSection(channels, p, i);
    SidesAsInBase(base, channels);
    if id in channels && AddHtlc(channels[id], p.Sender(i), p.hash, p.HtlcAt(i)).1.Accepted? {
      AcceptedAddMoves(base, channels, p);
    } else {
      if id in channels {
        AddHtlcEffect(channels[id], p.Sender(i), p.hash, p.HtlcAt(i));
      }
      MovesOn(base, p, q.phase);
      assert Waits(p, q);
    }
  }

  lemma AcceptedAddMoves(base: Topology, channels: Topology, p: Payment)
    requires ChannelsOk(base, channels) && PaymentOk(base, p) && p.phase.Adding?
    requires p.route[p.phase.hop].scid in channels
    requires AddHtlc(channels[p.route[p.phase.hop].scid], p.Sender(p.phase.hop), p.hash,
                     p.HtlcAt(p.phase.hop)).1.Accepted?
    ensures var (channels', q) := AddSection(channels, p, p.phase.hop);
            && ChannelsOk(base, channels') && PaymentOk(base, q)
            && Locks(base, channels, p, channels', q)
  {
    var i := p.phase.hop;
    var id := p.route[i].scid;
    var (c, r) := AddHtlc(channels[id], p.Sender(i), p.hash, p.HtlcAt(i));
    AddHtlcEffect(channels[id], p.Sender(i), p.hash, p.HtlcAt(i));
    SidesAsInBase(base, channels);
    PutChannel(base, channels, id, c);
    AcceptedAdd(base, channels, p, i, c, r.value);
    var (channels', q) := AfterAdd(channels, p, i, c, r);
    assert Placed(base, p, i);
    LockedOn(base, p, r.value, q.phase);
  }

  /** Payment `p` after it removed the hop it was about to remove. */
  function Shortened(p: Payment): Payment
    requires p.phase.Removing? && p.phase.hop < |p.indexes| <= |p.route|
  {
    var i := p.phase.hop;
    p.(phase := Notifying(i, p.phase.result),
       notices := p.notices + [NoticeAt(p, i, p.indexes[i], p.phase.result.Success?)])
  }

  lemma UnlockedOn(base: Topology, p: Payment)
    requires PaymentOk(base, p) && p.phase.Removing?
    ensures PaymentOk(base, Shortened(p))
  {
    SameHops(base, p, Shortened(p));
  }

  /** The removal of a held hop succeeds, and returns the entry made when the hop was added. */
  lemma RemoveSucceeds(base: Topology, channels: Topology, p: Payment, i: nat, success: bool)
    requires ChannelsOk(base, channels) && PaymentOk(base, p) && Backed(base, channels, p)
    requires i < p.phase.Locked()
    ensures Placed(base, p, i)
    ensures var (id, w) := PlaceOf(base, p, i);
            && id in channels && p.hash in channels[id].Get(w).inFlight
            && RemoveHtlc(channels[id], p.Sender(i), p.hash, success)
               == (Settle(channels[id], w, p.hash, success), Accepted(Held(p.HtlcAt(i), p.indexes[i])))
            && ChannelsOk(base, channels[id := Settle(channels[id], w, p.hash, success)])
  {
    assert Placed(base, p, i);
    var (id, w) := PlaceOf(base, p, i);
    SidesAsInBase(base, channels);
    RemoveHtlcEffect(channels[id], p.Sender(i), p.hash, success);
    PutChannel(base, channels, id, Settle(channels[id], w, p.hash, success));
  }

  lemma ShortenedUnlocks(base: Topology, channels: Topology, p: Payment)
    requires PhaseOk(p) && p.phase.Removing? && Placed(base, p, p.phase.hop)
    requires var (id, w) := PlaceOf(base, p, p.phase.hop);
             id in channels && p.hash in channels[id].Get(w).inFlight
    ensures var (id, w) := PlaceOf(base, p, p.phase.hop);
            Unlocks(base, channels, p,
                    channels[id := Settle(channels[id], w, p.hash, p.phase.result.Success?)], Shortened(p))
  {
  }

  lemma RemoveSectionMoves(base: Topology, channels: Topology, p: Payment)
    requires ChannelsOk(base, channels) && PaymentOk(base, p) && Backed(base, channels, p) && p.phase.Removing?
    ensures var (channels', q) := RemoveSection(channels, p, p.phase.hop, p.phase.result);
            && Moves(base, channels, p, channels', q)
            && q == Shortened(p)
  {
    var i := p.phase.hop;
    RemoveSucceeds(base, channels, p, i, p.phase.result.Success?);
    UnlockedOn(base, p);
    ShortenedUnlocks(base, channels, p);
    var (id, w) := PlaceOf(base, p, i);
    assert RemoveSection(channels, p, i, p.phase.result)
        == (channels[id := Settle(channels[id], w, p.hash, p.phase.result.Success?)], Shortened(p));
  }

  lemma QuietStep(base: Topology, channels: Topology, p: Payment, c: Choice)
    requires PaymentOk(base, p)
    requires !(p.phase.Adding? || p.phase.Removing?) || !c.Lock?
    ensures var (channels', q) := TaskStep(channels, p, c);
            channels' == channels && Waits(p, q) && PaymentOk(base, q)
  {
    var (_, q) := TaskStep(channels, p, c);
    match (p.phase, c)
    case (Intercepting(_), Reply(_, _)) => MovesOn(base, p, q.phase);
    case (Notifying(_, _), Told(_, _)) => MovesOn(base, p, q.phase);
    case _ =>
  }

  lemma QuietMoves(base: Topology, channels: Topology, p: Payment, c: Choice)
    requires ChannelsOk(base, channels) && PaymentOk(base, p)
    requires !(p.phase.Adding? || p.phase.Removing?) || !c.Lock?
    ensures var (channels', q) := TaskStep(channels, p, c);
            channels' == channels && Waits(p, q) && Moves(base, channels, p, channels', q)
  {
    QuietStep(base, channels, p, c);
  }

  lemma TaskStepMoves(base: Topology, channels: Topology, p: Payment, c: Choice)
    requires ChannelsOk(base, channels) && PaymentOk(base, p) && Backed(base, channels, p)
    ensures var (channels', q) := TaskStep(channels, p, c);
            Moves(base, channels, p, channels', q)
  {
    if p.phase.Adding? && c.Lock? {
      assert TaskStep(channels, p, c) == AddSection(channels, p, p.phase.hop);
      AddSectionMoves(base, channels, p);
    } else if p.phase.Removing? && c.Lock? {
      assert TaskStep(channels, p, c) == RemoveSection(channels, p, p.phase.hop, p.phase.result);
      RemoveSectionMoves(base, channels, p);
    } else {
      QuietMoves(base, channels, p, c);
    }
  }
}

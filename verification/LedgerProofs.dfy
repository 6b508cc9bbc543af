/** What holds of balances, in-flight HTLCs and reported results in every state of every run. */
module LedgerProofs {
  import opened Types
  import opened Channel
  import opened Payments
  import opened Network
  import opened Invariant
  import opened ChannelProofs
  import opened NetworkProofs
  import opened Preservation

  // ---------- The ledger equation ----------

  datatype Part = Locked | Sent | Received

  /** What hop `i` adds to a part of the ledger of side `w` of channel `id`: amounts the side still has locked,
      amounts it sent that settled, and amounts it received that settled. */
  function HopPart(base: Topology, p: Payment, i: nat, part: Part, id: Scid, w: Who): nat {
    var amount := if i < |p.route| then AmountAt(p.route, i) else 0;
    var counts := match part
      case Locked => i < p.phase.Locked() && SentOn(base, p, i, id, w)
      case Sent => i >= p.phase.Locked() && p.phase.Settling() && SentOn(base, p, i, id, w)
      case Received => i >= p.phase.Locked() && p.phase.Settling() && SentOn(base, p, i, id, w.Other());
    if counts then amount else 0
  }

  function PaymentPart(base: Topology, p: Payment, n: nat, part: Part, id: Scid, w: Who): nat {
    if n == 0 then 0 else PaymentPart(base, p, n - 1, part, id, w) + HopPart(base, p, n - 1, part, id, w)
  }

  function SumPart(base: Topology, ps: seq<Payment>, part: Part, id: Scid, w: Who): nat {
    if ps == [] then 0
    else
      var p := ps[|ps| - 1];
      SumPart(base, ps[..|ps| - 1], part, id, w) + PaymentPart(base, p, |p.indexes|, part, id, w)
  }

  lemma {:induction false} EffectByParts(base: Topology, p: Payment, n: nat, id: Scid, w: Who)
    ensures Effect(base, p, n, id, w)
         == PaymentPart(base, p, n, Received, id, w) - PaymentPart(base, p, n, Sent, id, w)
            - PaymentPart(base, p, n, Locked, id, w)
  {
    if n == 0 {
    } else {
      EffectByParts(base, p, n - 1, id, w);
    }
  }

  lemma {:induction false} SumEffectByParts(base: Topology, ps: seq<Payment>, id: Scid, w: Who)
    ensures SumEffect(base, ps, id, w)
         == SumPart(base, ps, Received, id, w) - SumPart(base, ps, Sent, id, w) - SumPart(base, ps, Locked, id, w)
  {
    if ps == [] {
    } else {
      var p := ps[|ps| - 1];
      SumEffectByParts(base, ps[..|ps| - 1], id, w);
      EffectByParts(base, p, |p.indexes|, id, w);
    }
  }

  /** In every reachable state a local balance is the initial one, less what the side has locked, less what it
      sent that settled, plus what it received that settled; critical errors and failed notifications included. */
  lemma LedgerEquation(base: Topology, s: State, id: Scid, w: Who)
    requires StartOk(base) && Reachable(base, s) && id in base
    ensures id in s.channels
    ensures s.channels[id].Get(w).local
            == base[id].Get(w).local
               - SumPart(base, s.payments, Locked, id, w)
               - SumPart(base, s.payments, Sent, id, w)
               + SumPart(base, s.payments, Received, id, w)
  {
    ReachableInv(base, s);
    SumEffectByParts(base, s.payments, id, w);
    assert LocalAt(s.channels, id, w) == base[id].Get(w).local + SumEffect(base, s.payments, id, w);
  }

  // ---------- Channels ----------

  /** Balances and in-flight totals of every channel add up to its capacity in every reachable state, and no
      addition or removal whatever, by any node, can then fail its sanity check. */
  lemma SanityNeverFails(base: Topology, s: State, id: Scid, n: NodeId, h: Hash, x: Htlc, success: bool)
    requires StartOk(base) && Reachable(base, s) && id in base
    ensures id in s.channels && Holdings(s.channels[id]) == base[id].capacity
    ensures forall e: CriticalError :: AddHtlc(s.channels[id], n, h, x).1 == Critical(e) ==> !e.SanityCheckFailed?
    ensures forall e: CriticalError ::
              RemoveHtlc(s.channels[id], n, h, success).1 == Critical(e) ==> !e.SanityCheckFailed?
  {
    ReachableInv(base, s);
    var c := s.channels[id];
    AddHtlcEffect(c, n, h, x);
    if c.SideOf(n).Some? && h in c.Get(c.SideOf(n).value).inFlight {
      RemoveHtlcEffect(c, n, h, success);
    }
  }

  /** In every reachable state each side keeps within the count and total its peer negotiated, every HTLC held is
      within the sender's own size limits, and the policies are those the channel started with. */
  lemma LimitsHold(base: Topology, s: State, id: Scid, w: Who)
    requires StartOk(base) && Reachable(base, s) && id in base
    ensures id in s.channels
    ensures var side, peer := s.channels[id].Get(w), base[id].Get(w.Other()).policy;
            && side.policy == base[id].Get(w).policy
            && 0 <= side.local
            && |side.inFlight| <= peer.maxHtlcCount
            && Total(side.inFlight) <= peer.maxInFlight
            && forall h :: h in side.inFlight ==>
                 side.policy.minHtlcSize <= side.inFlight[h].htlc.amount <= side.policy.maxHtlcSize
  {
    ReachableInv(base, s);
    assert SameTerms(base[id], s.channels[id]);
    assert ChannelOk(s.channels[id]);
  }

  // ---------- Ownership ----------

  /** Every HTLC in flight belongs to exactly one hop of exactly one payment, with the amount, expiry and index it
      was added with; payments may share a hash. */
  lemma OwnedByOne(base: Topology, s: State, id: Scid, w: Who, h: Hash)
    requires StartOk(base) && Reachable(base, s)
    requires EntryAt(s.channels, id, w, h).Some?
    ensures exists k: nat, i: nat ::
              && Holds(base, s.payments, k, i, id, w, h)
              && (forall l: nat, j: nat :: Holds(base, s.payments, l, j, id, w, h) ==> l == k && j == i)
              && i < |s.payments[k].indexes|
              && EntryAt(s.channels, id, w, h) == Some(Held(s.payments[k].HtlcAt(i), s.payments[k].indexes[i]))
  {
    ReachableInv(base, s);
    var k: nat, i: nat :| Holds(base, s.payments, k, i, id, w, h);
    forall l: nat, j: nat | Holds(base, s.payments, l, j, id, w, h) ensures l == k && j == i {
      OneOwner(base, s, k, i, l, j, id, w, h);
    }
    var p := s.payments[k];
    assert TaskOk(base, s.channels, p);
    assert PlaceOf(base, p, i) == (id, w);
  }

  /** A task that is about to remove a hop always finds it: `remove_htlc` returns the entry made for that hop, with
      the index handed out then, whatever other payments did in between. */
  lemma RemovalNeverFails(base: Topology, s: State, k: nat)
    requires StartOk(base) && Reachable(base, s)
    requires k < |s.payments| && s.payments[k].phase.Removing?
    ensures var p := s.payments[k];
            var i := p.phase.hop;
            && i < |p.indexes| <= |p.route|
            && p.route[i].scid in s.channels
            && RemoveHtlc(s.channels[p.route[i].scid], p.Sender(i), p.hash, p.phase.result.Success?).1
               == Accepted(Held(p.HtlcAt(i), p.indexes[i]))
  {
    ReachableInv(base, s);
    var p := s.payments[k];
    assert TaskOk(base, s.channels, p);
    RemoveSucceeds(base, s.channels, p, p.phase.hop, p.phase.result.Success?);
  }

  /** Channel, sending side and index name one hop for ever, and stay below the counter of the side. */
  lemma IndexesIdentify(base: Topology, s: State, k: nat, i: nat, l: nat, j: nat, id: Scid, w: Who, x: nat)
    requires StartOk(base) && Reachable(base, s)
    requires AddedAt(base, s.payments, k, i, id, w, x)
    ensures x < CounterAt(s.channels, id, w)
    ensures AddedAt(base, s.payments, l, j, id, w, x) ==> l == k && j == i
  {
    ReachableInv(base, s);
    assert TaskOk(base, s.channels, s.payments[k]);
    assert PlaceOf(base, s.payments[k], i) == (id, w);
  }

  // ---------- Results ----------

  /** At place `j` of the run the interceptors cannot be told that a hop of payment `k` is resolved, while hops before
      it are still locked. */
  ghost predicate FailsToHear(base: Topology, cs: seq<Choice>, j: nat, k: nat) {
    && j < |cs| && cs[j] == Told(k, false)
    && var ps := Run(base, cs[..j]).payments;
       k < |ps| && ps[k].phase.Notifying? && ps[k].phase.hop > 0
  }

  /** This happens to payment `k` somewhere in the run. */
  ghost predicate Stranded(base: Topology, cs: seq<Choice>, k: nat) {
    exists j :: FailsToHear(base, cs, j, k)
  }

  /** The task has reported success or failure with hops still locked. */
  predicate LeavesHops(p: Payment) {
    p.phase.Ended? && !p.phase.result.Unknown? && p.phase.left > 0
  }

  lemma TaskLeavesHops(base: Topology, channels: Topology, p: Payment, c: Choice)
    requires ChannelsOk(base, channels) && PaymentOk(base, p) && Backed(base, channels, p)
    ensures LeavesHops(TaskStep(channels, p, c).1)
            <==> LeavesHops(p) || (c.Told? && !c.ok && p.phase.Notifying? && p.phase.hop > 0)
  {
    if p.phase.Removing? && c.Lock? {
      assert TaskStep(channels, p, c) == RemoveSection(channels, p, p.phase.hop, p.phase.result);
      RemoveSectionMoves(base, channels, p);
    }
  }

  lemma StrandedSnoc(base: Topology, cs: seq<Choice>, k: nat)
    requires cs != []
    ensures Stranded(base, cs, k) <==> Stranded(base, cs[..|cs| - 1], k) || FailsToHear(base, cs, |cs| - 1, k)
  {
    var before := cs[..|cs| - 1];
    forall j: nat | j < |before| ensures FailsToHear(base, cs, j, k) <==> FailsToHear(base, before, j, k) {
      assert cs[..j] == before[..j];
    }
    assert forall j: nat :: FailsToHear(base, cs, j, k) && j != |cs| - 1 ==> FailsToHear(base, before, j, k);
    assert forall j: nat :: FailsToHear(base, before, j, k) ==> FailsToHear(base, cs, j, k);
  }

  lemma NewPaymentNotStranded(base: Topology, cs: seq<Choice>, k: nat)
    requires k >= |Run(base, cs).payments|
    ensures !Stranded(base, cs, k)
    decreases |cs|
  {
    if cs != [] {
      StrandedSnoc(base, cs, k);
      NewPaymentNotStranded(base, cs[..|cs| - 1], k);
    }
  }

  /** A payment ends with hops still locked although no critical error occurred exactly when the interceptors failed to
      hear of one of its resolutions other than the last. */
  lemma {:induction false} StrandedIff(base: Topology, cs: seq<Choice>, k: nat)
    requires StartOk(base) && k < |Run(base, cs).payments|
    ensures LeavesHops(Run(base, cs).payments[k]) <==> Stranded(base, cs, k)
    decreases |cs|
  {
    var before := cs[..|cs| - 1];
    StrandedSnoc(base, cs, k);
    if k < |Run(base, before).payments| {
      StrandedIff(base, before, k);
      LastTaskStep(base, cs, k);
    } else {
      NewPaymentNotStranded(base, before, k);
    }
  }

  lemma LastTaskStep(base: Topology, cs: seq<Choice>, k: nat)
    requires StartOk(base) && cs != [] && k < |Run(base, cs[..|cs| - 1]).payments|
    ensures k < |Run(base, cs).payments|
    ensures LeavesHops(Run(base, cs).payments[k])
            <==> LeavesHops(Run(base, cs[..|cs| - 1]).payments[k]) || FailsToHear(base, cs, |cs| - 1, k)
  {
    var s, c := Run(base, cs[..|cs| - 1]), cs[|cs| - 1];
    RunKeepsInv(base, cs[..|cs| - 1]);
    assert TaskOk(base, s.channels, s.payments[k]);
    TaskLeavesHops(base, s.channels, s.payments[k], c);
  }

  /** What hop `i` does to side `w` of channel `id` when it settles. */
  function Transfer(base: Topology, p: Payment, i: nat, id: Scid, w: Who): int {
    var amount: int := if i < |p.route| then AmountAt(p.route, i) else 0;
    if SentOn(base, p, i, id, w) then -amount else if SentOn(base, p, i, id, w.Other()) then amount else 0
  }

  function Transfers(base: Topology, p: Payment, n: nat, id: Scid, w: Who): int {
    if n == 0 then 0 else Transfers(base, p, n - 1, id, w) + Transfer(base, p, n - 1, id, w)
  }

  lemma {:induction false} EffectWhenDone(base: Topology, p: Payment, n: nat, id: Scid, w: Who)
    requires p.phase.Locked() == 0
    ensures Effect(base, p, n, id, w) == if p.phase.Settling() then Transfers(base, p, n, id, w) else 0
  {
    if n == 0 {
    } else {
      EffectWhenDone(base, p, n - 1, id, w);
    }
  }

  /** Nothing of payment `k` is in flight. */
  ghost predicate HoldsNothing(base: Topology, ps: seq<Payment>, k: nat) {
    forall i, id, w: Who, h :: !Holds(base, ps, k, i, id, w, h)
  }

  lemma HoldsNothingIff(base: Topology, s: State, k: nat)
    requires k < |s.payments| && TaskOk(base, s.channels, s.payments[k])
    ensures HoldsNothing(base, s.payments, k) <==> s.payments[k].phase.Locked() == 0
  {
    var p := s.payments[k];
    if p.phase.Locked() > 0 {
      assert Placed(base, p, 0);
      var (id, w) := PlaceOf(base, p, 0);
      assert Holds(base, s.payments, k, 0, id, w, p.hash);
    }
  }

  /** What a payment that has ended cleanly has moved across side `w` of channel `id`: all of its amounts, or none. */
  function Moved(base: Topology, p: Payment, id: Scid, w: Who): int {
    if p.phase.Settling() then Transfers(base, p, |p.route|, id, w) else 0
  }

  /** All payments but number `k`. */
  function Others(ps: seq<Payment>, k: nat): seq<Payment>
    requires k < |ps|
  {
    ps[..k] + ps[k + 1..]
  }

  lemma SumEffectSnoc(base: Topology, ps: seq<Payment>, q: Payment, id: Scid, w: Who)
    ensures SumEffect(base, ps + [q], id, w) == SumEffect(base, ps, id, w) + Effect(base, q, |q.indexes|, id, w)
  {
    assert (ps + [q])[..|ps|] == ps;
  }

  lemma {:induction false} SumEffectWithout(base: Topology, ps: seq<Payment>, k: nat, id: Scid, w: Who)
    requires k < |ps|
    ensures SumEffect(base, ps, id, w)
            == SumEffect(base, Others(ps, k), id, w) + Effect(base, ps[k], |ps[k].indexes|, id, w)
    decreases |ps|
  {
    var init, last := ps[..|ps| - 1], ps[|ps| - 1];
    assert ps == init + [last];
    SumEffectSnoc(base, init, last, id, w);
    if k == |ps| - 1 {
      assert Others(ps, k) == init;
    } else {
      SumEffectWithout(base, init, k, id, w);
      assert Others(ps, k) == Others(init, k) + [last];
      SumEffectSnoc(base, Others(init, k), last, id, w);
    }
  }

  /** All or nothing. When `Success` is reported every hop of the route has moved its amount across its channel;
      when `IndexFailure` is reported the payment has moved nothing: the balances are what the other payments make of
      them, plus this. Nothing of the payment is in flight then. This holds for every payment of every run, except
      exactly those whose interceptors failed to hear of a resolution other than the last: these leave something
      locked. */
  lemma AllOrNothing(base: Topology, cs: seq<Choice>, k: nat, id: Scid, w: Who)
    requires StartOk(base) && k < |Run(base, cs).payments| && id in base
    requires Run(base, cs).payments[k].phase.Ended? && !Run(base, cs).payments[k].phase.result.Unknown?
    ensures HoldsNothing(base, Run(base, cs).payments, k) <==> !Stranded(base, cs, k)
    ensures !Stranded(base, cs, k) ==>
              LocalAt(Run(base, cs).channels, id, w)
              == LocalAt(base, id, w) + SumEffect(base, Others(Run(base, cs).payments, k), id, w)
                 + Moved(base, Run(base, cs).payments[k], id, w)
  {
    RunKeepsInv(base, cs);
    StrandedIff(base, cs, k);
    var s := Run(base, cs);
    assert TaskOk(base, s.channels, s.payments[k]);
    HoldsNothingIff(base, s, k);
    if s.payments[k].phase.left == 0 {
      MovedWhenDone(base, s.payments[k], id, w);
      SumEffectWithout(base, s.payments, k, id, w);
    }
  }

  lemma MovedWhenDone(base: Topology, p: Payment, id: Scid, w: Who)
    requires PhaseOk(p) && p.phase.Ended? && !p.phase.result.Unknown? && p.phase.left == 0
    ensures Effect(base, p, |p.indexes|, id, w) == Moved(base, p, id, w)
  {
    EffectWhenDone(base, p, |p.indexes|, id, w);
  }

  /** Every payment has ended, none in a critical error and none stranded. */
  ghost predicate AllDone(base: Topology, cs: seq<Choice>) {
    forall k :: 0 <= k < |Run(base, cs).payments| ==>
      && Run(base, cs).payments[k].phase.Ended? && !Run(base, cs).payments[k].phase.result.Unknown?
      && !Stranded(base, cs, k)
  }

  function SumMoved(base: Topology, ps: seq<Payment>, id: Scid, w: Who): int {
    if ps == [] then 0 else SumMoved(base, ps[..|ps| - 1], id, w) + Moved(base, ps[|ps| - 1], id, w)
  }

  lemma {:induction false} SumEffectIsMoved(base: Topology, ps: seq<Payment>, id: Scid, w: Who)
    requires forall k :: 0 <= k < |ps| ==> Effect(base, ps[k], |ps[k].indexes|, id, w) == Moved(base, ps[k], id, w)
    ensures SumEffect(base, ps, id, w) == SumMoved(base, ps, id, w)
  {
    if ps == [] {
    } else {
      SumEffectIsMoved(base, ps[..|ps| - 1], id, w);
    }
  }

  /** When all payments are done, each balance is the initial one plus what the successful payments moved: the amounts
      of all their hops, and nothing for the payments that failed. */
  lemma BalancesWhenDone(base: Topology, cs: seq<Choice>, id: Scid, w: Who)
    requires StartOk(base) && id in base && AllDone(base, cs)
    ensures LocalAt(Run(base, cs).channels, id, w)
            == LocalAt(base, id, w) + SumMoved(base, Run(base, cs).payments, id, w)
  {
    RunKeepsInv(base, cs);
    var s := Run(base, cs);
    forall k | 0 <= k < |s.payments|
      ensures Effect(base, s.payments[k], |s.payments[k].indexes|, id, w) == Moved(base, s.payments[k], id, w) {
      DoneCleanly(base, cs, k);
      MovedWhenDone(base, s.payments[k], id, w);
    }
    SumEffectIsMoved(base, s.payments, id, w);
  }

  /** Once every payment has ended, none in a critical error, nothing is in flight on any channel, if and only if no
      payment was stranded. */
  lemma AllSettled(base: Topology, cs: seq<Choice>)
    requires StartOk(base)
    requires forall k :: 0 <= k < |Run(base, cs).payments| ==>
               Run(base, cs).payments[k].phase.Ended? && !Run(base, cs).payments[k].phase.result.Unknown?
    ensures (forall id, w: Who, h :: EntryAt(Run(base, cs).channels, id, w, h).None?)
            <==> forall k: nat :: k < |Run(base, cs).payments| ==> !Stranded(base, cs, k)
  {
    RunKeepsInv(base, cs);
    var s := Run(base, cs);
    forall k: nat | k < |s.payments| ensures s.payments[k].phase.Locked() == 0 <==> !Stranded(base, cs, k) {
      StrandedIff(base, cs, k);
    }
    EmptyIff(base, s);
  }

  /** Nothing is in flight exactly when no payment holds anything. */
  lemma EmptyIff(base: Topology, s: State)
    requires Owned(base, s) && TasksOk(base, s)
    ensures (forall id, w: Who, h :: EntryAt(s.channels, id, w, h).None?)
            <==> forall k: nat :: k < |s.payments| ==> s.payments[k].phase.Locked() == 0
  {
    forall k: nat | k < |s.payments| && s.payments[k].phase.Locked() > 0
      ensures exists id, w: Who, h :: EntryAt(s.channels, id, w, h).Some? {
      assert TaskOk(base, s.channels, s.payments[k]);
      var (id, w) := PlaceOf(base, s.payments[k], 0);
      assert EntryAt(s.channels, id, w, s.payments[k].hash).Some?;
    }
    forall id, w: Who, h | EntryAt(s.channels, id, w, h).Some?
      ensures exists k: nat :: k < |s.payments| && s.payments[k].phase.Locked() > 0 {
      var k: nat, i: nat :| Holds(base, s.payments, k, i, id, w, h);
      assert s.payments[k].phase.Locked() > 0;
    }
  }

  /** A payment that has ended never acts again. */
  lemma {:induction false} EndedForGood(base: Topology, cs: seq<Choice>, later: seq<Choice>, k: nat)
    requires k < |Run(base, cs).payments| && Run(base, cs).payments[k].phase.Ended?
    ensures k < |Run(base, cs + later).payments|
    ensures Run(base, cs + later).payments[k] == Run(base, cs).payments[k]
  {
    if later == [] {
      assert cs + later == cs;
    } else {
      var init := later[..|later| - 1];
      EndedForGood(base, cs, init, k);
      assert (cs + later)[..|cs + later| - 1] == cs + init;
    }
  }

  /** What a payment leaves locked stays locked for good, whether it ended in a critical error or was stranded:
      whatever it had left when it ended is still in flight after any further steps. */
  lemma LeftForGood(base: Topology, cs: seq<Choice>, later: seq<Choice>, k: nat, i: nat)
    requires StartOk(base) && k < |Run(base, cs).payments|
    requires Run(base, cs).payments[k].phase.Ended? && i < Run(base, cs).payments[k].phase.left
    ensures var p := Run(base, cs).payments[k];
            && i < |p.indexes| && Placed(base, p, i)
            && var (id, w) := PlaceOf(base, p, i);
               EntryAt(Run(base, cs + later).channels, id, w, p.hash) == Some(Held(p.HtlcAt(i), p.indexes[i]))
  {
    RunKeepsInv(base, cs);
    RunKeepsInv(base, cs + later);
    EndedForGood(base, cs, later, k);
    var s := Run(base, cs + later);
    assert TaskOk(base, s.channels, s.payments[k]);
    assert Placed(base, s.payments[k], i);
  }

  /** The resolutions a finished payment reported are those of its hops in reverse order, one for each, carrying
      the index handed out when the hop was added. */
  lemma ResolutionsMirrorAdditions(base: Topology, cs: seq<Choice>, k: nat, i: nat)
    requires StartOk(base) && k < |Run(base, cs).payments| && !Stranded(base, cs, k)
    requires Run(base, cs).payments[k].phase.Ended? && !Run(base, cs).payments[k].phase.result.Unknown?
    requires i < |Run(base, cs).payments[k].indexes|
    ensures var p := Run(base, cs).payments[k];
            && |p.notices| == |p.indexes| <= |p.route|
            && p.notices[|p.indexes| - 1 - i]
               == Notice(p.route[i].node, p.route[i].scid, p.indexes[i],
                         if i + 1 < |p.indexes| then Some(p.route[i + 1].scid) else None,
                         p.phase.result.Success?)
  {
    DoneCleanly(base, cs, k);
    NoticesReversed(Run(base, cs).payments[k], i);
  }

  lemma DoneCleanly(base: Topology, cs: seq<Choice>, k: nat)
    requires StartOk(base) && k < |Run(base, cs).payments| && !Stranded(base, cs, k)
    requires Run(base, cs).payments[k].phase.Ended? && !Run(base, cs).payments[k].phase.result.Unknown?
    ensures PaymentOk(base, Run(base, cs).payments[k]) && Run(base, cs).payments[k].phase.Locked() == 0
  {
    RunKeepsInv(base, cs);
    StrandedIff(base, cs, k);
    assert TaskOk(base, Run(base, cs).channels, Run(base, cs).payments[k]);
  }

  lemma NoticesReversed(p: Payment, i: nat)
    requires PhaseOk(p) && NoticesOk(p) && p.phase.Locked() == 0 && i < |p.indexes|
    ensures |p.notices| == |p.indexes|
    ensures p.notices[|p.indexes| - 1 - i] == NoticeAt(p, i, p.indexes[i], p.phase.Settling())
  {
    var m := |p.indexes| - 1 - i;
    assert |p.indexes| - 1 - m == i;
  }
}

/** What becomes of a payment at each step of its task, told from the channels, the policies and the answers alone; and
    exactly when a payment ends in a critical error. */
module StepOutcomes {
  import opened Types
  import opened Channel
  import opened ChannelProofs
  import opened Payments
  import opened Network
  import opened Invariant
  import opened LedgerProofs
  import opened Preservation

  /** The policy of the node that forwards from hop `i`, on the channel of hop `i + 1`. */
  function NextTerms(channels: Topology, p: Payment, i: nat): Option<Policy>
    requires i < |p.route|
  {
    if i + 1 >= |p.route| || p.route[i + 1].scid !in channels then None
    else
      var next := channels[p.route[i + 1].scid];
      if next.one.policy.node == p.route[i].node then Some(next.one.policy)
      else if next.two.policy.node == p.route[i].node then Some(next.two.policy)
      else None
  }

  /** There is a next channel, but the node to forward is none of its ends. */
  predicate Stranger(channels: Topology, p: Payment, i: nat)
    requires i < |p.route|
  {
    i + 1 < |p.route| && p.route[i + 1].scid in channels && NextTerms(channels, p, i) == None
  }

  /** The next channel does not know the node, or its fee overflows u64. */
  predicate ForwardBreaks(channels: Topology, p: Payment, i: nat)
    requires i < |p.route|
  {
    || Stranger(channels, p, i)
    || match NextTerms(channels, p, i)
       case None => false
       case Some(t) => p.route[i].cltvDelta >= t.cltvDelta && !FeeFits(t, Rated(t, AmountAt(p.route, i + 1)))
  }

  /** The hop offers too small a delta or fee for the next channel. */
  predicate ForwardRefused(channels: Topology, p: Payment, i: nat)
    requires i < |p.route|
  {
    match NextTerms(channels, p, i)
    case None => false
    case Some(t) =>
      var rated := Rated(t, AmountAt(p.route, i + 1));
      p.route[i].cltvDelta < t.cltvDelta || (FeeFits(t, rated) && !Pays(t, rated, p.route[i].fee))
  }

  lemma ForwardDecides(channels: Topology, p: Payment, i: nat)
    requires i < |p.route|
    ensures ForwardCheck(channels, p, i).Critical? <==> ForwardBreaks(channels, p, i)
    ensures ForwardCheck(channels, p, i).Refused? <==> ForwardRefused(channels, p, i)
  {
    match NextTerms(channels, p, i)
    case None =>
    case Some(t) => ForwardAnswers(t, p.route[i].cltvDelta, AmountAt(p.route, i + 1), p.route[i].fee);
  }

  /** The node that sends hop `i`. */
  function SenderOf(p: Payment, i: nat): NodeId
    requires i <= |p.route|
  {
    if i == 0 then p.source else p.route[i - 1].node
  }

  /** The addition for hop `i`: all that is still to be paid from there on, by the sum of the deltas still to come. */
  ghost function Addition(channels: Topology, p: Payment, i: nat): (Chan, Outcome<nat>)
    requires i < |p.route| && p.route[i].scid in channels
  {
    AddHtlc(channels[p.route[i].scid], SenderOf(p, i), p.hash, Htlc(AmountAt(p.route, i), CltvAt(p.route, i)))
  }

  /** An addition leaves all terms as they are, so that the forward check may as well look before it. */
  lemma TermsStay(channels: Topology, p: Payment, i: nat)
    requires i < |p.route| && p.route[i].scid in channels
    ensures var channels' := channels[p.route[i].scid := Addition(channels, p, i).0];
            && (ForwardBreaks(channels', p, i) <==> ForwardBreaks(channels, p, i))
            && (ForwardRefused(channels', p, i) <==> ForwardRefused(channels, p, i))
  {
    var channels' := channels[p.route[i].scid := Addition(channels, p, i).0];
    assert NextTerms(channels', p, i) == NextTerms(channels, p, i);
  }

  // ---------- The steps ----------

  /** The locked section that adds hop `i`. A hop that meets no channel or whose addition is critical breaks the payment
      off; a refused addition is failed back from the hop before, if there is one; after an accepted one a node or fee
      that breaks the forward check breaks the payment off, too small a delta or fee fails it back from this hop, and
      otherwise the interceptors are asked. */
  lemma AddStep(channels: Topology, p: Payment, i: nat, k: nat)
    requires p.phase == Adding(i) && i < |p.route|
    ensures var (channels', q) := TaskStep(channels, p, Lock(k));
            var id := p.route[i].scid;
            if id !in channels then channels' == channels && q == p.(phase := Ended(Unknown, i))
            else
              var (c, r) := Addition(channels, p, i);
              match r
              case Critical(_) => channels' == channels && q == p.(phase := Ended(Unknown, i))
              case Refused(_) =>
                && channels' == channels
                && q == p.(phase := if i == 0 then Ended(IndexFailure(0), 0) else Removing(i - 1, IndexFailure(i - 1)))
              case Accepted(index) =>
                && channels' == channels[id := c]
                && q.indexes == p.indexes + [index] && q == p.(indexes := q.indexes, phase := q.phase)
                && q.phase == (if ForwardBreaks(channels, p, i) then Ended(Unknown, i + 1)
                               else if ForwardRefused(channels, p, i) then Removing(i, IndexFailure(i))
                               else Intercepting(i))
  {
    if p.route[i].scid in channels {
      TermsStay(channels, p, i);
      ForwardDecides(channels[p.route[i].scid := Addition(channels, p, i).0], p, i);
    }
  }

  /** The interceptors' answer for hop `i`. */
  lemma ReplyStep(channels: Topology, p: Payment, i: nat, k: nat, answer: Answer)
    requires p.phase == Intercepting(i)
    ensures var (channels', q) := TaskStep(channels, p, Reply(k, answer));
            && channels' == channels && q == p.(phase := q.phase)
            && match answer
               case Proceed => q.phase == if i + 1 < |p.route| then Adding(i + 1) else Removing(i, Success)
               case Fail => q.phase == Removing(i, IndexFailure(i))
               case Crash => q.phase == Ended(Unknown, i + 1)
  {
  }

  /** The locked section that removes hop `i`: in every reachable state it settles or fails back just this hop, on its
      channel, and the interceptors are told next. */
  lemma RemoveStep(base: Topology, s: State, k: nat)
    requires StartOk(base) && Reachable(base, s) && k < |s.payments| && s.payments[k].phase.Removing?
    ensures var p, s' := s.payments[k], Step(s, Lock(k));
            var i := p.phase.hop;
            && i < |p.route| && p.route[i].scid in s.channels && |s'.payments| == |s.payments|
            && s'.payments[k].phase == Notifying(i, p.phase.result) && s'.payments[k].indexes == p.indexes
            && s'.channels == s.channels[p.route[i].scid :=
                 RemoveHtlc(s.channels[p.route[i].scid], SenderOf(p, i), p.hash, p.phase.result.Success?).0]
  {
    RemovalNeverFails(base, s, k);
  }

  /** The interceptors were told that hop `i` is resolved, or could not be. */
  lemma ToldStep(channels: Topology, p: Payment, i: nat, k: nat, ok: bool)
    requires p.phase.Notifying? && p.phase.hop == i
    ensures var (channels', q) := TaskStep(channels, p, Told(k, ok));
            && channels' == channels && q == p.(phase := q.phase)
            && q.phase == if ok && i > 0 then Removing(i - 1, p.phase.result) else Ended(p.phase.result, i)
  {
  }

  // ---------- Critical errors ----------

  predicate IsBroken(p: Payment) {
    p.phase.Ended? && p.phase.result.Unknown?
  }

  /** What breaks a payment off: its hop meets no channel or a critical answer, or the forward check breaks after an
      accepted addition, or the interceptors crash. */
  ghost predicate BreaksNow(channels: Topology, p: Payment, c: Choice) {
    match (p.phase, c)
    case (Adding(i), Lock(_)) =>
      && i < |p.route|
      && (|| p.route[i].scid !in channels
          || Addition(channels, p, i).1.Critical?
          || (Addition(channels, p, i).1.Accepted? && ForwardBreaks(channels, p, i)))
    case (Intercepting(_), Reply(_, answer)) => answer == Crash
    case _ => false
  }

  lemma TaskBreaks(channels: Topology, p: Payment, c: Choice)
    requires PhaseOk(p)
    ensures IsBroken(TaskStep(channels, p, c).1) <==> IsBroken(p) || BreaksNow(channels, p, c)
  {
    match (p.phase, c)
    case (Adding(i), Lock(k)) => AddStep(channels, p, i, k);
    case (Intercepting(i), Reply(k, answer)) => ReplyStep(channels, p, i, k, answer);
    case _ =>
  }

  /** At place `j` of the run payment `k` is broken off. */
  ghost predicate Breaks(base: Topology, cs: seq<Choice>, j: nat, k: nat) {
    && j < |cs| && !cs[j].Dispatch? && cs[j].p == k
    && var s := Run(base, cs[..j]);
       k < |s.payments| && BreaksNow(s.channels, s.payments[k], cs[j])
  }

  ghost predicate Broken(base: Topology, cs: seq<Choice>, k: nat) {
    exists j :: Breaks(base, cs, j, k)
  }

  lemma BrokenSnoc(base: Topology, cs: seq<Choice>, k: nat)
    requires cs != []
    ensures Broken(base, cs, k) <==> Broken(base, cs[..|cs| - 1], k) || Breaks(base, cs, |cs| - 1, k)
  {
    var before := cs[..|cs| - 1];
    forall j: nat | j < |before| ensures Breaks(base, cs, j, k) <==> Breaks(base, before, j, k) {
      assert cs[..j] == before[..j];
    }
    assert forall j: nat :: Breaks(base, cs, j, k) && j != |cs| - 1 ==> Breaks(base, before, j, k);
    assert forall j: nat :: Breaks(base, before, j, k) ==> Breaks(base, cs, j, k);
  }

  lemma {:induction false} NewPaymentNotBroken(base: Topology, cs: seq<Choice>, k: nat)
    requires k >= |Run(base, cs).payments|
    ensures !Broken(base, cs, k)
    decreases |cs|
  {
    if cs == [] {
    } else {
      BrokenSnoc(base, cs, k);
      NewPaymentNotBroken(base, cs[..|cs| - 1], k);
    }
  }

  lemma StepBreaks(s: State, c: Choice, k: nat)
    requires k < |s.payments| && PhaseOk(s.payments[k])
    ensures k < |Step(s, c).payments|
    ensures IsBroken(Step(s, c).payments[k])
            <==> IsBroken(s.payments[k]) || (!c.Dispatch? && c.p == k && BreaksNow(s.channels, s.payments[k], c))
  {
    TaskBreaks(s.channels, s.payments[k], c);
  }

  lemma LastStepBreaks(base: Topology, cs: seq<Choice>, k: nat)
    requires StartOk(base) && cs != [] && k < |Run(base, cs[..|cs| - 1]).payments|
    ensures k < |Run(base, cs).payments|
    ensures IsBroken(Run(base, cs).payments[k])
            <==> IsBroken(Run(base, cs[..|cs| - 1]).payments[k]) || Breaks(base, cs, |cs| - 1, k)
  {
    var before := cs[..|cs| - 1];
    RunKeepsInv(base, before);
    assert TaskOk(base, Run(base, before).channels, Run(base, before).payments[k]);
    StepBreaks(Run(base, before), cs[|cs| - 1], k);
  }

  /** In every run a payment ends in a critical error if and only if at some place one of its hops met no channel or a
      critical answer to its addition, or the next channel did not know its forwarder or its fee overflowed, or its
      interceptors crashed. */
  lemma {:induction false} BrokenIff(base: Topology, cs: seq<Choice>, k: nat)
    requires StartOk(base) && k < |Run(base, cs).payments|
    ensures IsBroken(Run(base, cs).payments[k]) <==> Broken(base, cs, k)
    decreases |cs|
  {
    if cs == [] {
    } else {
      var before := cs[..|cs| - 1];
      BrokenSnoc(base, cs, k);
      if k < |Run(base, before).payments| {
        BrokenIff(base, before, k);
        LastStepBreaks(base, cs, k);
      } else {
        NewPaymentNotBroken(base, before, k);
      }
    }
  }
}

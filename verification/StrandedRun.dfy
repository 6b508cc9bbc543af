/** A run that strands a payment: `Success` is reported while its first hop stays locked. */
module StrandedRun {
  import opened Types
  import opened Channel
  import opened Payments
  import opened Network
  import opened Invariant
  import opened LedgerProofs

  function OpenPolicy(node: NodeId): Policy {
    Policy(node, 10, 1000, 1, 1000, 0, 0, 0)
  }

  function OpenSide(node: NodeId): Side {
    Side(500, map[], OpenPolicy(node), 0)
  }

  const FIRST: Chan := Chan(1000, 0, OpenSide(0), OpenSide(1), false)
  const SECOND: Chan := Chan(1000, 1, OpenSide(1), OpenSide(2), false)
  const LINE: Topology := map[0 := FIRST, 1 := SECOND]

  /** From node 0 over node 1 to node 2, without fees. */
  const TWO_HOPS: seq<Hop> := [Hop(1, 0, 0, 0), Hop(2, 1, 100, 0)]

  lemma RouteFits()
    ensures RouteOk(TWO_HOPS) && AmountAt(TWO_HOPS, 0) == 100 && AmountAt(TWO_HOPS, 1) == 100
    ensures CltvAt(TWO_HOPS, 0) == 0 && CltvAt(TWO_HOPS, 1) == 0
  {
    assert AmountAt(TWO_HOPS, 2) == 0 && CltvAt(TWO_HOPS, 2) == 0;
  }

  /** A new channel accepts an HTLC that is within all limits. */
  lemma FreshAccepts(c: Chan, h: Hash, x: Htlc)
    requires Fresh(c) && 0 < x.amount <= c.one.local && x.cltv <= BLOCK_HEIGHT_LIMIT
    requires c.one.policy.minHtlcSize <= x.amount <= c.one.policy.maxHtlcSize
    requires 0 < c.two.policy.maxHtlcCount && x.amount <= c.two.policy.maxInFlight
    ensures AddHtlc(c, c.one.policy.node, h, x) == (Charging(c, h, x), Accepted(0))
  {
    assert Total(map[]) == 0;
    assert SanityCheck(c) == None;
    assert CheckAddition(c.one, x, c.two.policy) == None;
  }

  /** The channel once its first node has added that HTLC. */
  function Charging(c: Chan, h: Hash, x: Htlc): Chan {
    c.(one := Side(c.one.local - x.amount, c.one.inFlight[h := Held(x, 0)], c.one.policy, 1))
  }

  lemma RunSnoc(cs: seq<Choice>, c: Choice)
    ensures Run(LINE, cs + [c]) == Step(Run(LINE, cs), c)
  {
    assert (cs + [c])[..|cs|] == cs;
  }

  function Locked(c: Chan): Chan {
    Charging(c, 0, Htlc(100, 0))
  }

  /** A hop whose HTLC is accepted and whose forward is fine waits for its interceptors. */
  lemma HopAdded(channels: Topology, p: Payment, i: nat, c: Chan, index: nat)
    requires p.phase == Adding(i) && i < |p.route| && p.route[i].scid in channels
    requires AddHtlc(channels[p.route[i].scid], p.Sender(i), p.hash, p.HtlcAt(i)) == (c, Accepted(index))
    requires ForwardCheck(channels[p.route[i].scid := c], p, i) == Accepted(())
    ensures TaskStep(channels, p, Lock(0))
            == (channels[p.route[i].scid := c], p.(indexes := p.indexes + [index], phase := Intercepting(i)))
  {
  }

  lemma FirstAccepts()
    ensures AddHtlc(FIRST, 0, 0, Htlc(100, 0)) == (Locked(FIRST), Accepted(0))
  {
    FreshAccepts(FIRST, 0, Htlc(100, 0));
  }

  lemma SecondAccepts()
    ensures AddHtlc(SECOND, 1, 0, Htlc(100, 0)) == (Locked(SECOND), Accepted(0))
  {
    FreshAccepts(SECOND, 0, Htlc(100, 0));
  }

  lemma AddFirst(p: Payment)
    requires p == Payment(0, TWO_HOPS, 0, Adding(0), [], [])
    ensures TaskStep(LINE, p, Lock(0)) == (LINE[0 := Locked(FIRST)], p.(indexes := [0], phase := Intercepting(0)))
  {
    RouteFits();
    FirstAccepts();
    ForwardFits(p);
    HopAdded(LINE, p, 0, Locked(FIRST), 0);
    assert [] + [0] == [0];
  }

  lemma ForwardFits(p: Payment)
    requires p == Payment(0, TWO_HOPS, 0, Adding(0), [], [])
    ensures ForwardCheck(LINE[0 := Locked(FIRST)], p, 0) == Accepted(())
  {
    RouteFits();
    assert PolicyFee(OpenPolicy(1), 100) == 0;
  }

  lemma AddSecond(p: Payment)
    requires p == Payment(0, TWO_HOPS, 0, Adding(1), [0], [])
    ensures TaskStep(LINE[0 := Locked(FIRST)], p, Lock(0)).1 == p.(indexes := [0, 0], phase := Intercepting(1))
  {
    RouteFits();
    SecondAccepts();
    HopAdded(LINE[0 := Locked(FIRST)], p, 1, Locked(SECOND), 0);
    assert [0] + [0] == [0, 0];
  }

  lemma StartFits()
    ensures StartOk(LINE)
  {
  }

  /** Both hops are added and the second is removed; then its resolution goes unheard. */
  lemma SuccessStrands() returns (cs: seq<Choice>)
    ensures StartOk(LINE) && |Run(LINE, cs).payments| == 1
    ensures Run(LINE, cs).payments[0].phase == Ended(Success, 1) && Stranded(LINE, cs, 0)
  {
    StartFits();
    RouteFits();
    cs := BothAdded();
    RemoveSecond(cs);
    RunSnoc(cs, Lock(0));
    cs := cs + [Lock(0)];
    RunSnoc(cs, Told(0, false));
    cs := cs + [Told(0, false)];
    StrandedIff(LINE, cs, 0);
  }

  lemma BothAdded() returns (cs: seq<Choice>)
    ensures |Run(LINE, cs).payments| == 1 && Run(LINE, cs).payments[0].phase == Removing(1, Success)
  {
    RouteFits();
    cs := FirstAdded();
    var p := Payment(0, TWO_HOPS, 0, Adding(1), [0], []);
    AddSecond(p);
    RunSnoc(cs, Lock(0));
    cs := cs + [Lock(0)];
    RunSnoc(cs, Reply(0, Proceed));
    cs := cs + [Reply(0, Proceed)];
  }

  lemma FirstAdded() returns (cs: seq<Choice>)
    ensures RouteOk(TWO_HOPS)
    ensures Run(LINE, cs) == State(LINE[0 := Locked(FIRST)], [Payment(0, TWO_HOPS, 0, Adding(1), [0], [])])
  {
    RouteFits();
    var p := Payment(0, TWO_HOPS, 0, Adding(0), [], []);
    cs := [];
    RunSnoc(cs, Dispatch(0, TWO_HOPS, 0));
    cs := cs + [Dispatch(0, TWO_HOPS, 0)];
    AddFirst(p);
    RunSnoc(cs, Lock(0));
    cs := cs + [Lock(0)];
    RunSnoc(cs, Reply(0, Proceed));
    cs := cs + [Reply(0, Proceed)];
  }

  lemma RemoveSecond(cs: seq<Choice>)
    requires StartOk(LINE) && |Run(LINE, cs).payments| == 1 && Run(LINE, cs).payments[0].phase == Removing(1, Success)
    ensures var s := Step(Run(LINE, cs), Lock(0)); |s.payments| == 1 && s.payments[0].phase == Notifying(1, Success)
  {
    assert Reachable(LINE, Run(LINE, cs));
    RemovalNeverFails(LINE, Run(LINE, cs), 0);
  }
}

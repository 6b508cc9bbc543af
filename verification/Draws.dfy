/** What each event holds: the order in which the sources are asked for their next event decides, through one shared
    stream of destinations and each source's own waits and amounts. */
module Draws {
  import opened Types
  import opened Schedule
  import opened ScheduleProofs
  import opened ScheduleTheorems
  import opened StartDelay

  /** A source is asked for its next event, to be counted from time `from`; `early` if it has sent nothing yet. */
  datatype Ask = Ask(source: NodeId, from: nat, early: bool)

  /** The position in the shared stream after these sources have drawn, one after the other. */
  function PositionAfter(kit: Kit, asks: seq<Ask>): nat {
    if asks == [] then 0
    else
      var s, before := asks[|asks| - 1].source, PositionAfter(kit, asks[..|asks| - 1]);
      if s in kit then kit[s].pick(before).1 else before
  }

  /** How often source `s` is asked. */
  function Times(asks: seq<Ask>, s: NodeId): nat {
    if asks == [] then 0
    else Times(asks[..|asks| - 1], s) + if asks[|asks| - 1].source == s then 1 else 0
  }

  /** Ask number `j` gives source `s` its event number `nth`, with this destination and amount. */
  predicate Gives(kit: Kit, asks: seq<Ask>, j: nat, s: NodeId, nth: nat, destination: NodeId, amount: nat) {
    && j < |asks| && asks[j].source == s && s in kit
    && nth == Times(asks[..j], s)
    && destination == kit[s].pick(PositionAfter(kit, asks[..j])).0
    && amount == kit[s].amount(nth, destination)
  }

  /** When event `nth` of ask `j` is due. */
  function DueAt(kit: Kit, asks: seq<Ask>, j: nat, nth: nat): nat
    requires j < |asks| && asks[j].source in kit
  {
    var g := kit[asks[j].source];
    asks[j].from + if asks[j].early && g.start.Some? then g.start.value else g.wait(nth)
  }

  /** An event pending is what one of the asks gave. */
  predicate Given(kit: Kit, asks: seq<Ask>, j: nat, s: NodeId, nth: nat, e: Event) {
    Gives(kit, asks, j, s, nth, e.destination, e.amount) && e.time == DueAt(kit, asks, j, nth)
  }

  /** So is a payment sent. `exact` tells that no event of the source came to nothing before. */
  predicate GivenSent(kit: Kit, asks: seq<Ask>, j: nat, nth: nat, e: Sent, exact: bool) {
    && Gives(kit, asks, j, e.slot.source, nth, e.destination, e.amount)
    && e.slot.time == DueAt(kit, asks, j, nth)
    && (exact ==> nth == e.slot.nth)
  }

  predicate IsGiven(kit: Kit, asks: seq<Ask>, s: NodeId, nth: nat, e: Event) {
    exists j :: 0 <= j < |asks| && Given(kit, asks, j, s, nth, e)
  }

  predicate IsGivenSent(kit: Kit, asks: seq<Ask>, e: Sent, exact: bool) {
    exists j :: 0 <= j < |asks| && GivenSent(kit, asks, j, Times(asks[..j], e.slot.source), e, exact)
  }

  /** The shared stream and the generators are where the asks have brought them. */
  ghost predicate PositionsOk(kit: Kit, v: Sched, asks: seq<Ask>) {
    && v.drawn == PositionAfter(kit, asks)
    && forall s :: s in v.progress ==> s in kit && v.progress[s].generated == Times(asks, s)
  }

  /** The event pending for `s` is the last that it was given. */
  predicate PendingOk(kit: Kit, v: Sched, asks: seq<Ask>, s: NodeId) {
    s in v.pending ==>
      && s in v.progress && v.progress[s].generated > 0
      && IsGiven(kit, asks, s, v.progress[s].generated - 1, v.pending[s])
  }

  predicate LogOk(kit: Kit, log: seq<Sent>, asks: seq<Ask>, exact: bool) {
    forall k :: 0 <= k < |log| ==> IsGivenSent(kit, asks, log[k], exact)
  }

  /** Everything in the scheduler is what the asks gave. */
  ghost predicate Drawn(kit: Kit, v: Sched, asks: seq<Ask>, exact: bool) {
    PositionsOk(kit, v, asks) && (forall s :: PendingOk(kit, v, asks, s)) && LogOk(kit, v.log, asks, exact)
  }

  // ---------- One more ask ----------

  lemma AsksGrow(asks: seq<Ask>, a: Ask, j: nat)
    requires j <= |asks|
    ensures (asks + [a])[..j] == asks[..j]
  {
  }

  lemma GivenStays(kit: Kit, asks: seq<Ask>, a: Ask, s: NodeId, nth: nat, e: Event)
    requires IsGiven(kit, asks, s, nth, e)
    ensures IsGiven(kit, asks + [a], s, nth, e)
  {
    var j :| 0 <= j < |asks| && Given(kit, asks, j, s, nth, e);
    AsksGrow(asks, a, j);
    assert Given(kit, asks + [a], j, s, nth, e);
  }

  lemma GivenSentStays(kit: Kit, asks: seq<Ask>, a: Ask, e: Sent, exact: bool)
    requires IsGivenSent(kit, asks, e, exact)
    ensures IsGivenSent(kit, asks + [a], e, exact)
  {
    var j :| 0 <= j < |asks| && GivenSent(kit, asks, j, Times(asks[..j], e.slot.source), e, exact);
    AsksGrow(asks, a, j);
    assert GivenSent(kit, asks + [a], j, Times((asks + [a])[..j], e.slot.source), e, exact);
  }

  lemma OneMore(kit: Kit, asks: seq<Ask>, a: Ask, s: NodeId)
    ensures Times(asks + [a], s) == Times(asks, s) + if a.source == s then 1 else 0
    ensures a.source in kit ==> PositionAfter(kit, asks + [a]) == kit[a.source].pick(PositionAfter(kit, asks)).1
  {
    AsksGrow(asks, a, |asks|);
    assert (asks + [a])[..|asks|] == asks;
  }

  lemma GenerateMoves(kit: Kit, v: Sched, asks: seq<Ask>, s: NodeId, from: nat, early: bool)
    requires s in kit && s in v.progress && PositionsOk(kit, v, asks)
    ensures PositionsOk(kit, Generate(kit, v, s, from), asks + [Ask(s, from, early)])
  {
    var a, v' := Ask(s, from, early), Generate(kit, v, s, from);
    OneMore(kit, asks, a, s);
    forall r | r in v'.progress ensures r in kit && v'.progress[r].generated == Times(asks + [a], r) {
      OneMore(kit, asks, a, r);
    }
  }

  lemma LogStays(kit: Kit, log: seq<Sent>, asks: seq<Ask>, a: Ask, exact: bool)
    requires LogOk(kit, log, asks, exact)
    ensures LogOk(kit, log, asks + [a], exact)
  {
    forall k | 0 <= k < |log| ensures IsGivenSent(kit, asks + [a], log[k], exact) {
      GivenSentStays(kit, asks, a, log[k], exact);
    }
  }

  lemma OtherStays(kit: Kit, v: Sched, asks: seq<Ask>, s: NodeId, from: nat, a: Ask, r: NodeId)
    requires s in kit && s in v.progress && r != s && PendingOk(kit, v, asks, r)
    ensures PendingOk(kit, Generate(kit, v, s, from), asks + [a], r)
  {
    if r in v.pending { GivenStays(kit, asks, a, r, v.progress[r].generated - 1, v.pending[r]); }
  }

  /** What asking a source adds. */
  lemma GenerateDraws(kit: Kit, v: Sched, asks: seq<Ask>, exact: bool, s: NodeId, from: nat)
    requires s in kit && s in v.progress && PositionsOk(kit, v, asks)
    requires (forall r :: r != s ==> PendingOk(kit, v, asks, r)) && LogOk(kit, v.log, asks, exact)
    ensures Drawn(kit, Generate(kit, v, s, from), asks + [Ask(s, from, v.progress[s].completed == 0)], exact)
  {
    var a, v' := Ask(s, from, v.progress[s].completed == 0), Generate(kit, v, s, from);
    GenerateMoves(kit, v, asks, s, from, a.early);
    NewEventGiven(kit, v, asks, s, from);
    forall r ensures PendingOk(kit, v', asks + [a], r) {
      if r != s { OtherStays(kit, v, asks, s, from, a, r); }
    }
    LogStays(kit, v.log, asks, a, exact);
  }

  lemma NewEventGiven(kit: Kit, v: Sched, asks: seq<Ask>, s: NodeId, from: nat)
    requires s in kit && s in v.progress && v.drawn == PositionAfter(kit, asks)
    requires v.progress[s].generated == Times(asks, s)
    ensures var v' := Generate(kit, v, s, from);
            IsGiven(kit, asks + [Ask(s, from, v.progress[s].completed == 0)], s, v.progress[s].generated, v'.pending[s])
  {
    var a := Ask(s, from, v.progress[s].completed == 0);
    assert (asks + [a])[..|asks|] == asks;
    assert Given(kit, asks + [a], |asks|, s, v.progress[s].generated, Generate(kit, v, s, from).pending[s]);
  }

  // ---------- Setting up ----------

  function StartAsks(order: seq<NodeId>, now: nat): seq<Ask> {
    seq(|order|, i requires 0 <= i < |order| => Ask(order[i], now, true))
  }

  lemma {:induction false} NeverAsked(order: seq<NodeId>, now: nat, s: NodeId)
    requires s !in order
    ensures Times(StartAsks(order, now), s) == 0
  {
    if order == [] {
    } else {
      assert StartAsks(order, now)[..|order| - 1] == StartAsks(order[..|order| - 1], now);
      NeverAsked(order[..|order| - 1], now, s);
    }
  }

  lemma {:induction false} SetupDraws(kit: Kit, order: seq<NodeId>, now: nat, exact: bool)
    requires forall i :: 0 <= i < |order| ==> order[i] in kit
    requires forall i, j :: 0 <= i < j < |order| ==> order[i] != order[j]
    ensures Drawn(kit, Setup(kit, order, now), StartAsks(order, now), exact)
  {
    if order == [] {
    } else {
      var init, s := order[..|order| - 1], order[|order| - 1];
      SetupDraws(kit, init, now, exact);
      SourceReset(kit, init, now, s);
      GenerateDraws(kit, WithSource(Setup(kit, init, now), s), StartAsks(init, now), exact, s, now);
      assert StartAsks(order, now) == StartAsks(init, now) + [Ask(s, now, true)];
    }
  }

  /** A source registered for the first time has not been asked. */
  lemma SourceReset(kit: Kit, order: seq<NodeId>, now: nat, s: NodeId)
    requires (forall i :: 0 <= i < |order| ==> order[i] in kit) && s in kit && s !in order
    requires PositionsOk(kit, Setup(kit, order, now), StartAsks(order, now))
    requires forall r :: PendingOk(kit, Setup(kit, order, now), StartAsks(order, now), r)
    ensures var v := WithSource(Setup(kit, order, now), s);
            PositionsOk(kit, v, StartAsks(order, now)) && forall r :: PendingOk(kit, v, StartAsks(order, now), r)
  {
    SetupKeys(kit, order, now);
    NeverAsked(order, now, s);
    var v, w := Setup(kit, order, now), WithSource(Setup(kit, order, now), s);
    forall r ensures PendingOk(kit, w, StartAsks(order, now), r) {
      assert PendingOk(kit, v, StartAsks(order, now), r);
    }
  }

  // ---------- Rounds ----------

  /** The next round pops an event of `s` and replaces it. */
  ghost predicate Replaces(kit: Kit, v: Sched, s: NodeId) {
    IsFront(v.pending, s) && s in kit && s in v.progress && !CountMet(kit, v, s)
  }

  /** The round from `v` to `v'` asks the source whose event it pops, unless its count is met. */
  ghost function RoundAsks(kit: Kit, v: Sched, v': Sched): seq<Ask> {
    if s :| Replaces(kit, v, s) then [Ask(s, v'.clock, s in v'.progress && v'.progress[s].completed == 0)] else []
  }

  lemma RoundAsksAre(kit: Kit, v: Sched, v': Sched, s: NodeId)
    requires IsFront(v.pending, s) && s in kit && s in v.progress
    ensures RoundAsks(kit, v, v')
            == if CountMet(kit, v, s) then []
               else [Ask(s, v'.clock, s in v'.progress && v'.progress[s].completed == 0)]
  {
    forall r | Replaces(kit, v, r) ensures r == s {
      assert r != s ==> Before(v.pending[s], v.pending[r]);
    }
    assert !CountMet(kit, v, s) ==> Replaces(kit, v, s);
  }

  /** No event of the sources pending has come to nothing. */
  ghost predicate AllSent(v: Sched) {
    forall s :: s in v.pending && s in v.progress ==> v.progress[s].generated == v.progress[s].completed + 1
  }

  lemma DropDraws(kit: Kit, v: Sched, asks: seq<Ask>, exact: bool, s: NodeId)
    requires Drawn(kit, v, asks, exact)
    ensures Drawn(kit, v.(pending := v.pending - {s}), asks, exact)
  {
    var v' := v.(pending := v.pending - {s});
    forall r ensures PendingOk(kit, v', asks, r) {
      assert PendingOk(kit, v, asks, r);
    }
  }

  lemma ZeroDraws(kit: Kit, v: Sched, asks: seq<Ask>, exact: bool, s: NodeId)
    requires Drawn(kit, v, asks, exact) && s in kit && s in v.progress && s in v.pending
    requires !CountMet(kit, v, s) && v.pending[s].amount == 0
    ensures Drawn(kit, RoundAt(kit, v, s), asks + [Ask(s, v.clock, v.progress[s].completed == 0)], exact)
  {
    DropDraws(kit, v, asks, exact, s);
    GenerateDraws(kit, v.(pending := v.pending - {s}), asks, exact, s, v.clock);
  }

  /** The scheduler when a payment of `s` has been counted and waited for. */
  function Awaited(v: Sched, s: NodeId): Sched
    requires s in v.pending && s in v.progress
  {
    v.(pending := v.pending - {s},
       progress := v.progress[s := Progress(v.progress[s].completed + 1, v.progress[s].generated)],
       clock := if v.pending[s].time > v.clock then v.pending[s].time else v.clock)
  }

  lemma AwaitedDraws(kit: Kit, v: Sched, asks: seq<Ask>, exact: bool, s: NodeId)
    requires Drawn(kit, v, asks, exact) && s in v.progress && s in v.pending
    ensures Drawn(kit, Awaited(v, s), asks, exact)
  {
    forall r ensures PendingOk(kit, Awaited(v, s), asks, r) {
      assert PendingOk(kit, v, asks, r);
    }
  }

  /** A payment that is sent was given. */
  lemma SentGiven(kit: Kit, v: Sched, asks: seq<Ask>, exact: bool, s: NodeId)
    requires Drawn(kit, v, asks, exact) && s in v.progress && s in v.pending && v.pending[s].time >= v.clock
    requires exact ==> v.progress[s].generated == v.progress[s].completed + 1
    ensures var e := v.pending[s];
            IsGivenSent(kit, asks, Sent(Slot(e.time, s, v.progress[s].completed), e.destination, e.amount), exact)
  {
    assert PendingOk(kit, v, asks, s);
    var e, nth := v.pending[s], v.progress[s].generated - 1;
    var j :| 0 <= j < |asks| && Given(kit, asks, j, s, nth, e);
    assert GivenSent(kit, asks, j, nth, Sent(Slot(e.time, s, v.progress[s].completed), e.destination, e.amount), exact);
  }

  lemma SendDraws(kit: Kit, v: Sched, asks: seq<Ask>, exact: bool, s: NodeId)
    requires Drawn(kit, v, asks, exact) && s in kit && s in v.progress && s in v.pending && v.pending[s].time >= v.clock
    requires !CountMet(kit, v, s) && v.pending[s].amount != 0
    requires exact ==> v.progress[s].generated == v.progress[s].completed + 1
    ensures Drawn(kit, RoundAt(kit, v, s), asks + [Ask(s, v.pending[s].time, false)], exact)
  {
    var e, w := v.pending[s], Awaited(v, s);
    var sent := Sent(Slot(e.time, s, v.progress[s].completed), e.destination, e.amount);
    AwaitedDraws(kit, v, asks, exact, s);
    SentGiven(kit, v, asks, exact, s);
    GenerateDraws(kit, w, asks, exact, s, e.time);
    GivenSentStays(kit, asks, Ask(s, e.time, false), sent, exact);
    MoreSent(kit, Generate(kit, w, s, e.time), asks + [Ask(s, e.time, false)], exact, sent);
    RoundSends(kit, v, s);
  }

  lemma RoundSends(kit: Kit, v: Sched, s: NodeId)
    requires s in kit && s in v.progress && s in v.pending && v.pending[s].time >= v.clock
    requires !CountMet(kit, v, s) && v.pending[s].amount != 0
    ensures var e := v.pending[s];
            RoundAt(kit, v, s)
            == Generate(kit, Awaited(v, s), s, e.time)
               .(log := v.log + [Sent(Slot(e.time, s, v.progress[s].completed), e.destination, e.amount)])
  {
  }

  lemma MoreSent(kit: Kit, v: Sched, asks: seq<Ask>, exact: bool, e: Sent)
    requires Drawn(kit, v, asks, exact) && IsGivenSent(kit, asks, e, exact)
    ensures Drawn(kit, v.(log := v.log + [e]), asks, exact)
  {
    var v' := v.(log := v.log + [e]);
    forall r ensures PendingOk(kit, v', asks, r) {
      assert PendingOk(kit, v, asks, r);
    }
  }

  lemma RoundDraws(kit: Kit, v: Sched, v': Sched, asks: seq<Ask>, exact: bool)
    requires NotOverdue(kit, v) && Drawn(kit, v, asks, exact) && Round(kit, v, v') && (exact ==> AllSent(v))
    ensures Drawn(kit, v', asks + RoundAsks(kit, v, v'), exact)
  {
    var s :| IsFront(v.pending, s) && s in kit && s in v.progress && v' == RoundAt(kit, v, s);
    RoundAsksAre(kit, v, v', s);
    PopDraws(kit, v, asks, exact, s);
  }

  lemma PopDraws(kit: Kit, v: Sched, asks: seq<Ask>, exact: bool, s: NodeId)
    requires Drawn(kit, v, asks, exact) && s in kit && s in v.progress && s in v.pending && v.pending[s].time >= v.clock
    requires exact ==> v.progress[s].generated == v.progress[s].completed + 1
    ensures var v' := RoundAt(kit, v, s);
            && s in v'.progress
            && Drawn(kit, v', asks + if CountMet(kit, v, s) then []
                                     else [Ask(s, v'.clock, v'.progress[s].completed == 0)], exact)
  {
    if CountMet(kit, v, s) {
      DropDraws(kit, v, asks, exact, s);
      assert asks + [] == asks;
    } else if v.pending[s].amount == 0 {
      ZeroDraws(kit, v, asks, exact, s);
    } else {
      SendDraws(kit, v, asks, exact, s);
    }
  }

  // ---------- Runs ----------

  /** The order in which the sources are asked up to state `i`. */
  ghost function Asked(kit: Kit, order: seq<NodeId>, vs: seq<Sched>, i: nat): seq<Ask>
    requires i < |vs|
  {
    if i == 0 then StartAsks(order, vs[0].clock)
    else Asked(kit, order, vs, i - 1) + RoundAsks(kit, vs[i - 1], vs[i])
  }

  lemma {:induction false} RunDraws(kit: Kit, order: seq<NodeId>, vs: seq<Sched>, i: nat, exact: bool)
    requires IsRun(kit, vs) && NotOverdue(kit, vs[0]) && Drawn(kit, vs[0], StartAsks(order, vs[0].clock), exact)
    requires i < |vs| && (exact ==> forall j {:trigger AllSent(vs[j])} :: 0 <= j < |vs| ==> AllSent(vs[j]))
    ensures Drawn(kit, vs[i], Asked(kit, order, vs, i), exact)
  {
    if i == 0 {
    } else {
      RunDraws(kit, order, vs, i - 1, exact);
      RunNotOverdue(kit, vs, i - 1);
      StepOfRun(kit, vs, i);
      assert exact ==> AllSent(vs[i - 1]);
      RoundDraws(kit, vs[i - 1], vs[i], Asked(kit, order, vs, i - 1), exact);
    }
  }

  /** In every run, zero amounts included, the position in the shared stream is that after the draws of all sources
      asked so far, and every event pending and every payment sent has the destination that the stream gave at the
      position reached before its own draw, the amount that its source's generator gave for that destination, and the
      time that its source's delay gave, counted from when it was asked. */
  lemma EventsAreDrawn(kit: Kit, order: seq<NodeId>, now: nat, vs: seq<Sched>, i: nat)
    requires Lists(order, kit) && IsRun(kit, vs) && vs[0] == Setup(kit, order, now) && i < |vs|
    ensures Drawn(kit, vs[i], Asked(kit, order, vs, i), false)
  {
    SetupDraws(kit, order, now, false);
    SetupNotOverdue(kit, order, now);
    RunDraws(kit, order, vs, i, false);
  }

  // ---------- Without zero amounts ----------

  /** Each payment sent has its source asked again, at the time it is sent. */
  function LogAsks(log: seq<Sent>): seq<Ask> {
    seq(|log|, i requires 0 <= i < |log| => Ask(log[i].slot.source, log[i].slot.time, false))
  }

  /** The log determines all draws: the sources are asked first as listed and then as their payments are sent. Payment
      `nth` of a source has the destination that its ask number `nth` gave it, and amount number `nth` of its generator
      for that destination; and `drawn` is where all the asks have brought the shared stream. */
  predicate DrawnInOrder(kit: Kit, order: seq<NodeId>, now: nat, log: seq<Sent>, drawn: nat) {
    var asks := StartAsks(order, now) + LogAsks(log);
    && drawn == PositionAfter(kit, asks)
    && LogOk(kit, log, asks, true)
    && AmountsOk(kit, log)
  }

  predicate AmountsOk(kit: Kit, log: seq<Sent>) {
    forall e :: e in log ==>
      e.slot.source in kit && e.amount == kit[e.slot.source].amount(e.slot.nth, e.destination)
  }

  lemma LogAsksSnoc(log: seq<Sent>, e: Sent)
    ensures LogAsks(log + [e]) == LogAsks(log) + [Ask(e.slot.source, e.slot.time, false)]
  {
  }

  lemma PopAsksLogged(kit: Kit, now: nat, v: Sched, s: NodeId)
    requires NonZero(kit) && s in kit && SourceOk(kit, now, v, s) && s in v.pending && !CountMet(kit, v, s)
    ensures var v' := RoundAt(kit, v, s);
            && LogAsks(v'.log) == LogAsks(v.log) + [Ask(s, v'.clock, false)]
            && s in v'.progress && v'.progress[s].completed > 0
  {
    SendEffect(kit, now, v, s);
    LogAsksSnoc(v.log, Sent(Next(v, s), v.pending[s].destination, v.pending[s].amount));
  }

  lemma RoundAsksLogged(kit: Kit, now: nat, v: Sched, v': Sched)
    requires NonZero(kit) && SourcesOk(kit, now, v) && Round(kit, v, v')
    ensures LogAsks(v'.log) == LogAsks(v.log) + RoundAsks(kit, v, v')
  {
    var s :| IsFront(v.pending, s) && s in kit && s in v.progress && v' == RoundAt(kit, v, s);
    assert SourceOk(kit, now, v, s);
    RoundAsksAre(kit, v, v', s);
    if CountMet(kit, v, s) {
      assert LogAsks(v.log) + [] == LogAsks(v.log);
    } else {
      PopAsksLogged(kit, now, v, s);
    }
  }

  lemma {:induction false} AskedAsLogged(kit: Kit, order: seq<NodeId>, now: nat, vs: seq<Sched>, i: nat)
    requires Goes(kit, order, now, vs) && i < |vs| && vs[0].log == [] && vs[0].clock == now
    ensures Asked(kit, order, vs, i) == StartAsks(order, now) + LogAsks(vs[i].log)
  {
    if i == 0 {
      assert LogAsks([]) == [];
    } else {
      AskedAsLogged(kit, order, now, vs, i - 1);
      StepAsksLogged(kit, order, now, vs, i);
    }
  }

  lemma StepAsksLogged(kit: Kit, order: seq<NodeId>, now: nat, vs: seq<Sched>, j: nat)
    requires Goes(kit, order, now, vs) && 0 < j < |vs|
    ensures LogAsks(vs[j].log) == LogAsks(vs[j - 1].log) + RoundAsks(kit, vs[j - 1], vs[j])
  {
    StepOfRun(kit, vs, j);
    assert SourcesOk(kit, now, vs[j - 1]);
    RoundAsksLogged(kit, now, vs[j - 1], vs[j]);
  }

  lemma NoneComesToNothing(kit: Kit, order: seq<NodeId>, now: nat, vs: seq<Sched>, j: nat)
    requires Goes(kit, order, now, vs) && j < |vs|
    ensures AllSent(vs[j])
  {
    assert SourcesOk(kit, now, vs[j]);
    forall s | s in vs[j].pending && s in vs[j].progress
      ensures vs[j].progress[s].generated == vs[j].progress[s].completed + 1 {
      assert SourceOk(kit, now, vs[j], s);
    }
  }

  /** Without zero amounts, in every state of every run, the list of sources and the log determine all draws. */
  lemma MergeIsDrawn(kit: Kit, order: seq<NodeId>, now: nat, vs: seq<Sched>, i: nat)
    requires Runs(kit, order, now, vs) && i < |vs|
    ensures DrawnInOrder(kit, order, now, vs[i].log, vs[i].drawn)
  {
    RunGoes(kit, order, now, vs);
    SetupKeys(kit, order, now);
    SetupDraws(kit, order, now, true);
    SetupNotOverdue(kit, order, now);
    forall j | 0 <= j < |vs| ensures AllSent(vs[j]) { NoneComesToNothing(kit, order, now, vs, j); }
    RunDraws(kit, order, vs, i, true);
    AskedAsLogged(kit, order, now, vs, i);
    AmountsByNumber(kit, vs[i].log, Asked(kit, order, vs, i));
  }

  lemma AmountsByNumber(kit: Kit, log: seq<Sent>, asks: seq<Ask>)
    requires LogOk(kit, log, asks, true)
    ensures AmountsOk(kit, log)
  {
    forall e | e in log
      ensures e.slot.source in kit && e.amount == kit[e.slot.source].amount(e.slot.nth, e.destination) {
      var k :| 0 <= k < |log| && log[k] == e;
      assert IsGivenSent(kit, asks, log[k], true);
    }
  }
}

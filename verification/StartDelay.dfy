/** When the first payment of a source with a start delay is sent, in runs that may draw zero amounts. */
module StartDelay {
  import opened Types
  import opened Schedule
  import opened ScheduleProofs

  /** The next round pops an event of `s` without an amount, before `s` has sent anything. */
  ghost predicate PopsZero(kit: Kit, v: Sched, s: NodeId) {
    && IsFront(v.pending, s) && s in kit && s in v.progress && !CountMet(kit, v, s)
    && v.pending[s].amount == 0 && v.progress[s].completed == 0
  }

  /** The clock at the last such round before state `i`, or else at the start. */
  ghost function LastZero(kit: Kit, vs: seq<Sched>, i: nat, s: NodeId): nat
    requires i < |vs|
  {
    if i == 0 then vs[0].clock
    else if PopsZero(kit, vs[i - 1], s) then vs[i - 1].clock
    else LastZero(kit, vs, i - 1, s)
  }

  /** Nothing pending is overdue. */
  ghost predicate NotOverdue(kit: Kit, v: Sched) {
    && (forall r :: r in v.pending ==> r in v.progress && v.pending[r].time >= v.clock)
    && (forall r :: r in v.progress ==> r in kit)
  }

  /** The first payment of `s` is due, or was sent, `start` after time `from`. */
  ghost predicate FirstDue(v: Sched, s: NodeId, from: nat, start: nat) {
    && s in v.progress
    && (s in v.pending && v.progress[s].completed == 0 ==> v.pending[s].time == from + start)
    && (forall j :: 0 <= j < |v.log| && v.log[j].slot.source == s ==> v.log[j].slot.nth < v.progress[s].completed)
    && (forall j :: 0 <= j < |v.log| && v.log[j].slot.source == s && v.log[j].slot.nth == 0 ==>
          v.log[j].slot.time == from + start)
  }

  // ---------- Setting up ----------

  lemma {:induction false} SetupNotOverdue(kit: Kit, order: seq<NodeId>, now: nat)
    requires forall i :: 0 <= i < |order| ==> order[i] in kit
    ensures NotOverdue(kit, Setup(kit, order, now)) && Setup(kit, order, now).clock == now
  {
    if order == [] {
    } else {
      SetupNotOverdue(kit, order[..|order| - 1], now);
    }
  }

  lemma {:induction false} SetupFirstDue(kit: Kit, order: seq<NodeId>, now: nat, i: nat, start: nat)
    requires i < |order| && forall j :: 0 <= j < |order| ==> order[j] in kit
    requires forall j, k :: 0 <= j < k < |order| ==> order[j] != order[k]
    requires kit[order[i]].start == Some(start)
    ensures FirstDue(Setup(kit, order, now), order[i], now, start)
  {
    SetupKeys(kit, order, now);
    if i == |order| - 1 {
    } else {
      SetupFirstDue(kit, order[..|order| - 1], now, i, start);
    }
  }

  // ---------- Rounds ----------

  lemma RoundNotOverdue(kit: Kit, v: Sched, v': Sched)
    requires NotOverdue(kit, v) && Round(kit, v, v')
    ensures NotOverdue(kit, v') && v.clock <= v'.clock
  {
    var s :| IsFront(v.pending, s) && s in kit && s in v.progress && v' == RoundAt(kit, v, s);
    forall r | r in v'.pending ensures r in v'.progress && v'.pending[r].time >= v'.clock {
      assert r != s ==> v'.pending[r] == v.pending[r];
    }
  }

  /** A round of another source. */
  lemma OthersKeepFirst(kit: Kit, v: Sched, r: NodeId, s: NodeId, from: nat, start: nat)
    requires FirstDue(v, s, from, start) && r != s && r in kit && r in v.progress && r in v.pending
    ensures FirstDue(RoundAt(kit, v, r), s, from, start)
  {
  }

  /** A round of `s` itself. */
  lemma OwnRoundFirst(kit: Kit, v: Sched, s: NodeId, from: nat, start: nat)
    requires NotOverdue(kit, v) && FirstDue(v, s, from, start)
    requires IsFront(v.pending, s) && s in kit && kit[s].start == Some(start)
    ensures FirstDue(RoundAt(kit, v, s), s, if PopsZero(kit, v, s) then v.clock else from, start)
  {
  }

  lemma RoundKeepsFirst(kit: Kit, v: Sched, v': Sched, s: NodeId, from: nat, start: nat)
    requires NotOverdue(kit, v) && FirstDue(v, s, from, start) && Round(kit, v, v')
    requires s in kit && kit[s].start == Some(start)
    ensures FirstDue(v', s, if PopsZero(kit, v, s) then v.clock else from, start)
  {
    var r :| IsFront(v.pending, r) && r in kit && r in v.progress && v' == RoundAt(kit, v, r);
    if r == s {
      OwnRoundFirst(kit, v, s, from, start);
    } else {
      assert !IsFront(v.pending, s);
      OthersKeepFirst(kit, v, r, s, from, start);
    }
  }

  // ---------- Runs ----------

  lemma {:induction false} RunNotOverdue(kit: Kit, vs: seq<Sched>, i: nat)
    requires IsRun(kit, vs) && NotOverdue(kit, vs[0]) && i < |vs|
    ensures NotOverdue(kit, vs[i])
  {
    if i == 0 {
    } else {
      RunNotOverdue(kit, vs, i - 1);
      StepOfRun(kit, vs, i);
      RoundNotOverdue(kit, vs[i - 1], vs[i]);
    }
  }

  lemma {:induction false} RunFirstDue(kit: Kit, vs: seq<Sched>, i: nat, s: NodeId, start: nat)
    requires IsRun(kit, vs) && NotOverdue(kit, vs[0]) && i < |vs|
    requires s in kit && kit[s].start == Some(start) && FirstDue(vs[0], s, vs[0].clock, start)
    ensures FirstDue(vs[i], s, LastZero(kit, vs, i, s), start)
  {
    if i == 0 {
    } else {
      RunFirstDue(kit, vs, i - 1, s, start);
      RunNotOverdue(kit, vs, i - 1);
      StepOfRun(kit, vs, i);
      RoundKeepsFirst(kit, vs[i - 1], vs[i], s, LastZero(kit, vs, i - 1, s), start);
    }
  }

  /** Before state `i` an event of `s` without an amount was popped, after time `now` and before `s` had sent
      anything. */
  ghost predicate ZeroAfter(kit: Kit, vs: seq<Sched>, i: nat, s: NodeId, now: nat)
    requires i <= |vs|
  {
    exists j :: 0 <= j < i && PopsZero(kit, vs[j], s) && vs[j].clock > now
  }

  lemma {:induction false} LastZeroIff(kit: Kit, vs: seq<Sched>, i: nat, s: NodeId)
    requires IsRun(kit, vs) && NotOverdue(kit, vs[0]) && i < |vs|
    ensures vs[0].clock <= LastZero(kit, vs, i, s) <= vs[i].clock
    ensures LastZero(kit, vs, i, s) > vs[0].clock <==> ZeroAfter(kit, vs, i, s, vs[0].clock)
  {
    if i == 0 {
    } else {
      LastZeroIff(kit, vs, i - 1, s);
      RunNotOverdue(kit, vs, i - 1);
      StepOfRun(kit, vs, i);
      RoundNotOverdue(kit, vs[i - 1], vs[i]);
    }
  }

  /** In every run the first payment of a source is sent its start delay after the time at which the last of its events
      without an amount was popped before, or after the start if there was none; until it is sent, its event is pending
      for that time. So it is sent one start delay after the start if and only if no event of the source without an
      amount was popped at a later time than that. */
  lemma FirstPaymentDue(kit: Kit, order: seq<NodeId>, now: nat, vs: seq<Sched>, i: nat, s: NodeId, start: nat)
    requires Lists(order, kit) && IsRun(kit, vs) && vs[0] == Setup(kit, order, now) && i < |vs|
    requires s in kit && kit[s].start == Some(start)
    ensures FirstDue(vs[i], s, LastZero(kit, vs, i, s), start)
    ensures forall j :: 0 <= j < |vs[i].log| && vs[i].log[j].slot.source == s && vs[i].log[j].slot.nth == 0 ==>
              (vs[i].log[j].slot.time == now + start <==> !ZeroAfter(kit, vs, i, s, now))
  {
    var k :| 0 <= k < |order| && order[k] == s;
    SetupFirstDue(kit, order, now, k, start);
    SetupNotOverdue(kit, order, now);
    RunFirstDue(kit, vs, i, s, start);
    LastZeroIff(kit, vs, i, s);
  }

  // ---------- A run in which the start delay applies twice ----------

  /** Pays 5 to source 1, after 1 second and then every 100. */
  function Steady(): Generator {
    Generator(Some(1), None, (j: nat) => 100, (g: nat) => (1, g), (j: nat, d: NodeId) => 5,
              (j: nat, from: nat, d: NodeId) => true)
  }

  /** The same towards source 0, but the first amount it draws is zero. */
  function Hesitant(): Generator {
    Generator(Some(1), None, (j: nat) => 100, (g: nat) => (0, g), (j: nat, d: NodeId) => if j == 0 then 0 else 7,
              (j: nat, from: nat, d: NodeId) => true)
  }

  const PAIR: Kit := map[0 := Steady(), 1 := Hesitant()]

  const PAIR_RUN: seq<Sched> := [
    Sched(map[0 := Event(1, 0, 1, 5), 1 := Event(1, 1, 0, 0)], map[0 := Progress(0, 1), 1 := Progress(0, 1)], 0, 0, []),
    Sched(map[0 := Event(101, 0, 1, 5), 1 := Event(1, 1, 0, 0)], map[0 := Progress(1, 2), 1 := Progress(0, 1)], 1, 0,
          [Sent(Slot(1, 0, 0), 1, 5)]),
    Sched(map[0 := Event(101, 0, 1, 5), 1 := Event(2, 1, 0, 7)], map[0 := Progress(1, 2), 1 := Progress(0, 2)], 1, 0,
          [Sent(Slot(1, 0, 0), 1, 5)]),
    Sched(map[0 := Event(101, 0, 1, 5), 1 := Event(102, 1, 0, 7)], map[0 := Progress(1, 2), 1 := Progress(1, 3)], 2, 0,
          [Sent(Slot(1, 0, 0), 1, 5), Sent(Slot(2, 1, 0), 0, 7)])]

  lemma PairStarts()
    ensures Lists([0, 1], PAIR) && Setup(PAIR, [0, 1], 0) == PAIR_RUN[0]
  {
    assert [0, 1][..1] == [0] && [0][..0] == [];
    assert Setup(PAIR, [0], 0)
        == Sched(map[0 := Event(1, 0, 1, 5)], map[0 := Progress(0, 1)], 0, 0, []);
  }

  lemma PairPops0()
    ensures Round(PAIR, PAIR_RUN[0], PAIR_RUN[1])
  {
    assert IsFront(PAIR_RUN[0].pending, 0);
    assert RoundAt(PAIR, PAIR_RUN[0], 0) == PAIR_RUN[1];
  }

  lemma PairPops1()
    ensures Round(PAIR, PAIR_RUN[1], PAIR_RUN[2])
  {
    assert IsFront(PAIR_RUN[1].pending, 1);
    assert RoundAt(PAIR, PAIR_RUN[1], 1) == PAIR_RUN[2];
  }

  lemma PairPops2()
    ensures Round(PAIR, PAIR_RUN[2], PAIR_RUN[3])
  {
    assert IsFront(PAIR_RUN[2].pending, 1);
    assert RoundAt(PAIR, PAIR_RUN[2], 1) == PAIR_RUN[3];
  }

  lemma PairPops(i: nat)
    requires i < 3
    ensures Round(PAIR, PAIR_RUN[i], PAIR_RUN[i + 1])
  {
    if i == 0 {
      PairPops0();
    } else if i == 1 {
      PairPops1();
    } else {
      PairPops2();
    }
  }

  lemma PairRuns()
    ensures IsRun(PAIR, PAIR_RUN)
  {
    forall i, j | 0 <= i < j < |PAIR_RUN| && j == i + 1 ensures Round(PAIR, PAIR_RUN[i], PAIR_RUN[j]) {
      PairPops(i);
    }
  }

  /** A start delay of one second applies twice: the first payment of source 1 is sent after two seconds, because its
      first event had no amount and was popped after source 0 had moved the clock. */
  lemma StartDelayTwice()
    ensures IsRun(PAIR, PAIR_RUN) && Lists([0, 1], PAIR) && PAIR_RUN[0] == Setup(PAIR, [0, 1], 0)
    ensures PAIR[1].start == Some(1) && PAIR_RUN[3].log[1].slot == Slot(2, 1, 0)
  {
    PairStarts();
    PairRuns();
  }
}

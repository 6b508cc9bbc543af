/** What the event loop guarantees over whole runs, for any generators with non-zero amounts. */
module ScheduleTheorems {
  import opened Types
  import opened Schedule
  import opened ScheduleProofs
  import opened Sums

  /** A run of the scheduler from its set-up at time `now`. */
  ghost predicate Runs(kit: Kit, order: seq<NodeId>, now: nat, vs: seq<Sched>) {
    && NonZero(kit) && Lists(order, kit)
    && IsRun(kit, vs) && vs[0] == Setup(kit, order, now)
  }

  lemma RunInv(kit: Kit, order: seq<NodeId>, now: nat, vs: seq<Sched>, i: nat)
    requires Runs(kit, order, now, vs) && i < |vs|
    ensures Inv(kit, now, vs[i])
  {
    SetupInv(kit, order, now);
    RunKeepsInv(kit, now, vs, i);
  }

  /** The same without the set-up: rounds follow each other, and every source is in good order all along. */
  ghost predicate Goes(kit: Kit, order: seq<NodeId>, now: nat, vs: seq<Sched>) {
    && NonZero(kit) && Lists(order, kit)
    && IsRun(kit, vs)
    && forall i {:trigger SourcesOk(kit, now, vs[i])} :: 0 <= i < |vs| ==> SourcesOk(kit, now, vs[i])
  }

  lemma RunGoes(kit: Kit, order: seq<NodeId>, now: nat, vs: seq<Sched>)
    requires Runs(kit, order, now, vs)
    ensures Goes(kit, order, now, vs)
  {
    forall i | 0 <= i < |vs| ensures SourcesOk(kit, now, vs[i]) { RunInv(kit, order, now, vs, i); }
  }

  // ---------- The merge ----------

  lemma {:induction false} DueGrows(g: Generator, now: nat, m: nat, n: nat)
    requires m <= n
    ensures Due(g, now, m) <= Due(g, now, n)
  {
    if m < n { DueGrows(g, now, m, n - 1); }
  }

  /** After any number of rounds what was sent is the merge of all sources' own schedules, sorted by time and key, up
      to the first event still pending: slot `n` of `s` was sent exactly if it comes before every pending event, and
      it was sent at the time its own source's delays put it, whatever the other sources did. */
  lemma SendsTheMerge(kit: Kit, order: seq<NodeId>, now: nat, vs: seq<Sched>, i: nat, s: NodeId, n: nat)
    requires Runs(kit, order, now, vs) && i < |vs|
    requires s in kit && Wanted(kit[s], n)
    ensures var v := vs[i];
            && (forall r :: r in v.pending ==> r in v.progress)
            && LogSorted(v.log)
            && (Logged(v.log, Slot(Due(kit[s], now, n), s, n)) <==>
                  forall r :: r in v.pending ==> Earlier(Slot(Due(kit[s], now, n), s, n), Next(v, r)))
  {
    RunInv(kit, order, now, vs, i);
    var v := vs[i];
    assert SourceOk(kit, now, v, s);
    var slot := Slot(Due(kit[s], now, n), s, n);
    if Logged(v.log, slot) {
      var j :| 0 <= j < |v.log| && v.log[j].slot == slot;
      forall r | r in v.pending ensures Earlier(slot, Next(v, r)) {
        assert Earlier(v.log[j].slot, Next(v, r));
      }
    } else {
      assert n >= v.progress[s].completed;
      DueGrows(kit[s], now, v.progress[s].completed, n);
      assert s in v.pending;
      assert !Earlier(slot, Next(v, s));
    }
  }

  /** Nothing else is sent: every payment sent is one its source wants, at the time it is due. */
  lemma SendsNothingElse(kit: Kit, order: seq<NodeId>, now: nat, vs: seq<Sched>, i: nat, j: nat)
    requires Runs(kit, order, now, vs) && i < |vs| && j < |vs[i].log|
    ensures var slot := vs[i].log[j].slot;
            && slot.source in kit && Wanted(kit[slot.source], slot.nth)
            && slot.time == Due(kit[slot.source], now, slot.nth)
  {
    RunInv(kit, order, now, vs, i);
    var v := vs[i];
    var slot := v.log[j].slot;
    assert Logged(v.log, slot);
    assert SourceOk(kit, now, v, slot.source);
  }

  // ---------- The start delay ----------

  /** The waits before payments 1 to `n`. */
  function Intervals(g: Generator, n: nat): nat {
    if n == 0 then 0 else Intervals(g, n - 1) + g.wait(n)
  }

  lemma {:induction false} DueByIntervals(g: Generator, now: nat, n: nat)
    ensures Due(g, now, n) == now + (if g.start.Some? then g.start.value else g.wait(0)) + Intervals(g, n)
  {
    if n == 0 {
    } else {
      DueByIntervals(g, now, n - 1);
    }
  }

  /** Without zero amounts the start delay applies once: in every run the first payment of a source is sent after it,
      or after a wait if there is none, and each later payment one wait after the payment before. */
  lemma StartDelayOnce(kit: Kit, order: seq<NodeId>, now: nat, vs: seq<Sched>, i: nat, j: nat)
    requires Runs(kit, order, now, vs) && i < |vs| && j < |vs[i].log|
    ensures var slot := vs[i].log[j].slot;
            && slot.source in kit
            && var g := kit[slot.source];
               slot.time == now + (if g.start.Some? then g.start.value else g.wait(0)) + Intervals(g, slot.nth)
  {
    SendsNothingElse(kit, order, now, vs, i, j);
    var slot := vs[i].log[j].slot;
    DueByIntervals(kit[slot.source], now, slot.nth);
  }

  /** A sorted log is determined by the slots in it. */
  lemma {:induction false} SortedLogUnique(a: seq<Sent>, b: seq<Sent>)
    requires LogSorted(a) && LogSorted(b)
    requires forall slot :: Logged(a, slot) <==> Logged(b, slot)
    ensures |a| == |b| && forall i :: 0 <= i < |a| ==> a[i].slot == b[i].slot
  {
    if a == [] {
      if b != [] { assert Logged(b, b[0].slot); }
    } else {
      assert Logged(a, a[|a| - 1].slot);
      var j :| 0 <= j < |b| && b[j].slot == a[|a| - 1].slot;
      assert Logged(b, b[|b| - 1].slot);
      var k :| 0 <= k < |a| && a[k].slot == b[|b| - 1].slot;
      assert j == |b| - 1 && k == |a| - 1;
      var a', b' := a[..|a| - 1], b[..|b| - 1];
      forall slot ensures Logged(a', slot) <==> Logged(b', slot) {
        LoggedBefore(a, slot);
        LoggedBefore(b, slot);
      }
      SortedLogUnique(a', b');
    }
  }

  lemma LoggedBefore(log: seq<Sent>, slot: Slot)
    requires log != [] && LogSorted(log)
    ensures Logged(log[..|log| - 1], slot) <==> Logged(log, slot) && slot != log[|log| - 1].slot
  {
    var init := log[..|log| - 1];
    if Logged(log, slot) && slot != log[|log| - 1].slot {
      var i :| 0 <= i < |log| && log[i].slot == slot;
      assert init[i].slot == slot;
    }
    if Logged(init, slot) {
      var i :| 0 <= i < |init| && init[i].slot == slot;
      assert log[i].slot == slot;
    }
  }

  // ---------- Counting rounds ----------

  /** Every source has a count. */
  predicate AllCounted(kit: Kit) {
    forall s :: s in kit ==> kit[s].count.Some?
  }

  /** How many rounds source `s` still takes: one for each payment to come, and one to find its count met. */
  function RoundsLeft(kit: Kit, v: Sched, s: NodeId): nat {
    if && s in v.pending && s in kit && s in v.progress && kit[s].count.Some?
       && v.progress[s].completed <= kit[s].count.value
    then kit[s].count.value - v.progress[s].completed + 1
    else 0
  }

  function Rounds(kit: Kit, s: NodeId): nat {
    if s in kit && kit[s].count.Some? then kit[s].count.value + 1 else 0
  }

  function AllRoundsLeft(kit: Kit, order: seq<NodeId>, v: Sched): seq<nat> {
    seq(|order|, i requires 0 <= i < |order| => RoundsLeft(kit, v, order[i]))
  }

  function SumRoundsLeft(kit: Kit, order: seq<NodeId>, v: Sched): nat {
    Sum(AllRoundsLeft(kit, order, v))
  }

  /** Count + 1 for each source. */
  function AllRounds(kit: Kit, order: seq<NodeId>): seq<nat> {
    seq(|order|, i requires 0 <= i < |order| => Rounds(kit, order[i]))
  }

  /** A round leaves source `r` as it is. */
  predicate Leaves(v: Sched, v': Sched, r: NodeId) {
    && (r in v'.pending <==> r in v.pending) && (r in v.pending ==> v'.pending[r] == v.pending[r])
    && (r in v'.progress <==> r in v.progress) && (r in v.progress ==> v'.progress[r] == v.progress[r])
  }

  lemma PopLeaves(kit: Kit, now: nat, v: Sched, s: NodeId, r: NodeId)
    requires NonZero(kit) && s in kit && SourceOk(kit, now, v, s) && s in v.pending && r != s
    ensures Leaves(v, RoundAt(kit, v, s), r)
  {
    if !CountMet(kit, v, s) { SendEffect(kit, now, v, s); }
  }

  /** What becomes of the source that is popped. */
  ghost predicate Popped(kit: Kit, v: Sched, v': Sched, s: NodeId) {
    && s in kit && s in v.progress && IsFront(v.pending, s)
    && if CountMet(kit, v, s) then s !in v'.pending
       else && s in v'.pending && s in v'.progress
            && v'.progress[s].completed == v.progress[s].completed + 1
            && v'.pending[s].time == v.pending[s].time + kit[s].wait(v.progress[s].completed + 1)
  }

  lemma PopOf(kit: Kit, now: nat, v: Sched, s: NodeId)
    requires NonZero(kit) && s in kit && SourceOk(kit, now, v, s) && IsFront(v.pending, s)
    ensures Popped(kit, v, RoundAt(kit, v, s), s)
  {
    if !CountMet(kit, v, s) { SendEffect(kit, now, v, s); }
  }

  /** A round pops one source and leaves every other as it is. */
  lemma RoundPops(kit: Kit, now: nat, v: Sched, v': Sched) returns (s: NodeId)
    requires NonZero(kit) && SourcesOk(kit, now, v) && Round(kit, v, v')
    ensures Popped(kit, v, v', s) && v' == RoundAt(kit, v, s)
    ensures forall r :: r != s ==> Leaves(v, v', r)
  {
    s :| IsFront(v.pending, s) && s in kit && s in v.progress && v' == RoundAt(kit, v, s);
    assert SourceOk(kit, now, v, s);
    PopOf(kit, now, v, s);
    forall r | r != s ensures Leaves(v, v', r) { PopLeaves(kit, now, v, s, r); }
  }

  lemma PopCounts(kit: Kit, now: nat, v: Sched, s: NodeId)
    requires NonZero(kit) && AllCounted(kit) && s in kit && SourceOk(kit, now, v, s) && s in v.pending
    ensures RoundsLeft(kit, RoundAt(kit, v, s), s) == RoundsLeft(kit, v, s) - 1
  {
    if !CountMet(kit, v, s) { SendEffect(kit, now, v, s); }
  }

  lemma RoundCounts(kit: Kit, order: seq<NodeId>, now: nat, v: Sched, v': Sched)
    requires NonZero(kit) && Lists(order, kit) && AllCounted(kit) && SourcesOk(kit, now, v) && Round(kit, v, v')
    ensures SumRoundsLeft(kit, order, v') == SumRoundsLeft(kit, order, v) - 1
  {
    var s := RoundPops(kit, now, v, v');
    assert SourceOk(kit, now, v, s);
    PopCounts(kit, now, v, s);
    var k :| 0 <= k < |order| && order[k] == s;
    RoundsLeftElsewhere(kit, order, v, v', k);
    SumDiffersAt(AllRoundsLeft(kit, order, v), AllRoundsLeft(kit, order, v'), k);
  }

  lemma RoundsLeftElsewhere(kit: Kit, order: seq<NodeId>, v: Sched, v': Sched, k: nat)
    requires k < |order| && forall i, j :: 0 <= i < j < |order| ==> order[i] != order[j]
    requires forall r :: r != order[k] ==> Leaves(v, v', r)
    ensures forall i :: 0 <= i < |order| && i != k ==>
              AllRoundsLeft(kit, order, v')[i] == AllRoundsLeft(kit, order, v)[i]
  {
    forall i | 0 <= i < |order| && i != k ensures RoundsLeft(kit, v', order[i]) == RoundsLeft(kit, v, order[i]) {
      assert Leaves(v, v', order[i]);
    }
  }

  lemma SetupCounts(kit: Kit, order: seq<NodeId>, now: nat)
    requires NonZero(kit) && Lists(order, kit) && AllCounted(kit)
    ensures AllRoundsLeft(kit, order, Setup(kit, order, now)) == AllRounds(kit, order)
  {
    var v := Setup(kit, order, now);
    forall i | 0 <= i < |order| ensures RoundsLeft(kit, v, order[i]) == Rounds(kit, order[i]) {
      SetupGives(kit, order, now, i);
    }
  }

  /** Each round uses up one of the sum of count + 1. */
  lemma {:induction false} RoundsUsed(kit: Kit, order: seq<NodeId>, now: nat, vs: seq<Sched>, i: nat)
    requires Goes(kit, order, now, vs) && AllCounted(kit) && i < |vs|
    ensures SumRoundsLeft(kit, order, vs[i]) == SumRoundsLeft(kit, order, vs[0]) - i
  {
    if i == 0 {
    } else {
      RoundsUsed(kit, order, now, vs, i - 1);
      StepUsesRound(kit, order, now, vs, i);
    }
  }

  lemma StepUsesRound(kit: Kit, order: seq<NodeId>, now: nat, vs: seq<Sched>, j: nat)
    requires Goes(kit, order, now, vs) && AllCounted(kit) && 0 < j < |vs|
    ensures SumRoundsLeft(kit, order, vs[j]) == SumRoundsLeft(kit, order, vs[j - 1]) - 1
  {
    StepOfRun(kit, vs, j);
    assert SourcesOk(kit, now, vs[j - 1]);
    RoundCounts(kit, order, now, vs[j - 1], vs[j]);
  }

  /** With a count for every source no run is longer than the sum of count + 1 rounds; the queue is empty after
      exactly that many; no source ever exceeds its count, and when the queue is empty each has sent exactly its
      count. */
  lemma EndsAfterAllRounds(kit: Kit, order: seq<NodeId>, now: nat, vs: seq<Sched>, i: nat, s: NodeId)
    requires Runs(kit, order, now, vs) && AllCounted(kit) && i < |vs| && s in kit
    ensures i <= Sum(AllRounds(kit, order))
    ensures vs[i].pending == map[] <==> i == Sum(AllRounds(kit, order))
    ensures s in vs[i].progress && vs[i].progress[s].completed <= kit[s].count.value
    ensures vs[i].pending == map[] ==> vs[i].progress[s].completed == kit[s].count.value
  {
    RunGoes(kit, order, now, vs);
    SetupCounts(kit, order, now);
    RoundsUsed(kit, order, now, vs, i);
    assert SourcesOk(kit, now, vs[i]);
    QueueEmptyWhenDone(kit, order, now, vs[i]);
    assert SourceOk(kit, now, vs[i], s);
  }

  lemma QueueEmptyWhenDone(kit: Kit, order: seq<NodeId>, now: nat, v: Sched)
    requires NonZero(kit) && Lists(order, kit) && SourcesOk(kit, now, v) && AllCounted(kit)
    ensures v.pending == map[] <==> SumRoundsLeft(kit, order, v) == 0
  {
    var left := AllRoundsLeft(kit, order, v);
    SumZero(left);
    forall r | r in v.pending ensures exists j :: 0 <= j < |left| && left[j] > 0 {
      assert SourceOk(kit, now, v, r);
      var j :| 0 <= j < |order| && order[j] == r;
      assert left[j] > 0;
    }
  }

  /** The loop never gets stuck: while events are pending one of them is first, so that a round can follow. */
  lemma {:induction false} FrontExists(pending: map<NodeId, Event>)
    requires pending != map[] && forall s :: s in pending ==> pending[s].source == s
    ensures exists s :: IsFront(pending, s)
    decreases |pending|
  {
    var s :| s in pending;
    var rest := pending - {s};
    assert pending == rest[s := pending[s]];
    if rest == map[] {
      assert IsFront(pending, s);
    } else {
      FrontExists(rest);
      var r :| IsFront(rest, r);
      if Before(pending[s], pending[r]) {
        assert IsFront(pending, s);
      } else {
        assert IsFront(pending, r);
      }
    }
  }

  // ---------- When the loop ends ----------

  /** The time of the last payment sent. */
  function LastSent(v: Sched, now: nat): nat {
    if v.log == [] then now else v.log[|v.log| - 1].slot.time
  }

  lemma PopMovesClock(kit: Kit, now: nat, v: Sched, s: NodeId)
    requires NonZero(kit) && s in kit && SourceOk(kit, now, v, s) && s in v.pending && v.clock == LastSent(v, now)
    ensures RoundAt(kit, v, s).clock == LastSent(RoundAt(kit, v, s), now)
  {
    if !CountMet(kit, v, s) { SendEffect(kit, now, v, s); }
  }

  lemma RoundMovesClock(kit: Kit, now: nat, v: Sched, v': Sched)
    requires NonZero(kit) && SourcesOk(kit, now, v) && Round(kit, v, v') && v.clock == LastSent(v, now)
    ensures v'.clock == LastSent(v', now)
  {
    var s :| IsFront(v.pending, s) && s in kit && s in v.progress && v' == RoundAt(kit, v, s);
    PopMovesClock(kit, now, v, s);
  }

  lemma StepMovesClock(kit: Kit, order: seq<NodeId>, now: nat, vs: seq<Sched>, j: nat)
    requires Goes(kit, order, now, vs) && 0 < j < |vs| && vs[j - 1].clock == LastSent(vs[j - 1], now)
    ensures vs[j].clock == LastSent(vs[j], now)
  {
    StepOfRun(kit, vs, j);
    assert SourcesOk(kit, now, vs[j - 1]);
    RoundMovesClock(kit, now, vs[j - 1], vs[j]);
  }

  lemma {:induction false} ClockGoes(kit: Kit, order: seq<NodeId>, now: nat, vs: seq<Sched>, i: nat)
    requires Goes(kit, order, now, vs) && i < |vs| && vs[0].clock == LastSent(vs[0], now)
    ensures vs[i].clock == LastSent(vs[i], now)
  {
    if i == 0 {
    } else {
      ClockGoes(kit, order, now, vs, i - 1);
      StepMovesClock(kit, order, now, vs, i);
    }
  }

  /** The clock only moves to send. In particular the rounds that find counts met take no time, and a loop that runs
      out of events ends, and with it the simulation, at the very time of its last payment. */
  lemma ClockAtLastSent(kit: Kit, order: seq<NodeId>, now: nat, vs: seq<Sched>, i: nat)
    requires Runs(kit, order, now, vs) && i < |vs|
    ensures vs[i].clock == LastSent(vs[i], now)
  {
    RunGoes(kit, order, now, vs);
    SetupKeys(kit, order, now);
    ClockGoes(kit, order, now, vs, i);
  }

  // ---------- Bounded waiting ----------

  /** Every wait is at least a second. */
  ghost predicate WaitsPass(kit: Kit) {
    forall s, n :: s in kit ==> kit[s].wait(n) >= 1
  }

  /** How often source `s` can still be popped for an event that is due by time `t`. */
  function PopsDue(v: Sched, t: nat, s: NodeId): nat {
    if s in v.pending && v.pending[s].time <= t then t - v.pending[s].time + 1 else 0
  }

  function AllPopsDue(order: seq<NodeId>, v: Sched, t: nat): seq<nat> {
    seq(|order|, i requires 0 <= i < |order| => PopsDue(v, t, order[i]))
  }

  function DueSum(order: seq<NodeId>, v: Sched, t: nat): nat {
    Sum(AllPopsDue(order, v, t))
  }

  /** While an event due at `t` is pending, each round uses up one of the pops that may come before it. */
  lemma RoundUsesPop(kit: Kit, order: seq<NodeId>, now: nat, v: Sched, v': Sched, r: NodeId, t: nat)
    requires NonZero(kit) && Lists(order, kit) && WaitsPass(kit) && SourcesOk(kit, now, v) && Round(kit, v, v')
    requires r in v.pending && v.pending[r].time == t
    ensures DueSum(order, v', t) < DueSum(order, v, t)
  {
    var s := RoundPops(kit, now, v, v');
    assert v.pending[s].time <= t;
    var k :| 0 <= k < |order| && order[k] == s;
    PopsDueElsewhere(order, v, v', t, k);
    SumDiffersAt(AllPopsDue(order, v, t), AllPopsDue(order, v', t), k);
    PopUsesOne(kit, v, v', s, t);
  }

  lemma PopUsesOne(kit: Kit, v: Sched, v': Sched, s: NodeId, t: nat)
    requires WaitsPass(kit) && Popped(kit, v, v', s) && v.pending[s].time <= t
    ensures PopsDue(v', t, s) < PopsDue(v, t, s)
  {
  }

  lemma PopsDueElsewhere(order: seq<NodeId>, v: Sched, v': Sched, t: nat, k: nat)
    requires k < |order| && forall i, j :: 0 <= i < j < |order| ==> order[i] != order[j]
    requires forall r :: r != order[k] ==> Leaves(v, v', r)
    ensures forall i :: 0 <= i < |order| && i != k ==> AllPopsDue(order, v', t)[i] == AllPopsDue(order, v, t)[i]
  {
    forall i | 0 <= i < |order| && i != k ensures PopsDue(v', t, order[i]) == PopsDue(v, t, order[i]) {
      assert Leaves(v, v', order[i]);
    }
  }

  /** The event of source `r` stays pending from state `i` through state `i + m`. */
  predicate StaysPending(vs: seq<Sched>, i: nat, m: nat, r: NodeId) {
    && i + m < |vs| && r in vs[i].pending
    && forall j :: i <= j <= i + m ==> r in vs[j].pending && vs[j].pending[r] == vs[i].pending[r]
  }

  /** What falls by one at each place falls by `m` over `m` places. */
  lemma {:induction false} Descends(xs: seq<nat>, m: nat)
    requires m < |xs| && forall j :: 0 <= j < m ==> xs[j + 1] < xs[j]
    ensures xs[m] + m <= xs[0]
  {
    if m == 0 {
    } else {
      Descends(xs, m - 1);
      assert xs[m - 1 + 1] < xs[m - 1];
    }
  }

  lemma StepUsesPop(kit: Kit, order: seq<NodeId>, now: nat, vs: seq<Sched>, j: nat, r: NodeId, t: nat)
    requires Goes(kit, order, now, vs) && WaitsPass(kit) && 0 < j < |vs|
    requires r in vs[j - 1].pending && vs[j - 1].pending[r].time == t
    ensures DueSum(order, vs[j], t) < DueSum(order, vs[j - 1], t)
  {
    StepOfRun(kit, vs, j);
    assert SourcesOk(kit, now, vs[j - 1]);
    RoundUsesPop(kit, order, now, vs[j - 1], vs[j], r, t);
  }

  lemma {:induction false} PopsRunOut(kit: Kit, order: seq<NodeId>, now: nat, vs: seq<Sched>,
                                      i: nat, m: nat, r: NodeId, t: nat)
    requires Goes(kit, order, now, vs) && WaitsPass(kit) && StaysPending(vs, i, m, r) && vs[i].pending[r].time == t
    ensures DueSum(order, vs[i + m], t) + m <= DueSum(order, vs[i], t)
  {
    if m == 0 {
    } else {
      assert StaysPending(vs, i, m - 1, r);
      PopsRunOut(kit, order, now, vs, i, m - 1, r, t);
      StepUsesPop(kit, order, now, vs, i + m, r, t);
    }
  }

  /** No source starves. With `n` sources, an event due at time `t` that is pending when the clock shows `c` stays
      pending for fewer than `n * (t - c + 1)` further rounds. */
  lemma BoundedWaiting(kit: Kit, order: seq<NodeId>, now: nat, vs: seq<Sched>, i: nat, m: nat, r: NodeId)
    requires Runs(kit, order, now, vs) && WaitsPass(kit) && StaysPending(vs, i, m, r)
    ensures vs[i].pending[r].time >= vs[i].clock
    ensures m < WaitBound(|order|, vs[i].pending[r].time, vs[i].clock)
  {
    RunGoes(kit, order, now, vs);
    PopsRunOut(kit, order, now, vs, i, m, r, vs[i].pending[r].time);
    assert SourcesOk(kit, now, vs[i]);
    PopsBounded(kit, order, now, vs[i], r);
    var k: nat :| k < |order| && order[k] == r;
    StillDue(order, vs[i + m], vs[i].pending[r].time, k);
  }

  /** `n * (t - c + 1)`. */
  function WaitBound(n: nat, t: nat, c: nat): nat
    requires c <= t
  {
    n * (t - c + 1)
  }

  /** No event is due before the clock, so each source has at most so many pops. */
  lemma PopsOfOne(kit: Kit, now: nat, v: Sched, t: nat, s: NodeId)
    requires s in kit && SourceOk(kit, now, v, s) && v.clock <= t
    ensures PopsDue(v, t, s) <= t - v.clock + 1
  {
  }

  lemma AllPopsBounded(kit: Kit, order: seq<NodeId>, now: nat, v: Sched, t: nat)
    requires SourcesOk(kit, now, v) && v.clock <= t && forall i :: 0 <= i < |order| ==> order[i] in kit
    ensures forall k :: 0 <= k < |order| ==> AllPopsDue(order, v, t)[k] <= t - v.clock + 1
  {
    forall k | 0 <= k < |order| ensures AllPopsDue(order, v, t)[k] <= t - v.clock + 1 {
      PopsOfOne(kit, now, v, t, order[k]);
    }
  }

  lemma DueSumBounded(order: seq<NodeId>, v: Sched, t: nat)
    requires v.clock <= t && forall k :: 0 <= k < |order| ==> AllPopsDue(order, v, t)[k] <= t - v.clock + 1
    ensures DueSum(order, v, t) <= WaitBound(|order|, t, v.clock)
  {
    SumBounded(AllPopsDue(order, v, t), t - v.clock + 1);
  }

  lemma PopsBounded(kit: Kit, order: seq<NodeId>, now: nat, v: Sched, r: NodeId)
    requires Lists(order, kit) && SourcesOk(kit, now, v) && r in v.pending
    ensures r in order && v.clock <= v.pending[r].time
    ensures DueSum(order, v, v.pending[r].time) <= WaitBound(|order|, v.pending[r].time, v.clock)
  {
    assert SourceOk(kit, now, v, r);
    AllPopsBounded(kit, order, now, v, v.pending[r].time);
    DueSumBounded(order, v, v.pending[r].time);
  }

  /** An event due at `t` counts for at least one pop. */
  lemma StillDue(order: seq<NodeId>, v: Sched, t: nat, k: nat)
    requires k < |order| && order[k] in v.pending && v.pending[order[k]].time == t
    ensures DueSum(order, v, t) > 0
  {
    SumZero(AllPopsDue(order, v, t));
    assert AllPopsDue(order, v, t)[k] > 0;
  }
}

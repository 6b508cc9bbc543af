/** With distinct sources the heap is a map from sources to events, and the loop is the scheduler of `Schedule`. */
module HeapRefinement {
  import opened Types
  import opened Ordering
  import opened Schedule
  import opened ScheduleProofs
  import opened ScheduleTheorems
  import opened Reproducible
  import opened Sums
  import H = HeapSchedule

  /** A heap with one event for each source, as a map. */
  function PendingOf(heap: seq<Event>): (m: map<NodeId, Event>)
    ensures forall s :: s in m ==> m[s].source == s
  {
    if heap == [] then map[] else PendingOf(heap[..|heap| - 1])[heap[|heap| - 1].source := heap[|heap| - 1]]
  }

  function View(v: H.Loop): Sched {
    Sched(PendingOf(v.heap), v.progress, v.clock, v.drawn, v.log)
  }

  function Views(vs: seq<H.Loop>): seq<Sched> {
    seq(|vs|, i requires 0 <= i < |vs| => View(vs[i]))
  }

  // ---------- The heap as a map ----------

  lemma {:induction false} PendingAt(heap: seq<Event>, i: nat)
    requires H.DistinctSources(heap) && i < |heap|
    ensures heap[i].source in PendingOf(heap) && PendingOf(heap)[heap[i].source] == heap[i]
  {
    if i == |heap| - 1 {
    } else {
      PendingAt(heap[..|heap| - 1], i);
    }
  }

  lemma {:induction false} PendingFrom(heap: seq<Event>, s: NodeId) returns (i: nat)
    requires s in PendingOf(heap)
    ensures i < |heap| && heap[i].source == s
  {
    if s == heap[|heap| - 1].source {
      i := |heap| - 1;
    } else {
      i := PendingFrom(heap[..|heap| - 1], s);
    }
  }

  lemma {:induction false} WithoutPending(heap: seq<Event>, k: nat)
    requires H.DistinctSources(heap) && k < |heap|
    ensures PendingOf(H.Without(heap, k)) == PendingOf(heap) - {heap[k].source}
    decreases |heap|
  {
    var init, last := heap[..|heap| - 1], heap[|heap| - 1];
    if k == |heap| - 1 {
      assert H.Without(heap, k) == init;
      if last.source in PendingOf(init) {
        var i := PendingFrom(init, last.source);
        assert false;
      }
      assert PendingOf(heap) - {last.source} == PendingOf(init);
    } else {
      WithoutPending(init, k);
      assert H.Without(heap, k) == H.Without(init, k) + [last];
      assert H.Without(heap, k)[..|heap| - 2] == H.Without(init, k);
      assert PendingOf(heap) - {heap[k].source} == (PendingOf(init) - {heap[k].source})[last.source := last];
    }
  }

  /** The least event is the front. */
  lemma LeastIsFront(heap: seq<Event>, k: nat)
    requires H.DistinctSources(heap) && H.Least(heap, k)
    ensures IsFront(PendingOf(heap), heap[k].source) && PendingOf(heap)[heap[k].source] == heap[k]
  {
    var pending, s := PendingOf(heap), heap[k].source;
    PendingAt(heap, k);
    forall r | r in pending && r != s ensures Before(pending[s], pending[r]) {
      var j := PendingFrom(heap, r);
      PendingAt(heap, j);
      assert !Before(heap[j], heap[k]);
    }
  }

  // ---------- One turn ----------

  lemma PushRefines(v: H.Loop, s: NodeId, from: nat)
    requires s in v.kit && s in v.progress
    ensures View(H.Push(v, s, from)) == Generate(v.kit, View(v), s, from)
  {
    var w := H.Push(v, s, from);
    assert w.heap[..|w.heap| - 1] == v.heap;
  }

  /** A payment counted although a shutdown comes before it is sent. */
  function Interrupted(v: Sched, s: NodeId): Sched
    requires s in v.progress
  {
    v.(pending := v.pending - {s},
       progress := v.progress[s := Progress(v.progress[s].completed + 1, v.progress[s].generated)])
  }

  /** The source whose event is first has payments left to send but is no known node. */
  ghost predicate Unknown(kit: Kit, v: Sched, nodes: set<NodeId>, s: NodeId) {
    IsFront(v.pending, s) && s in kit && s in v.progress && !CountMet(kit, v, s) && s !in nodes
  }

  /** From when on the next event of `s` is counted if its event is popped now. */
  function BaseTime(v: Sched, s: NodeId): nat
    requires s in v.pending
  {
    if v.pending[s].amount == 0 || v.pending[s].time <= v.clock then v.clock else v.pending[s].time
  }

  /** The event of `s` is first, and the one to replace it cannot be generated. */
  ghost predicate Fails(kit: Kit, v: Sched, s: NodeId) {
    && IsFront(v.pending, s) && s in kit && s in v.progress && !CountMet(kit, v, s)
    && !kit[s].works(v.progress[s].generated, BaseTime(v, s), kit[s].pick(v.drawn).0)
  }

  function Failing(v: Sched, s: NodeId): Sched
    requires s in v.pending && s in v.progress
  {
    if v.pending[s].amount == 0 then v.(pending := v.pending - {s})
    else Interrupted(v, s).(clock := BaseTime(v, s))
  }

  /** How a turn, or the loop, can end. */
  ghost predicate Ended(kit: Kit, v: Sched, v': Sched, nodes: set<NodeId>, verdict: H.Verdict) {
    match verdict
    case Continue => false
    case NoMoreEvents => v.pending == map[] && v' == v
    case SourceNotFound(s) => Unknown(kit, v, nodes, s) && v' == v.(pending := v.pending - {s})
    case GenerationFailed(s) => Fails(kit, v, s) && v' == Failing(v, s)
    case Shutdown => v' == v || exists s :: IsFront(v.pending, s) && s in v.progress && v' == Interrupted(v, s)
  }

  /** `popped` is `v` without the event `e`. */
  predicate PoppedFrom(v: Sched, popped: H.Loop, e: Event) {
    && e.source in popped.kit && e.source in popped.progress
    && e.source in v.pending && v.pending[e.source] == e && View(popped) == v.(pending := v.pending - {e.source})
  }

  lemma RetryRefines(v: Sched, popped: H.Loop, e: Event)
    requires PoppedFrom(v, popped, e) && !CountMet(popped.kit, v, e.source) && e.amount == 0
    ensures View(H.Push(popped, e.source, popped.clock)) == RoundAt(popped.kit, v, e.source)
  {
    PushRefines(popped, e.source, popped.clock);
  }

  lemma WaitedRefines(v: Sched, popped: H.Loop, e: Event)
    requires PoppedFrom(v, popped, e)
    ensures View(H.Waited(popped, e)) == Interrupted(v, e.source).(clock := H.SendTime(popped, e))
  {
  }

  lemma SendRefines(v: Sched, popped: H.Loop, e: Event)
    requires PoppedFrom(v, popped, e) && !CountMet(popped.kit, v, e.source) && e.amount != 0
    ensures View(H.Dispatched(popped, e)) == RoundAt(popped.kit, v, e.source)
  {
    var s, now := e.source, H.SendTime(popped, e);
    WaitedRefines(v, popped, e);
    PushRefines(H.Waited(popped, e), s, now);
    DispatchedPushes(popped, e);
    assert RoundAt(popped.kit, v, s)
        == Generate(popped.kit, Interrupted(v, s).(clock := now), s, now)
           .(log := v.log + [Sent(Slot(now, s, v.progress[s].completed), e.destination, e.amount)]);
  }

  lemma DispatchedPushes(popped: H.Loop, e: Event)
    requires e.source in popped.kit && e.source in popped.progress
    ensures var now := H.SendTime(popped, e);
            View(H.Dispatched(popped, e))
            == View(H.Push(H.Waited(popped, e), e.source, now))
               .(log := popped.log
                        + [Sent(Slot(now, e.source, popped.progress[e.source].completed), e.destination, e.amount)])
  {
  }

  /** What is done with an event that was popped from `v`, leaving `popped`. */
  lemma HandledRefines(v: Sched, popped: H.Loop, nodes: set<NodeId>, asleep: bool, e: Event)
    requires PoppedFrom(v, popped, e) && H.Handled(popped, nodes, asleep, e).1 == H.Continue
    ensures View(H.Handled(popped, nodes, asleep, e).0) == RoundAt(popped.kit, v, e.source)
  {
    if CountMet(popped.kit, v, e.source) {
    } else if e.amount == 0 {
      RetryRefines(v, popped, e);
    } else {
      SendRefines(v, popped, e);
    }
  }

  lemma ContinueRefines(v: H.Loop, v': H.Loop, nodes: set<NodeId>, asleep: bool, k: nat)
    requires H.Sound(v) && H.DistinctSources(v.heap) && H.Least(v.heap, k)
    requires (v', H.Continue) == H.HandledAt(v, nodes, asleep, k)
    ensures Round(v.kit, View(v), View(v'))
  {
    LeastIsFront(v.heap, k);
    WithoutPending(v.heap, k);
    HandledRefines(View(v), v.(heap := H.Without(v.heap, k)), nodes, asleep, v.heap[k]);
  }

  lemma EndRefines(v: H.Loop, v': H.Loop, nodes: set<NodeId>, asleep: bool, k: nat, verdict: H.Verdict)
    requires H.Sound(v) && H.DistinctSources(v.heap) && H.Least(v.heap, k) && verdict != H.Continue
    requires (v', verdict) == H.HandledAt(v, nodes, asleep, k)
    ensures Ended(v.kit, View(v), View(v'), nodes, verdict)
  {
    LeastIsFront(v.heap, k);
    WithoutPending(v.heap, k);
  }

  /** With distinct sources a turn is a round of the scheduler, or one of the ends of the loop. */
  lemma TurnRefines(v: H.Loop, v': H.Loop, nodes: set<NodeId>, asleep: bool, verdict: H.Verdict)
    requires H.Turn(v, v', nodes, asleep, verdict) && H.DistinctSources(v.heap)
    ensures if verdict == H.Continue then Round(v.kit, View(v), View(v'))
            else Ended(v.kit, View(v), View(v'), nodes, verdict)
  {
    if v.heap != [] {
      var k: nat :| H.Least(v.heap, k) && (v', verdict) == H.HandledAt(v, nodes, asleep, k);
      if verdict == H.Continue {
        ContinueRefines(v, v', nodes, asleep, k);
      } else {
        EndRefines(v, v', nodes, asleep, k, verdict);
      }
    }
  }

  // ---------- Whole runs ----------

  /** Setting up looks only at the generators of the sources listed. */
  lemma {:induction false} SetupLocal(kit: Kit, other: Kit, order: seq<NodeId>, now: nat)
    requires forall i :: 0 <= i < |order| ==> order[i] in kit && order[i] in other && kit[order[i]] == other[order[i]]
    ensures Setup(kit, order, now) == Setup(other, order, now)
  {
    if order == [] {
    } else {
      SetupLocal(kit, other, order[..|order| - 1], now);
    }
  }

  lemma InKit(xs: Executors)
    ensures forall i :: 0 <= i < |Keys(xs)| ==> Keys(xs)[i] in KitOf(xs)
  {
    KitHolds(xs);
    assert forall i :: 0 <= i < |Keys(xs)| ==> Keys(xs)[i] in Keys(xs);
  }

  /** The generators of all but the last executor are what they were before it. */
  lemma KitOfInit(xs: Executors)
    requires xs != [] && DistinctKeys(xs)
    ensures forall i :: 0 <= i < |xs| - 1 ==>
              && Keys(xs)[i] in KitOf(xs) && Keys(xs)[i] in KitOf(xs[..|xs| - 1])
              && KitOf(xs)[Keys(xs)[i]] == KitOf(xs[..|xs| - 1])[Keys(xs)[i]]
  {
    var init := xs[..|xs| - 1];
    KitHolds(xs);
    KitHolds(init);
    forall i | 0 <= i < |init|
      ensures && Keys(xs)[i] in KitOf(xs) && Keys(xs)[i] in KitOf(init)
              && KitOf(xs)[Keys(xs)[i]] == KitOf(init)[Keys(xs)[i]] {
      assert init[i] == xs[i] && Keys(xs)[i] == xs[i].key;
    }
  }

  lemma RegisterRefines(v: H.Loop, s: NodeId, g: Generator)
    ensures View(H.Register(v, s, g)) == WithSource(View(v), s)
  {
  }

  /** Setting up all but the last executor gives the same with the generators of the whole list. */
  lemma SetupOfInit(xs: Executors, init: Executors, now: nat)
    requires xs != [] && DistinctKeys(xs) && init == xs[..|xs| - 1]
    ensures forall i :: 0 <= i < |Keys(xs)| ==> Keys(xs)[i] in KitOf(xs)
    ensures forall i :: 0 <= i < |Keys(init)| ==> Keys(init)[i] in KitOf(init)
    ensures Setup(KitOf(xs), Keys(xs)[..|xs| - 1], now) == Setup(KitOf(init), Keys(init), now)
  {
    InKit(xs);
    InKit(init);
    KitOfInit(xs);
    assert Keys(xs)[..|xs| - 1] == Keys(init);
    SetupLocal(KitOf(init), KitOf(xs), Keys(init), now);
  }

  lemma {:induction false} SetUpRefines(xs: Executors, now: nat)
    requires DistinctKeys(xs)
    ensures forall i :: 0 <= i < |Keys(xs)| ==> Keys(xs)[i] in KitOf(xs)
    ensures View(H.SetUp(xs, now)) == Setup(KitOf(xs), Keys(xs), now)
  {
    InKit(xs);
    if xs == [] {
    } else {
      SetUpRefines(xs[..|xs| - 1], now);
      SetupOfInit(xs, xs[..|xs| - 1], now);
      SetUpLast(xs, now);
    }
  }

  lemma SetUpLast(xs: Executors, now: nat)
    requires xs != []
    ensures var init, x := xs[..|xs| - 1], xs[|xs| - 1];
            && x.key in KitOf(xs)
            && View(H.SetUp(xs, now)) == Generate(KitOf(xs), WithSource(View(H.SetUp(init, now)), x.key), x.key, now)
  {
    var init, x := xs[..|xs| - 1], xs[|xs| - 1];
    H.SetUpSound(init, now);
    RegisterRefines(H.SetUp(init, now), x.key, x.value);
    PushRefines(H.Register(H.SetUp(init, now), x.key, x.value), x.key, now);
  }

  /** With distinct sources the states of the loop, seen as schedules, are a run. */
  lemma LoopRefines(executors: Executors, now: nat, nodes: set<NodeId>, vs: seq<H.Loop>)
    requires DistinctKeys(executors) && H.IsLoop(nodes, vs) && vs[0] == H.SetUp(SortByKey(executors), now)
    ensures RunOf(executors, now, Views(vs))
  {
    StartRefines(executors, now);
    LoopIsRun(nodes, vs);
  }

  lemma LoopIsRun(nodes: set<NodeId>, vs: seq<H.Loop>)
    requires H.IsLoop(nodes, vs) && H.DistinctSources(vs[0].heap)
    ensures IsRun(vs[0].kit, Views(vs))
  {
    forall i, j | 0 <= i < j < |vs| && j == i + 1 ensures Round(vs[0].kit, Views(vs)[i], Views(vs)[j]) {
      LoopStepRefines(nodes, vs, i);
    }
  }

  lemma StartRefines(executors: Executors, now: nat)
    requires DistinctKeys(executors)
    ensures var v := H.SetUp(SortByKey(executors), now);
            v.kit == KitOf(SortByKey(executors)) && H.DistinctSources(v.heap) && View(v) == StartOf(executors, now)
  {
    H.SortedDistinctIff(executors);
    SetUpRefines(SortByKey(executors), now);
    H.SetUpHeap(SortByKey(executors), now);
    H.SetUpSound(SortByKey(executors), now);
    H.SameDistinct(H.SetUp(SortByKey(executors), now).heap, SortByKey(executors));
  }

  lemma LoopStepRefines(nodes: set<NodeId>, vs: seq<H.Loop>, i: nat)
    requires H.IsLoop(nodes, vs) && H.DistinctSources(vs[0].heap) && i + 1 < |vs|
    ensures Round(vs[0].kit, View(vs[i]), View(vs[i + 1]))
  {
    H.LoopKeepsDistinct(nodes, vs, i);
    var j := i + 1;
    assert H.Turn(vs[i], vs[j], nodes, false, H.Continue);
    TurnRefines(vs[i], vs[j], nodes, false, H.Continue);
  }

  // ---------- The end of the loop ----------

  /** The log is the whole merge: sorted by time and key, it holds every payment that any source wants, at the time it
      is due, and nothing else. */
  ghost predicate FullMerge(kit: Kit, now: nat, log: seq<Sent>) {
    && LogSorted(log)
    && forall slot :: Logged(log, slot) <==>
         && slot.source in kit && Wanted(kit[slot.source], slot.nth)
         && slot.time == Due(kit[slot.source], now, slot.nth)
  }

  /** When the event after the first `n` of a source is generated, if all goes by its own delays. */
  function Generated(g: Generator, now: nat, n: nat): nat {
    if n == 0 then now else Due(g, now, n - 1)
  }

  /** Every source has a count and is a node, no amount is ever zero, and the events it needs can be generated. */
  ghost predicate Finite(kit: Kit, now: nat, nodes: set<NodeId>) {
    && NonZero(kit) && AllCounted(kit) && (forall s :: s in kit ==> s in nodes)
    && forall s, n: nat, d :: s in kit && kit[s].count.Some? && n <= kit[s].count.value ==>
         kit[s].works(n, Generated(kit[s], now, n), d)
  }

  lemma FiniteSetsUp(xs: Executors, now: nat, nodes: set<NodeId>)
    requires DistinctKeys(xs) && Finite(KitOf(xs), now, nodes)
    ensures H.SetUpWorks(xs, now)
  {
    for n := 0 to |xs|
      invariant H.WorksUpTo(xs, now, n)
    {
      FiniteEntry(xs, now, nodes, n);
    }
  }

  lemma FiniteEntry(xs: Executors, now: nat, nodes: set<NodeId>, i: nat)
    requires DistinctKeys(xs) && Finite(KitOf(xs), now, nodes) && i < |xs|
    ensures H.EntryWorks(xs, now, i)
  {
    KitHolds(xs);
    var g := xs[i].value;
    assert xs[i].key in KitOf(xs) && KitOf(xs)[xs[i].key] == g && g.count.Some?;
    assert Generated(g, now, 0) == now;
  }

  lemma WholeRun(kit: Kit, order: seq<NodeId>, now: nat, vs: seq<Sched>, nodes: set<NodeId>, rounds: nat, v': Sched,
                 verdict: H.Verdict)
    requires Finite(kit, now, nodes) && Runs(kit, order, now, vs) && rounds > Sum(AllRounds(kit, order))
    requires Ended(kit, vs[|vs| - 1], v', nodes, verdict) && (verdict == H.Shutdown ==> |vs| - 1 >= rounds)
    ensures verdict == H.NoMoreEvents && |vs| == Sum(AllRounds(kit, order)) + 1
    ensures FullMerge(kit, now, vs[|vs| - 1].log)
  {
    RunEnds(kit, order, now, vs, |vs| - 1);
    RunGoes(kit, order, now, vs);
    assert SourcesOk(kit, now, vs[|vs| - 1]);
    NothingFails(kit, now, vs[|vs| - 1], nodes);
    NoUnknown(kit, vs[|vs| - 1], v', nodes, verdict);
    RunIsFull(kit, order, now, vs);
  }

  lemma NothingFails(kit: Kit, now: nat, v: Sched, nodes: set<NodeId>)
    requires Finite(kit, now, nodes) && SourcesOk(kit, now, v)
    ensures forall s :: !Fails(kit, v, s)
  {
    forall s ensures !Fails(kit, v, s) {
      if s in kit { NeverFails(kit, now, v, nodes, s); }
    }
  }

  /** The next event of a source in good order is counted from when its last payment was due. */
  lemma NeverFails(kit: Kit, now: nat, v: Sched, nodes: set<NodeId>, s: NodeId)
    requires Finite(kit, now, nodes) && s in kit && SourceOk(kit, now, v, s)
    ensures !Fails(kit, v, s)
  {
    if s in v.pending && !CountMet(kit, v, s) {
      var n := v.progress[s].completed + 1;
      assert BaseTime(v, s) == Generated(kit[s], now, n);
    }
  }

  lemma NoUnknown(kit: Kit, v: Sched, v': Sched, nodes: set<NodeId>, verdict: H.Verdict)
    requires Ended(kit, v, v', nodes, verdict) && verdict != H.Shutdown
    requires (forall s :: s in kit ==> s in nodes) && forall s :: !Fails(kit, v, s)
    ensures verdict == H.NoMoreEvents && v.pending == map[]
  {
  }

  lemma RunIsFull(kit: Kit, order: seq<NodeId>, now: nat, vs: seq<Sched>)
    requires Runs(kit, order, now, vs) && AllCounted(kit) && vs[|vs| - 1].pending == map[]
    ensures FullMerge(kit, now, vs[|vs| - 1].log)
  {
    RunInv(kit, order, now, vs, |vs| - 1);
    EmptyMeansFull(kit, now, vs[|vs| - 1]);
  }

  lemma RunEnds(kit: Kit, order: seq<NodeId>, now: nat, vs: seq<Sched>, i: nat)
    requires Runs(kit, order, now, vs) && AllCounted(kit) && i < |vs|
    ensures i <= Sum(AllRounds(kit, order))
    ensures vs[i].pending == map[] <==> i == Sum(AllRounds(kit, order))
  {
    RunGoes(kit, order, now, vs);
    SetupCounts(kit, order, now);
    RoundsUsed(kit, order, now, vs, i);
    assert SourcesOk(kit, now, vs[i]);
    QueueEmptyWhenDone(kit, order, now, vs[i]);
  }

  /** When nothing is pending any more every source has met its count, so that the log is complete. */
  lemma EmptyMeansFull(kit: Kit, now: nat, v: Sched)
    requires Inv(kit, now, v) && AllCounted(kit) && v.pending == map[]
    ensures FullMerge(kit, now, v.log)
  {
    forall s | s in kit ensures s in v.progress && v.progress[s].completed == kit[s].count.value {
      assert SourceOk(kit, now, v, s);
    }
  }
}

/** The event loop as the program runs it: a heap, a tracker map and a clock that are updated in place. Every method is
    proved against the values of `HeapSchedule`, for any list of executors. */
module EventLoop {
  import opened Types
  import opened Ordering
  import opened Schedule
  import opened ScheduleTheorems
  import opened Sums
  import opened Draws
  import opened Reproducible
  import opened HeapSchedule
  import opened HeapRefinement

  class PaymentEvents {
    var heap: seq<Event>
    /** The trackers: the generator of each source, and how far it has come. */
    var kit: Kit
    var progress: map<NodeId, Progress>
    var clock: nat
    var drawn: nat
    var log: seq<Sent>

    /** The loop as a value. */
    ghost function State(): Loop
      reads this
    {
      Loop(heap, kit, progress, clock, drawn, log)
    }

    ghost predicate Valid()
      reads this
    {
      Sound(State())
    }

    /** No executor yet. */
    constructor (now: nat)
      ensures Valid() && State() == SetUp([], now)
    {
      heap, kit, progress, clock, drawn, log := [], map[], map[], now, 0, [];
    }

    /** `setup_payment_events`: sorts the executors and generates one event for each, unless one cannot be generated. */
    method SetUpEvents(executors: Executors) returns (verdict: Verdict)
      requires State() == SetUp([], clock)
      modifies this`heap, this`kit, this`progress, this`drawn
      ensures Valid()
      ensures verdict == Continue <==> SetUpWorks(SortByKey(executors), clock)
      ensures verdict == Continue ==> State() == SetUp(SortByKey(executors), clock)
      ensures verdict != Continue ==> verdict.GenerationFailed? && log == []
    {
      verdict := AddSources(SortByKey(executors));
    }

    /** The loop over the sorted executors. */
    method AddSources(sorted: Executors) returns (verdict: Verdict)
      requires State() == SetUp([], clock)
      modifies this`heap, this`kit, this`progress, this`drawn
      ensures Valid() && log == []
      ensures verdict == Continue ==> SetUpWorks(sorted, clock) && State() == SetUp(sorted, clock)
      ensures verdict != Continue ==> !SetUpWorks(sorted, clock) && verdict.GenerationFailed?
    {
      for i := 0 to |sorted|
        invariant Valid() && State() == SetUp(sorted[..i], clock) && log == []
        invariant WorksUpTo(sorted, clock, i)
      {
        SetUpSnoc(sorted, clock, i);
        verdict := AddSource(sorted[i].key, sorted[i].value);
        if verdict != Continue {
          OneFails(sorted, clock, i);
          return;
        }
      }
      assert sorted[..|sorted|] == sorted;
      verdict := Continue;
    }

    /** One executor: a fresh tracker and a first event. */
    method AddSource(source: NodeId, g: Generator) returns (verdict: Verdict)
      requires Valid()
      modifies this`heap, this`kit, this`progress, this`drawn
      ensures Valid()
      ensures verdict == (if Generates(Register(old(State()), source, g), source, clock) then Continue
                          else GenerationFailed(source))
      ensures State() == if verdict == Continue then Push(Register(old(State()), source, g), source, clock)
                         else Register(old(State()), source, g)
    {
      kit := kit[source := g];
      progress := progress[source := Progress(0, 0)];
      verdict := GeneratePayment(source, clock);
    }

    /** `generate_payment`: pushes the next event of a source, unless the source is unknown or the event cannot be
        generated. */
    method GeneratePayment(source: NodeId, from: nat) returns (verdict: Verdict)
      requires Valid()
      modifies this`heap, this`progress, this`drawn
      ensures Valid()
      ensures verdict == if source !in old(progress) then SourceNotFound(source)
                         else if Generates(old(State()), source, from) then Continue else GenerationFailed(source)
      ensures State() == if verdict == Continue then Push(old(State()), source, from) else old(State())
    {
      if source !in progress { return SourceNotFound(source); }
      PushSound(State(), source, from);
      var g, p := kit[source], progress[source];
      var wait := PaymentDelay(g, p.completed, p.generated);
      var (destination, position) := g.pick(drawn);
      if !g.works(p.generated, from, destination) { return GenerationFailed(source); }
      var event := Event(from + wait, source, destination, g.amount(p.generated, destination));
      drawn := position;
      progress := progress[source := Progress(p.completed, p.generated + 1)];
      heap := heap + [event];
      return Continue;
    }

    /** `get_payment_delay`. */
    static method PaymentDelay(g: Generator, completed: nat, generated: nat) returns (wait: nat)
      ensures wait == Delay(g, completed, generated)
    {
      if completed != 0 { return g.wait(generated); }
      match g.start {
        case Some(start) => return start;
        case None => return g.wait(generated);
      }
    }

    /** Where an event is that no other is before. */
    method LeastIndex() returns (k: nat)
      requires heap != []
      ensures Least(heap, k)
    {
      k := 0;
      for i := 1 to |heap|
        invariant k < |heap| && forall j :: 0 <= j < i ==> !Before(heap[j], heap[k])
      {
        if Before(heap[i], heap[k]) { k := i; }
      }
    }

    /** `heap.pop()`: removes a least event, the one that was at `k`. */
    method Pop() returns (event: Option<Event>, ghost k: nat)
      requires Valid()
      modifies this`heap
      ensures Valid()
      ensures event == None <==> old(heap) == []
      ensures event == None ==> State() == old(State())
      ensures event.Some? ==> event.value.source in progress && Least(old(heap), k) && event.value == old(heap)[k]
      ensures event.Some? ==> State() == old(State()).(heap := Without(old(heap), k))
    {
      if |heap| == 0 { return None, 0; }
      var least := LeastIndex();
      k := least;
      event := Some(heap[least]);
      WithoutSound(State(), k);
      heap := Without(heap, least);
    }

    /** One turn of `produce_payment_events`; `asleep` tells that a shutdown comes should this turn sleep. */
    method TakeTurn(nodes: set<NodeId>, asleep: bool) returns (verdict: Verdict)
      requires Valid()
      modifies this
      ensures Valid()
      ensures Turn(old(State()), State(), nodes, asleep, verdict)
    {
      ghost var before := State();
      ghost var k: nat;
      var event;
      event, k := Pop();
      match event {
        case None => return NoMoreEvents;
        case Some(e) =>
          verdict := HandleEvent(nodes, asleep, e);
          assert (State(), verdict) == HandledAt(before, nodes, asleep, k);
      }
    }

    /** What is done with an event that was popped. */
    method HandleEvent(nodes: set<NodeId>, asleep: bool, e: Event) returns (verdict: Verdict)
      requires Valid() && e.source in progress
      modifies this
      ensures Valid()
      ensures (State(), verdict) == Handled(old(State()), nodes, asleep, e)
    {
      HandledSound(State(), nodes, asleep, e);
      var source, p := e.source, progress[e.source];
      var wait := if e.time > clock then e.time - clock else 0;
      if kit[source].count == Some(p.completed) { return Continue; }
      if source !in nodes { return SourceNotFound(source); }
      if e.amount == 0 {
        verdict := GeneratePayment(source, clock);
        return;
      }
      progress := progress[source := Progress(p.completed + 1, p.generated)];
      if asleep { return Shutdown; }
      clock := clock + wait;
      verdict := GeneratePayment(source, clock);
      if verdict == Continue {
        log := log + [Sent(Slot(clock, source, p.completed), e.destination, e.amount)];
      }
    }

    /** The whole loop, until nothing is pending, a source is no known node, an event cannot be generated, or the
        listener reports a shutdown: after `rounds` turns, before the next one or, if `asleep`, during its sleep. `vs`
        are the states gone through. */
    method Produce(nodes: set<NodeId>, rounds: nat, asleep: bool) returns (verdict: Verdict, ghost vs: seq<Loop>)
      requires Valid()
      modifies this
      ensures Valid()
      ensures IsLoop(nodes, vs) && vs[0] == old(State())
      ensures Closes(vs[|vs| - 1], State(), nodes, verdict)
      ensures verdict == Shutdown ==> |vs| - 1 >= rounds
    {
      vs := [State()];
      for i := 0 to rounds
        invariant Valid() && |vs| == i + 1 && IsLoop(nodes, vs) && vs[0] == old(State()) && vs[i] == State()
      {
        verdict := TakeTurn(nodes, false);
        if verdict != Continue { return; }
        LoopExtends(nodes, vs, State());
        vs := vs + [State()];
      }
      if asleep {
        verdict := TakeTurn(nodes, true);
        if verdict != Continue { return; }
        AwakeTurn(vs[rounds], State(), nodes);
        LoopExtends(nodes, vs, State());
        vs := vs + [State()];
      }
      verdict := Shutdown;
    }
  }

  /** How the loop comes to its end from its last state. */
  ghost predicate Closes(v: Loop, v': Loop, nodes: set<NodeId>, verdict: Verdict) {
    && verdict != Continue
    && ((exists asleep :: Turn(v, v', nodes, asleep, verdict)) || (verdict == Shutdown && v' == v))
  }

  lemma LoopExtends(nodes: set<NodeId>, vs: seq<Loop>, v: Loop)
    requires IsLoop(nodes, vs) && Turn(vs[|vs| - 1], v, nodes, false, Continue)
    ensures IsLoop(nodes, vs + [v])
  {
    var ws := vs + [v];
    forall i, j | 0 <= i < j < |ws| && j == i + 1 ensures Turn(ws[i], ws[j], nodes, false, Continue) {
      if j < |vs| { assert Turn(vs[i], vs[j], nodes, false, Continue); }
    }
  }

  /** A turn that goes on has not slept. */
  lemma AwakeTurn(v: Loop, v': Loop, nodes: set<NodeId>)
    requires Turn(v, v', nodes, true, Continue)
    ensures Turn(v, v', nodes, false, Continue)
  {
    var k: nat :| Least(v.heap, k) && (v', Continue) == HandledAt(v, nodes, true, k);
    assert (v', Continue) == HandledAt(v, nodes, false, k);
  }

  lemma ClosingRefines(v: Loop, v': Loop, nodes: set<NodeId>, verdict: Verdict)
    requires DistinctSources(v.heap) && Closes(v, v', nodes, verdict)
    ensures Ended(v.kit, View(v), View(v'), nodes, verdict)
  {
    if !(verdict == Shutdown && v' == v) {
      var asleep :| Turn(v, v', nodes, asleep, verdict);
      TurnRefines(v, v', nodes, asleep, verdict);
    }
  }

  /** Ending adds nothing to the log. */
  lemma ClosingSends(v: Loop, v': Loop, nodes: set<NodeId>, verdict: Verdict)
    requires Closes(v, v', nodes, verdict)
    ensures v'.log == v.log
  {
  }

  /** `setup_payment_events` followed by the loop, if no event failed to be generated. `last` is the state that it
      ends in. */
  method SetUpAndProduce(executors: Executors, now: nat, nodes: set<NodeId>, rounds: nat, asleep: bool)
    returns (log: seq<Sent>, verdict: Verdict, ghost vs: seq<Loop>, ghost last: Loop)
    ensures if SetUpWorks(SortByKey(executors), now)
            then IsLoop(nodes, vs) && vs[0] == SetUp(SortByKey(executors), now) && log == vs[|vs| - 1].log
            else verdict.GenerationFailed? && log == []
    ensures SetUpWorks(SortByKey(executors), now) ==>
              Closes(vs[|vs| - 1], last, nodes, verdict) && (verdict == Shutdown ==> |vs| - 1 >= rounds)
  {
    var events := new PaymentEvents(now);
    verdict := events.SetUpEvents(executors);
    if verdict != Continue { return [], verdict, [], events.State(); }
    verdict, vs := events.Produce(nodes, rounds, asleep);
    log, last := events.log, events.State();
    ClosingSends(vs[|vs| - 1], last, nodes, verdict);
  }

  /** `setup_payment_events` followed by the loop, if no event failed to be generated. With distinct sources it is a run
      in the sense of `Schedule`. When moreover every source is a node, has a count and never draws a zero amount, the
      events needed can be generated, and nobody shuts the loop down before that, it ends by itself, after count + 1
      turns for each source, and has sent the whole merge of the sources' schedules. Without zero amounts each payment
      sent, then or before, has the destination and the amount that the order of the draws gives it. */
  method ProducePaymentEvents(executors: Executors, now: nat, nodes: set<NodeId>, rounds: nat, asleep: bool)
    returns (log: seq<Sent>, verdict: Verdict, ghost vs: seq<Loop>)
    ensures if SetUpWorks(SortByKey(executors), now)
            then IsLoop(nodes, vs) && vs[0] == SetUp(SortByKey(executors), now) && log == vs[|vs| - 1].log
            else verdict.GenerationFailed? && log == []
    ensures SetUpWorks(SortByKey(executors), now) && DistinctKeys(executors) ==> RunOf(executors, now, Views(vs))
    ensures var kit, order := KitOf(SortByKey(executors)), Keys(SortByKey(executors));
            SetUpWorks(SortByKey(executors), now) && DistinctKeys(executors) && NonZero(kit) ==>
              DrawnInOrder(kit, order, now, log, vs[|vs| - 1].drawn)
    ensures var kit, order := KitOf(SortByKey(executors)), Keys(SortByKey(executors));
            DistinctKeys(executors) && Finite(kit, now, nodes) && rounds > Sum(AllRounds(kit, order)) ==>
              verdict == NoMoreEvents && FullMerge(kit, now, log)
    ensures var kit, order := KitOf(SortByKey(executors)), Keys(SortByKey(executors));
            DistinctKeys(executors) && Finite(kit, now, nodes) && rounds > Sum(AllRounds(kit, order)) ==>
              |vs| == Sum(AllRounds(kit, order)) + 1
  {
    FiniteSetsUpSorted(executors, now, nodes);
    ghost var last;
    log, verdict, vs, last := SetUpAndProduce(executors, now, nodes, rounds, asleep);
    if SetUpWorks(SortByKey(executors), now) {
      Conclude(executors, now, nodes, rounds, vs, last, verdict);
    }
  }

  lemma LoopDraws(executors: Executors, now: nat, nodes: set<NodeId>, vs: seq<Loop>)
    requires IsLoop(nodes, vs) && vs[0] == SetUp(SortByKey(executors), now)
    ensures DistinctKeys(executors) && NonZero(KitOf(SortByKey(executors))) ==>
              DrawnInOrder(KitOf(SortByKey(executors)), Keys(SortByKey(executors)), now,
                           vs[|vs| - 1].log, vs[|vs| - 1].drawn)
  {
    if DistinctKeys(executors) && NonZero(KitOf(SortByKey(executors))) {
      LoopRuns(executors, now, nodes, vs);
      ViewsDraw(KitOf(SortByKey(executors)), Keys(SortByKey(executors)), now, vs);
    }
  }

  lemma ViewsDraw(kit: Kit, order: seq<NodeId>, now: nat, vs: seq<Loop>)
    requires vs != [] && Runs(kit, order, now, Views(vs))
    ensures DrawnInOrder(kit, order, now, vs[|vs| - 1].log, vs[|vs| - 1].drawn)
  {
    assert Views(vs)[|vs| - 1] == View(vs[|vs| - 1]);
    MergeIsDrawn(kit, order, now, Views(vs), |vs| - 1);
  }

  lemma FiniteSetsUpSorted(executors: Executors, now: nat, nodes: set<NodeId>)
    ensures DistinctKeys(executors) && Finite(KitOf(SortByKey(executors)), now, nodes) ==>
              SetUpWorks(SortByKey(executors), now)
  {
    if DistinctKeys(executors) && Finite(KitOf(SortByKey(executors)), now, nodes) {
      SortedDistinctIff(executors);
      FiniteSetsUp(SortByKey(executors), now, nodes);
    }
  }

  lemma Conclude(executors: Executors, now: nat, nodes: set<NodeId>, rounds: nat, vs: seq<Loop>, v': Loop,
                 verdict: Verdict)
    requires IsLoop(nodes, vs) && vs[0] == SetUp(SortByKey(executors), now)
    requires Closes(vs[|vs| - 1], v', nodes, verdict) && (verdict == Shutdown ==> |vs| - 1 >= rounds)
    ensures DistinctKeys(executors) ==> RunOf(executors, now, Views(vs))
    ensures var kit, order := KitOf(SortByKey(executors)), Keys(SortByKey(executors));
            DistinctKeys(executors) && NonZero(kit) ==>
              DrawnInOrder(kit, order, now, vs[|vs| - 1].log, vs[|vs| - 1].drawn)
    ensures var kit, order := KitOf(SortByKey(executors)), Keys(SortByKey(executors));
            DistinctKeys(executors) && Finite(kit, now, nodes) && rounds > Sum(AllRounds(kit, order)) ==>
              && verdict == NoMoreEvents && FullMerge(kit, now, vs[|vs| - 1].log)
              && |vs| == Sum(AllRounds(kit, order)) + 1
  {
    LoopDraws(executors, now, nodes, vs);
    if DistinctKeys(executors) {
      LoopRefines(executors, now, nodes, vs);
      var kit, order := KitOf(SortByKey(executors)), Keys(SortByKey(executors));
      if Finite(kit, now, nodes) && rounds > Sum(AllRounds(kit, order)) {
        WholeLoop(executors, now, nodes, rounds, vs, v', verdict);
      }
    }
  }

  lemma WholeLoop(executors: Executors, now: nat, nodes: set<NodeId>, rounds: nat, vs: seq<Loop>, v': Loop,
                  verdict: Verdict)
    requires DistinctKeys(executors) && IsLoop(nodes, vs) && vs[0] == SetUp(SortByKey(executors), now)
    requires Finite(KitOf(SortByKey(executors)), now, nodes)
    requires rounds > Sum(AllRounds(KitOf(SortByKey(executors)), Keys(SortByKey(executors))))
    requires Closes(vs[|vs| - 1], v', nodes, verdict) && (verdict == Shutdown ==> |vs| - 1 >= rounds)
    ensures verdict == NoMoreEvents
    ensures |vs| == Sum(AllRounds(KitOf(SortByKey(executors)), Keys(SortByKey(executors)))) + 1
    ensures FullMerge(KitOf(SortByKey(executors)), now, vs[|vs| - 1].log)
  {
    LoopRuns(executors, now, nodes, vs);
    LastEnds(executors, now, nodes, vs, v', verdict);
    WholeViews(KitOf(SortByKey(executors)), Keys(SortByKey(executors)), now, vs, nodes, rounds, v', verdict);
  }

  lemma WholeViews(kit: Kit, order: seq<NodeId>, now: nat, vs: seq<Loop>, nodes: set<NodeId>, rounds: nat, v': Loop,
                   verdict: Verdict)
    requires vs != [] && Finite(kit, now, nodes) && Runs(kit, order, now, Views(vs))
    requires rounds > Sum(AllRounds(kit, order))
    requires Ended(kit, View(vs[|vs| - 1]), View(v'), nodes, verdict) && (verdict == Shutdown ==> |vs| - 1 >= rounds)
    ensures verdict == NoMoreEvents && |vs| == Sum(AllRounds(kit, order)) + 1
    ensures FullMerge(kit, now, vs[|vs| - 1].log)
  {
    assert Views(vs)[|vs| - 1] == View(vs[|vs| - 1]);
    WholeRun(kit, order, now, Views(vs), nodes, rounds, View(v'), verdict);
  }

  lemma LoopRuns(executors: Executors, now: nat, nodes: set<NodeId>, vs: seq<Loop>)
    requires DistinctKeys(executors) && IsLoop(nodes, vs) && vs[0] == SetUp(SortByKey(executors), now)
    requires NonZero(KitOf(SortByKey(executors)))
    ensures Runs(KitOf(SortByKey(executors)), Keys(SortByKey(executors)), now, Views(vs))
  {
    LoopRefines(executors, now, nodes, vs);
    ExecutorsRun(executors, now, Views(vs));
  }

  lemma LastEnds(executors: Executors, now: nat, nodes: set<NodeId>, vs: seq<Loop>, v': Loop, verdict: Verdict)
    requires DistinctKeys(executors) && IsLoop(nodes, vs) && vs[0] == SetUp(SortByKey(executors), now)
    requires Closes(vs[|vs| - 1], v', nodes, verdict)
    ensures Ended(KitOf(SortByKey(executors)), View(vs[|vs| - 1]), View(v'), nodes, verdict)
  {
    StartRefines(executors, now);
    LoopKeepsDistinct(nodes, vs, |vs| - 1);
    ClosingRefines(vs[|vs| - 1], v', nodes, verdict);
  }
}

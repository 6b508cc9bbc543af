/** The scheduler with its heap as it is, for any list of executors, and why with distinct sources it is the scheduler
    of `Schedule`. */
module HeapSchedule {
  import opened Types
  import opened Ordering
  import opened Schedule
  import opened Reproducible

  /** How a turn of the loop, or the whole loop, came out. */
  datatype Verdict =
    | Continue
    | NoMoreEvents
    | SourceNotFound(source: NodeId)
    | GenerationFailed(source: NodeId)
    | Shutdown

  /** The heap in no particular order, the trackers (an executor's generator and its progress), the clock, the position
      in the shared stream, and what was sent. */
  datatype Loop = Loop(
    heap: seq<Event>,
    kit: Kit,
    progress: map<NodeId, Progress>,
    clock: nat,
    drawn: nat,
    log: seq<Sent>)

  /** Every event in the heap has a tracker. */
  predicate Sound(v: Loop) {
    && (forall i :: 0 <= i < |v.heap| ==> v.heap[i].source in v.progress)
    && v.progress.Keys == v.kit.Keys
  }

  // ---------- What the loop does ----------

  /** The next event of `s` can be generated. */
  predicate Generates(v: Loop, s: NodeId, from: nat)
    requires s in v.kit && s in v.progress
  {
    v.kit[s].works(v.progress[s].generated, from, v.kit[s].pick(v.drawn).0)
  }

  /** `generate_payment`, when it does not fail. */
  function Push(v: Loop, s: NodeId, from: nat): Loop
    requires s in v.kit && s in v.progress
  {
    var g, p := v.kit[s], v.progress[s];
    var (destination, drawn) := g.pick(v.drawn);
    var event := Event(from + Delay(g, p.completed, p.generated), s, destination, g.amount(p.generated, destination));
    v.(heap := v.heap + [event], progress := v.progress[s := Progress(p.completed, p.generated + 1)], drawn := drawn)
  }

  /** A tracker is inserted; one that the source had is overwritten. */
  function Register(v: Loop, s: NodeId, g: Generator): Loop {
    v.(kit := v.kit[s := g], progress := v.progress[s := Progress(0, 0)])
  }

  /** Setting up the executors one after the other. */
  function SetUp(xs: Executors, now: nat): Loop {
    if xs == [] then Loop([], map[], map[], now, 0, [])
    else
      var x := xs[|xs| - 1];
      Push(Register(SetUp(xs[..|xs| - 1], now), x.key, x.value), x.key, now)
  }

  /** Before the event of entry `i` is generated. */
  function SettingUp(xs: Executors, now: nat, i: nat): Loop
    requires i < |xs|
  {
    Register(SetUp(xs[..i], now), xs[i].key, xs[i].value)
  }

  predicate EntryWorks(xs: Executors, now: nat, i: nat)
    requires i < |xs|
  {
    Generates(SettingUp(xs, now, i), xs[i].key, now)
  }

  /** No event of the first `n` entries fails to be generated. */
  predicate WorksUpTo(xs: Executors, now: nat, n: nat)
    requires n <= |xs|
  {
    n == 0 || (WorksUpTo(xs, now, n - 1) && EntryWorks(xs, now, n - 1))
  }

  predicate SetUpWorks(xs: Executors, now: nat) {
    WorksUpTo(xs, now, |xs|)
  }

  lemma {:induction false} WorksBefore(xs: Executors, now: nat, m: nat, n: nat)
    requires m <= n <= |xs| && WorksUpTo(xs, now, n)
    ensures WorksUpTo(xs, now, m)
  {
    if m == n {
    } else {
      WorksBefore(xs, now, m, n - 1);
    }
  }

  lemma OneFails(xs: Executors, now: nat, i: nat)
    requires i < |xs| && !EntryWorks(xs, now, i)
    ensures !SetUpWorks(xs, now)
  {
    if SetUpWorks(xs, now) {
      WorksBefore(xs, now, i + 1, |xs|);
    }
  }

  lemma SetUpSnoc(xs: Executors, now: nat, i: nat)
    requires i < |xs|
    ensures SetUp(xs[..i + 1], now) == Push(SettingUp(xs, now, i), xs[i].key, now)
  {
    assert xs[..i + 1][..i] == xs[..i];
  }

  /** No event of the heap is before the one at `k`. */
  predicate Least(heap: seq<Event>, k: nat) {
    k < |heap| && forall j :: 0 <= j < |heap| ==> !Before(heap[j], heap[k])
  }

  function Without(heap: seq<Event>, k: nat): seq<Event>
    requires k < |heap|
  {
    heap[..k] + heap[k + 1..]
  }

  function Counted(v: Loop, s: NodeId): Loop
    requires s in v.progress
  {
    v.(progress := v.progress[s := Progress(v.progress[s].completed + 1, v.progress[s].generated)])
  }

  /** When a payment is sent: when it is due, but not in the past. */
  function SendTime(v: Loop, e: Event): nat {
    if e.time > v.clock then e.time else v.clock
  }

  /** A payment counted and waited for. */
  function Waited(v: Loop, e: Event): Loop
    requires e.source in v.progress
  {
    Counted(v, e.source).(clock := SendTime(v, e))
  }

  /** Then it is replaced and sent. */
  function Dispatched(v: Loop, e: Event): Loop
    requires e.source in v.kit && e.source in v.progress
  {
    var next := Push(Waited(v, e), e.source, SendTime(v, e));
    var slot := Slot(SendTime(v, e), e.source, v.progress[e.source].completed);
    next.(log := v.log + [Sent(slot, e.destination, e.amount)])
  }

  /** What happens to an event that was popped: nothing when the count is met, an error when its source is no known
      node, a new event at once when it has no amount. Otherwise it is a payment to sleep for; `asleep` tells that a
      shutdown comes during that sleep. A new event may fail to be generated, which is an error too. */
  function Handled(v: Loop, nodes: set<NodeId>, asleep: bool, e: Event): (Loop, Verdict)
    requires e.source in v.kit && e.source in v.progress
  {
    if v.kit[e.source].count == Some(v.progress[e.source].completed) then (v, Continue)
    else if e.source !in nodes then (v, SourceNotFound(e.source))
    else if e.amount == 0 then
      if Generates(v, e.source, v.clock) then (Push(v, e.source, v.clock), Continue)
      else (v, GenerationFailed(e.source))
    else if asleep then (Counted(v, e.source), Shutdown)
    else if Generates(Waited(v, e), e.source, SendTime(v, e)) then (Dispatched(v, e), Continue)
    else (Waited(v, e), GenerationFailed(e.source))
  }

  function HandledAt(v: Loop, nodes: set<NodeId>, asleep: bool, k: nat): (Loop, Verdict)
    requires Sound(v) && k < |v.heap|
  {
    Handled(v.(heap := Without(v.heap, k)), nodes, asleep, v.heap[k])
  }

  /** One turn. Of several least events, which only a repeated source can have, the heap may pop any. */
  ghost predicate Turn(v: Loop, v': Loop, nodes: set<NodeId>, asleep: bool, verdict: Verdict) {
    && Sound(v)
    && if v.heap == [] then v' == v && verdict == NoMoreEvents
       else exists k :: Least(v.heap, k) && (v', verdict) == HandledAt(v, nodes, asleep, k)
  }

  /** The states that the loop passes through, one turn after the other. */
  ghost predicate IsLoop(nodes: set<NodeId>, vs: seq<Loop>) {
    && |vs| > 0
    && forall i, j {:trigger Turn(vs[i], vs[j], nodes, false, Continue)} :: 0 <= i < j < |vs| && j == i + 1 ==>
         Turn(vs[i], vs[j], nodes, false, Continue)
  }

  // ---------- Soundness ----------

  lemma PushSound(v: Loop, s: NodeId, from: nat)
    requires Sound(v) && s in v.kit
    ensures Sound(Push(v, s, from))
  {
  }

  lemma WithoutFrom(heap: seq<Event>, k: nat)
    requires k < |heap|
    ensures forall i :: 0 <= i < |Without(heap, k)| ==> Without(heap, k)[i] == heap[if i < k then i else i + 1]
  {
  }

  lemma WithoutSound(v: Loop, k: nat)
    requires Sound(v) && k < |v.heap|
    ensures Sound(v.(heap := Without(v.heap, k)))
  {
    WithoutFrom(v.heap, k);
  }

  lemma HandledSound(v: Loop, nodes: set<NodeId>, asleep: bool, e: Event)
    requires Sound(v) && e.source in v.kit
    ensures Sound(Handled(v, nodes, asleep, e).0) && Handled(v, nodes, asleep, e).0.kit == v.kit
  {
  }

  // ---------- A shutdown during the sleep ----------

  /** The event at `k` can be popped, and it is a payment that the loop has to sleep for. */
  predicate Payable(v: Loop, nodes: set<NodeId>, k: nat) {
    && Sound(v) && Least(v.heap, k)
    && var e := v.heap[k];
       && v.kit[e.source].count != Some(v.progress[e.source].completed)
       && e.source in nodes && e.amount > 0
  }

  /** In a turn during whose sleep the simulation is shut down nothing is sent and no time passes; and it ends the loop
      exactly if the event popped is a payment. */
  lemma AsleepSendsNothing(v: Loop, v': Loop, nodes: set<NodeId>, verdict: Verdict)
    requires Turn(v, v', nodes, true, verdict)
    ensures v'.log == v.log && v'.clock == v.clock
    ensures verdict == Shutdown ==> exists k :: 0 <= k < |v.heap| && Payable(v, nodes, k)
    ensures (forall k :: 0 <= k < |v.heap| && Least(v.heap, k) ==> Payable(v, nodes, k)) && v.heap != [] ==>
              verdict == Shutdown
  {
    if v.heap != [] {
      var k: nat :| Least(v.heap, k) && (v', verdict) == HandledAt(v, nodes, true, k);
      assert verdict == Shutdown ==> Payable(v, nodes, k);
    }
  }

  // ---------- At most one event for each source ----------

  predicate DistinctSources(heap: seq<Event>) {
    forall i, j :: 0 <= i < j < |heap| ==> heap[i].source != heap[j].source
  }

  /** The heap holds no event of `s`. */
  predicate Absent(heap: seq<Event>, s: NodeId) {
    forall i :: 0 <= i < |heap| ==> heap[i].source != s
  }

  lemma WithoutDistinct(heap: seq<Event>, k: nat)
    requires DistinctSources(heap) && k < |heap|
    ensures DistinctSources(Without(heap, k)) && Absent(Without(heap, k), heap[k].source)
  {
    WithoutFrom(heap, k);
  }

  lemma HandledDistinct(v: Loop, nodes: set<NodeId>, asleep: bool, e: Event)
    requires e.source in v.kit && e.source in v.progress
    requires DistinctSources(v.heap) && Absent(v.heap, e.source)
    ensures DistinctSources(Handled(v, nodes, asleep, e).0.heap)
  {
  }

  lemma TurnKeepsDistinct(v: Loop, v': Loop, nodes: set<NodeId>, asleep: bool, verdict: Verdict)
    requires Turn(v, v', nodes, asleep, verdict) && DistinctSources(v.heap)
    ensures DistinctSources(v'.heap) && v'.kit == v.kit
  {
    if v.heap != [] {
      var k: nat :| Least(v.heap, k) && (v', verdict) == HandledAt(v, nodes, asleep, k);
      WithoutDistinct(v.heap, k);
      WithoutSound(v, k);
      HandledDistinct(v.(heap := Without(v.heap, k)), nodes, asleep, v.heap[k]);
      HandledSound(v.(heap := Without(v.heap, k)), nodes, asleep, v.heap[k]);
    }
  }

  lemma {:induction false} LoopKeepsDistinct(nodes: set<NodeId>, vs: seq<Loop>, i: nat)
    requires IsLoop(nodes, vs) && DistinctSources(vs[0].heap) && i < |vs|
    ensures DistinctSources(vs[i].heap) && vs[i].kit == vs[0].kit
  {
    if i == 0 {
    } else {
      LoopKeepsDistinct(nodes, vs, i - 1);
      assert Turn(vs[i - 1], vs[i], nodes, false, Continue);
      TurnKeepsDistinct(vs[i - 1], vs[i], nodes, false, Continue);
    }
  }

  lemma {:induction false} SetUpSound(xs: Executors, now: nat)
    ensures Sound(SetUp(xs, now)) && SetUp(xs, now).kit == KitOf(xs)
  {
    if xs == [] {
    } else {
      SetUpSound(xs[..|xs| - 1], now);
    }
  }

  /** After setting up, the heap holds one event for each entry of the list. */
  lemma {:induction false} SetUpHeap(xs: Executors, now: nat)
    ensures |SetUp(xs, now).heap| == |xs|
    ensures forall i :: 0 <= i < |xs| ==> SetUp(xs, now).heap[i].source == xs[i].key
  {
    if xs == [] {
    } else {
      SetUpHeap(xs[..|xs| - 1], now);
    }
  }

  lemma SortedDistinctIff(executors: Executors)
    ensures DistinctKeys(SortByKey(executors)) <==> DistinctKeys(executors)
  {
    SortSorts(executors);
    if DistinctKeys(executors) {
      PermutationDistinct(executors, SortByKey(executors));
    }
    if DistinctKeys(SortByKey(executors)) {
      PermutationDistinct(SortByKey(executors), executors);
    }
  }

  /** In every run the heap holds at most one event for each source at all times if and only if no two executors have
      the same source. */
  lemma OneEventEachIff(executors: Executors, now: nat, nodes: set<NodeId>, vs: seq<Loop>)
    requires IsLoop(nodes, vs) && vs[0] == SetUp(SortByKey(executors), now)
    ensures (forall i :: 0 <= i < |vs| ==> DistinctSources(vs[i].heap)) <==> DistinctKeys(executors)
  {
    var sorted := SortByKey(executors);
    SetUpHeap(sorted, now);
    SortedDistinctIff(executors);
    assert DistinctSources(vs[0].heap) <==> DistinctKeys(sorted) by {
      SameDistinct(vs[0].heap, sorted);
    }
    if DistinctKeys(executors) {
      forall i | 0 <= i < |vs| ensures DistinctSources(vs[i].heap) { LoopKeepsDistinct(nodes, vs, i); }
    }
  }

  lemma SameDistinct(heap: seq<Event>, xs: Executors)
    requires |heap| == |xs| && forall i :: 0 <= i < |xs| ==> heap[i].source == xs[i].key
    ensures DistinctSources(heap) <==> DistinctKeys(xs)
  {
    if DistinctSources(heap) {
      forall i, j | 0 <= i < j < |xs| ensures xs[i].key != xs[j].key {
        assert heap[i].source != heap[j].source;
      }
    }
    if DistinctKeys(xs) {
      forall i, j | 0 <= i < j < |heap| ensures heap[i].source != heap[j].source {
        assert xs[i].key != xs[j].key;
      }
    }
  }

  /** Two executors with one source: two events of that source are pending, and the generator of the first executor is
      overwritten by that of the second. */
  lemma RepeatedSource(s: NodeId, g: Generator, h: Generator, now: nat)
    ensures var v := SetUp(SortByKey([Keyed(s, g), Keyed(s, h)]), now);
            && |v.heap| == 2 && v.heap[0].source == s && v.heap[1].source == s
            && v.kit == map[s := h] && v.progress == map[s := Progress(0, 1)]
  {
    var xs := [Keyed(s, g), Keyed(s, h)];
    assert xs[..1] == [Keyed(s, g)] && xs[..1][..0] == [];
    assert SortByKey(xs[..1]) == xs[..1];
    assert SortByKey(xs) == xs;
    SetUpHeap(xs, now);
    SetUpSound(xs, now);
    assert KitOf(xs[..1]) == map[s := g];
  }
}

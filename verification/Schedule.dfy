/** The payment scheduler as values: pending events, and what one round of the event loop does. */
module Schedule {
  import opened Types

  /** Where the payments of one source come from. `wait(j)`, `amount(j, _)` are what its generator returns the
      `j`-th time it is asked; `pick(g)` is the destination drawn at position `g` of the stream that all sources
      share, and the position after the draw. `works(j, from, d)` tells whether event `j`, counted from time `from` and
      meant for `d`, can be generated at all: neither generator reports an error, and the time can be represented. */
  datatype Generator = Generator(
    start: Option<nat>,
    count: Option<nat>,
    wait: nat -> nat,
    pick: nat -> (NodeId, nat),
    amount: (nat, NodeId) -> nat,
    works: (nat, nat, NodeId) -> bool)

  type Kit = map<NodeId, Generator>

  datatype Event = Event(time: nat, source: NodeId, destination: NodeId, amount: nat)

  /** Earlier first; among events for the same instant, the smaller key first. */
  predicate Before(a: Event, b: Event) {
    a.time < b.time || (a.time == b.time && a.source < b.source)
  }

  /** How far a source has come: payments completed, and events generated. */
  datatype Progress = Progress(completed: nat, generated: nat)

  /** A place in the merge of all schedules: when, by whom, and which of that source's payments. */
  datatype Slot = Slot(time: nat, source: NodeId, nth: nat)

  /** Slot `a` comes before slot `b` in the merge. */
  predicate Earlier(a: Slot, b: Slot) {
    a.time < b.time || (a.time == b.time && (a.source < b.source || (a.source == b.source && a.nth < b.nth)))
  }

  /** A payment sent. */
  datatype Sent = Sent(slot: Slot, destination: NodeId, amount: nat)

  /** The scheduler: at most one pending event for each source, progress, the clock, the position in the shared
      stream of destinations, and the payments sent so far. */
  datatype Sched = Sched(
    pending: map<NodeId, Event>,
    progress: map<NodeId, Progress>,
    clock: nat,
    drawn: nat,
    log: seq<Sent>)

  /** `get_payment_delay`: a start delay applies once, to the first payment. */
  function Delay(g: Generator, completed: nat, generated: nat): nat {
    if completed == 0 && g.start.Some? then g.start.value else g.wait(generated)
  }

  /** `generate_payment`: the next event of `s`, counted from time `from`. */
  function Generate(kit: Kit, v: Sched, s: NodeId, from: nat): Sched
    requires s in kit && s in v.progress
  {
    var g, p := kit[s], v.progress[s];
    var (destination, drawn) := g.pick(v.drawn);
    v.(pending := v.pending[s := Event(from + Delay(g, p.completed, p.generated), s, destination,
                                       g.amount(p.generated, destination))],
       progress := v.progress[s := Progress(p.completed, p.generated + 1)],
       drawn := drawn)
  }

  /** The event of `s` is the one to pop. */
  predicate IsFront(pending: map<NodeId, Event>, s: NodeId) {
    && s in pending
    && forall r :: r in pending && r != s ==> Before(pending[s], pending[r])
  }

  predicate CountMet(kit: Kit, v: Sched, s: NodeId)
    requires s in kit && s in v.progress
  {
    kit[s].count == Some(v.progress[s].completed)
  }

  /** One round of `produce_payment_events` that pops the event of `s`: dropped when the source has met its count;
      replaced at once when its amount is zero; otherwise, after sleeping until it is due, sent and replaced. */
  function RoundAt(kit: Kit, v: Sched, s: NodeId): Sched
    requires s in kit && s in v.progress && s in v.pending
  {
    var e := v.pending[s];
    var popped := v.(pending := v.pending - {s});
    if CountMet(kit, v, s) then popped
    else if e.amount == 0 then Generate(kit, popped, s, v.clock)
    else
      var now := if e.time > v.clock then e.time else v.clock;
      var p := v.progress[s];
      var counted := popped.(progress := v.progress[s := Progress(p.completed + 1, p.generated)], clock := now);
      var next := Generate(kit, counted, s, now);
      next.(log := v.log + [Sent(Slot(now, s, p.completed), e.destination, e.amount)])
  }

  /** A round: whichever event is first is popped. */
  ghost predicate Round(kit: Kit, v: Sched, v': Sched) {
    exists s :: IsFront(v.pending, s) && s in kit && s in v.progress && v' == RoundAt(kit, v, s)
  }

  /** The tracker of a source that has not done anything yet. */
  function WithSource(v: Sched, s: NodeId): Sched {
    v.(progress := v.progress[s := Progress(0, 0)])
  }

  /** Setting up: one event for each source of the sorted list `order`, counted from `now`. */
  function Setup(kit: Kit, order: seq<NodeId>, now: nat): Sched
    requires forall i :: 0 <= i < |order| ==> order[i] in kit
  {
    if order == [] then Sched(map[], map[], now, 0, [])
    else
      var s := order[|order| - 1];
      Generate(kit, WithSource(Setup(kit, order[..|order| - 1], now), s), s, now)
  }

  /** The states that a run passes through, one round after the other. */
  ghost predicate IsRun(kit: Kit, vs: seq<Sched>) {
    && |vs| > 0
    && forall i, j {:trigger Round(kit, vs[i], vs[j])} :: 0 <= i < j < |vs| && j == i + 1 ==>
         Round(kit, vs[i], vs[j])
  }

  // ---------- What a source's own schedule is ----------

  /** When payment `n` of a source is due, by its own delays alone. */
  function Due(g: Generator, now: nat, n: nat): nat {
    if n == 0 then now + Delay(g, 0, 0) else Due(g, now, n - 1) + g.wait(n)
  }

  /** No amount is ever zero. */
  ghost predicate NonZero(kit: Kit) {
    forall s, j, d :: s in kit ==> kit[s].amount(j, d) > 0
  }

  predicate Wanted(g: Generator, n: nat) {
    g.count.None? || n < g.count.value
  }
}

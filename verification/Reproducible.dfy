/** A run depends only on the sources, the seeds and the time of the start, not on the order in which maps hand out
    their entries. */
module Reproducible {
  import opened Types
  import opened Ordering
  import opened NetworkView
  import opened Schedule
  import opened ScheduleProofs
  import opened ScheduleTheorems

  type Executors = seq<Keyed<Generator>>

  /** The tracker map that the list fills. */
  function KitOf(xs: Executors): Kit {
    if xs == [] then map[] else KitOf(xs[..|xs| - 1])[xs[|xs| - 1].key := xs[|xs| - 1].value]
  }

  lemma {:induction false} KitHolds(xs: Executors)
    ensures forall s :: s in KitOf(xs) <==> s in Keys(xs)
    ensures DistinctKeys(xs) ==>
              forall i :: 0 <= i < |xs| ==> xs[i].key in KitOf(xs) && KitOf(xs)[xs[i].key] == xs[i].value
  {
    if xs == [] {
    } else {
      var init := xs[..|xs| - 1];
      KitHolds(init);
      assert Keys(xs) == Keys(init) + [xs[|xs| - 1].key];
      forall i | 0 <= i < |xs| ensures xs[i].key in KitOf(xs) {
        assert xs[i].key == Keys(xs)[i];
      }
      if DistinctKeys(xs) {
        forall i | 0 <= i < |init| ensures xs[i].key in KitOf(init) && KitOf(init)[xs[i].key] == xs[i].value {
          assert init[i] == xs[i];
        }
      }
    }
  }

  /** Where the event loop starts. */
  function StartOf(executors: Executors, now: nat): Sched {
    KitHolds(SortByKey(executors));
    assert forall i :: 0 <= i < |Keys(SortByKey(executors))| ==>
      Keys(SortByKey(executors))[i] in Keys(SortByKey(executors));
    Setup(KitOf(SortByKey(executors)), Keys(SortByKey(executors)), now)
  }

  /** A run of the event loop for these executors. */
  ghost predicate RunOf(executors: Executors, now: nat, vs: seq<Sched>) {
    IsRun(KitOf(SortByKey(executors)), vs) && vs[0] == StartOf(executors, now)
  }

  lemma KeysListKit(sorted: Executors)
    requires DistinctKeys(sorted)
    ensures Lists(Keys(sorted), KitOf(sorted))
  {
    KitHolds(sorted);
    assert forall i :: 0 <= i < |sorted| ==> Keys(sorted)[i] in Keys(sorted);
  }

  /** Executors with distinct keys are what the scheduling theorems ask for. */
  lemma ExecutorsRun(executors: Executors, now: nat, vs: seq<Sched>)
    requires DistinctKeys(executors) && RunOf(executors, now, vs) && NonZero(KitOf(SortByKey(executors)))
    ensures Runs(KitOf(SortByKey(executors)), Keys(SortByKey(executors)), now, vs)
  {
    SortDistinct(executors);
    KeysListKit(SortByKey(executors));
  }

  // ---------- Runs are determined ----------

  /** Only one event can be first. */
  lemma RoundDetermined(kit: Kit, v: Sched, a: Sched, b: Sched)
    requires Round(kit, v, a) && Round(kit, v, b)
    ensures a == b
  {
    var s :| IsFront(v.pending, s) && s in kit && s in v.progress && a == RoundAt(kit, v, s);
    var r :| IsFront(v.pending, r) && r in kit && r in v.progress && b == RoundAt(kit, v, r);
    assert s == r;
  }

  lemma {:induction false} RunsAgree(kit: Kit, vs: seq<Sched>, ws: seq<Sched>, i: nat)
    requires IsRun(kit, vs) && IsRun(kit, ws) && vs[0] == ws[0] && i < |vs| && i < |ws|
    ensures vs[i] == ws[i]
  {
    if i == 0 {
    } else {
      RunsAgree(kit, vs, ws, i - 1);
      StepOfRun(kit, vs, i);
      StepOfRun(kit, ws, i);
      RoundDetermined(kit, vs[i - 1], vs[i], ws[i]);
    }
  }

  /** For every order of the executors the run is the same, round by round: the same heap, the same draws from the
      shared stream, the same payments. */
  lemma OrderForgotten(a: Executors, b: Executors, now: nat, vs: seq<Sched>, ws: seq<Sched>, i: nat)
    requires multiset(a) == multiset(b) && DistinctKeys(a)
    requires RunOf(a, now, vs) && RunOf(b, now, ws) && i < |vs| && i < |ws|
    ensures vs[i] == ws[i]
  {
    SortForgetsOrder(a, b);
    RunsAgree(KitOf(SortByKey(a)), vs, ws, i);
  }

  // ---------- Random activity ----------

  /** What the salted generators of the nodes give: waits and amounts, for a source, its capacity, how often it was
      asked, and for amounts the capacity of the destination. */
  datatype Seeds = Seeds(
    sample: Sampler,
    wait: (NodeId, nat, nat) -> nat,
    amount: (NodeId, nat, nat, nat) -> nat,
    works: (NodeId, nat, nat, nat, nat) -> bool)

  function CapacityOf(nodes: Nodes, key: NodeId): nat {
    if nodes == [] then 0
    else if nodes[|nodes| - 1].key == key then nodes[|nodes| - 1].value
    else CapacityOf(nodes[..|nodes| - 1], key)
  }

  /** The generator of one active node. */
  ghost function RandomActivity(view: Nodes, seeds: Seeds, node: Keyed<nat>): Generator
    requires Fair(view, seeds.sample)
  {
    Generator(None, None,
              (j: nat) => seeds.wait(node.key, node.value, j),
              (from: nat) => Picked(view, seeds.sample, node.key, from),
              (j: nat, d: NodeId) => seeds.amount(node.key, node.value, j, CapacityOf(view, d)),
              (j: nat, from: nat, d: NodeId) => seeds.works(node.key, node.value, j, from, CapacityOf(view, d)))
  }

  /** The executors of all active nodes, in the order in which the map of active nodes hands them out. They share
      one sorted view. */
  ghost function RandomExecutors(active: Nodes, seeds: Seeds): Executors
    requires Fair(SortByKey(active), seeds.sample)
  {
    var view := SortByKey(active);
    MapValues((node: Keyed<nat>) => RandomActivity(view, seeds, node), active)
  }

  function MapValues<S, T>(f: Keyed<S> -> T, xs: seq<Keyed<S>>): seq<Keyed<T>> {
    seq(|xs|, i requires 0 <= i < |xs| => Keyed(xs[i].key, f(xs[i])))
  }

  lemma {:induction false} InsertMaps<S, T>(f: Keyed<S> -> T, xs: seq<Keyed<S>>, x: Keyed<S>)
    ensures Insert(MapValues(f, xs), Keyed(x.key, f(x))) == MapValues(f, Insert(xs, x))
    decreases |xs|
  {
    if xs != [] && xs[|xs| - 1].key > x.key {
      InsertMaps(f, xs[..|xs| - 1], x);
      assert MapValues(f, xs)[..|xs| - 1] == MapValues(f, xs[..|xs| - 1]);
    }
  }

  /** Sorting looks at keys only. */
  lemma {:induction false} SortMaps<S, T>(f: Keyed<S> -> T, xs: seq<Keyed<S>>)
    ensures SortByKey(MapValues(f, xs)) == MapValues(f, SortByKey(xs))
  {
    if xs == [] {
    } else {
      SortMaps(f, xs[..|xs| - 1]);
      InsertMaps(f, SortByKey(xs[..|xs| - 1]), xs[|xs| - 1]);
      assert MapValues(f, xs)[..|xs| - 1] == MapValues(f, xs[..|xs| - 1]);
    }
  }

  /** With random activity, for every order in which the map of active nodes hands them out, the runs are the same:
      the initial heap, the draws from the shared stream and everything sent. (The view is the same by
      `SortForgetsOrder`.) */
  lemma ActiveOrderForgotten(a: Nodes, b: Nodes, seeds: Seeds, now: nat, vs: seq<Sched>, ws: seq<Sched>, i: nat)
    requires multiset(a) == multiset(b) && DistinctKeys(a)
    requires Fair(SortByKey(a), seeds.sample) && Fair(SortByKey(b), seeds.sample)
    requires RunOf(RandomExecutors(a, seeds), now, vs) && RunOf(RandomExecutors(b, seeds), now, ws)
    requires i < |vs| && i < |ws|
    ensures vs[i] == ws[i]
  {
    SortForgetsOrder(a, b);
    var view := SortByKey(a);
    var f := (node: Keyed<nat>) => RandomActivity(view, seeds, node);
    SortMaps(f, a);
    SortMaps(f, b);
    RunsAgree(KitOf(MapValues(f, view)), vs, ws, i);
  }

  // ---------- Nobody pays itself ----------

  predicate PaysOthers(v: Sched) {
    && (forall s :: s in v.pending ==> v.pending[s].destination != s)
    && forall i :: 0 <= i < |v.log| ==> v.log[i].destination != v.log[i].slot.source
  }

  lemma RoundPaysOthers(kit: Kit, v: Sched, v': Sched)
    requires forall s, g: nat :: s in kit ==> kit[s].pick(g).0 != s
    requires PaysOthers(v) && Round(kit, v, v')
    ensures PaysOthers(v')
  {
    var s :| IsFront(v.pending, s) && s in kit && s in v.progress && v' == RoundAt(kit, v, s);
    var popped := v.pending - {s};
    assert forall r :: r in popped ==> r in v.pending && popped[r] == v.pending[r];
  }

  lemma {:induction false} SetupPaysOthers(kit: Kit, order: seq<NodeId>, now: nat)
    requires forall s, g: nat :: s in kit ==> kit[s].pick(g).0 != s
    requires forall i :: 0 <= i < |order| ==> order[i] in kit
    ensures PaysOthers(Setup(kit, order, now))
  {
    if order == [] {
    } else {
      SetupPaysOthers(kit, order[..|order| - 1], now);
    }
  }

  lemma {:induction false} RunPaysOthers(kit: Kit, vs: seq<Sched>, i: nat)
    requires forall s, g: nat :: s in kit ==> kit[s].pick(g).0 != s
    requires IsRun(kit, vs) && PaysOthers(vs[0]) && i < |vs|
    ensures PaysOthers(vs[i])
  {
    if i == 0 {
    } else {
      RunPaysOthers(kit, vs, i - 1);
      StepOfRun(kit, vs, i);
      RoundPaysOthers(kit, vs[i - 1], vs[i]);
    }
  }

  lemma {:induction false} KitOfMapped(f: Keyed<nat> -> Generator, xs: Nodes, s: NodeId)
    requires s in KitOf(MapValues(f, xs))
    ensures exists i :: 0 <= i < |xs| && xs[i].key == s && KitOf(MapValues(f, xs))[s] == f(xs[i])
  {
    if xs == [] {
    } else {
      assert MapValues(f, xs)[..|xs| - 1] == MapValues(f, xs[..|xs| - 1]);
      if s != xs[|xs| - 1].key { KitOfMapped(f, xs[..|xs| - 1], s); }
    }
  }

  /** With random activity no payment of any run goes from a node to itself. */
  lemma NobodyPaysItself(active: Nodes, seeds: Seeds, now: nat, vs: seq<Sched>, i: nat)
    requires Fair(SortByKey(active), seeds.sample) && RunOf(RandomExecutors(active, seeds), now, vs) && i < |vs|
    ensures PaysOthers(vs[i])
  {
    var view := SortByKey(active);
    var f := (node: Keyed<nat>) => RandomActivity(view, seeds, node);
    SortMaps(f, active);
    var sorted := MapValues(f, view);
    var kit := KitOf(sorted);
    forall s, g: nat | s in kit ensures kit[s].pick(g).0 != s {
      KitOfMapped(f, view, s);
    }
    KitHolds(sorted);
    assert forall i :: 0 <= i < |Keys(sorted)| ==> Keys(sorted)[i] in Keys(sorted);
    SetupPaysOthers(kit, Keys(sorted), now);
    RunPaysOthers(kit, vs, i);
  }
}

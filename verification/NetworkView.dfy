/** The view of the network from which random destinations are drawn. */
module NetworkView {
  import opened Types
  import opened Ordering

  /** Nodes that can be paid, each with the capacity it has deployed. */
  type Nodes = seq<Keyed<nat>>

  /** The index that the `k`-th draw from the shared random number generator gives for these weights. */
  type Sampler = (seq<nat>, nat) -> nat

  datatype ViewError = TooFewNodes | ZeroCapacity | BadWeights

  datatype ViewResult = View(view: NetworkGraphView) | Rejected(error: ViewError)

  function Weights(nodes: Nodes): seq<nat> {
    seq(|nodes|, i requires 0 <= i < |nodes| => nodes[i].value)
  }

  /** A weighted index never leaves the list. */
  ghost predicate InRange(sample: Sampler, nodes: Nodes) {
    forall k :: sample(Weights(nodes), k) < |nodes|
  }

  /** Draw `k` gives a node other than the source. */
  ghost predicate Hits(nodes: Nodes, sample: Sampler, source: NodeId, k: nat)
    requires InRange(sample, nodes)
  {
    nodes[sample(Weights(nodes), k)].key != source
  }

  /** From `from` on, `k` is the first draw that gives a node other than the source. */
  ghost predicate FirstHit(nodes: Nodes, sample: Sampler, source: NodeId, from: nat, k: nat)
    requires InRange(sample, nodes)
  {
    && from <= k && Hits(nodes, sample, source, k)
    && forall j: nat :: from <= j < k ==> !Hits(nodes, sample, source, j)
  }

  lemma FirstHitUnique(nodes: Nodes, sample: Sampler, source: NodeId, from: nat, k: nat, l: nat)
    requires InRange(sample, nodes)
    requires FirstHit(nodes, sample, source, from, k) && FirstHit(nodes, sample, source, from, l)
    ensures k == l
  {
    assert !(k < l) && !(l < k);
  }

  /** Some draw from `from` on is somebody else. */
  ghost predicate HitsLater(nodes: Nodes, sample: Sampler, source: NodeId, from: nat)
    requires InRange(sample, nodes)
  {
    exists k: nat :: FirstHit(nodes, sample, source, from, k)
  }

  ghost predicate Fair(nodes: Nodes, sample: Sampler) {
    && InRange(sample, nodes)
    && forall source: NodeId, from: nat :: HitsLater(nodes, sample, source, from)
  }

  /** The destination that a source draws from the sorted view at position `from`, and the position after that. */
  ghost function Picked(nodes: Nodes, sample: Sampler, source: NodeId, from: nat): (r: (NodeId, nat))
    requires Fair(nodes, sample)
    ensures r.0 != source && r.0 in Keys(nodes)
    ensures exists k: nat :: FirstHit(nodes, sample, source, from, k)
                             && r == (nodes[sample(Weights(nodes), k)].key, k + 1)
  {
    assert HitsLater(nodes, sample, source, from);
    var k: nat :| FirstHit(nodes, sample, source, from, k);
    assert Keys(nodes)[sample(Weights(nodes), k)] in Keys(nodes);
    (nodes[sample(Weights(nodes), k)].key, k + 1)
  }

  /** The destination picked is that of the first draw that is not the source. */
  lemma PickedIsFirst(nodes: Nodes, sample: Sampler, source: NodeId, from: nat, k: nat)
    requires Fair(nodes, sample) && FirstHit(nodes, sample, source, from, k)
    ensures Picked(nodes, sample, source, from) == (nodes[sample(Weights(nodes), k)].key, k + 1)
  {
    var r := Picked(nodes, sample, source, from);
    var l: nat :| FirstHit(nodes, sample, source, from, l) && r == (nodes[sample(Weights(nodes), l)].key, l + 1);
    FirstHitUnique(nodes, sample, source, from, k, l);
  }

  class NetworkGraphView {
    const nodes: Nodes
    const sample: Sampler
    /** How many draws the shared generator has given. */
    var position: nat

    ghost predicate Valid()
      reads this
    {
      && |nodes| >= 2 && SortedByKey(nodes) && InRange(sample, nodes)
      && forall i :: 0 <= i < |nodes| ==> nodes[i].value > 0
    }

    constructor (sorted: Nodes, sample: Sampler)
      ensures nodes == sorted && this.sample == sample && position == 0
    {
      nodes := sorted;
      this.sample := sample;
      position := 0;
    }

    /** `NetworkGraphView::new`: refused exactly when there are fewer than two nodes, or one without capacity, or the
        library builds no weighted index from the weights; otherwise the nodes sorted by key. `accepts` tells for which
        weights the library builds one. */
    static method New(nodes: Nodes, sample: Sampler, accepts: seq<nat> -> bool) returns (r: ViewResult)
      requires InRange(sample, SortByKey(nodes))
      ensures r == Rejected(TooFewNodes) <==> |nodes| < 2
      ensures r == Rejected(ZeroCapacity) <==> |nodes| >= 2 && exists i :: 0 <= i < |nodes| && nodes[i].value == 0
      ensures r == Rejected(BadWeights) <==>
                && |nodes| >= 2 && (forall i :: 0 <= i < |nodes| ==> nodes[i].value > 0)
                && !accepts(Weights(SortByKey(nodes)))
      ensures r.View? ==> fresh(r.view) && r.view.Valid() && r.view.position == 0
      ensures r.View? ==> r.view.nodes == SortByKey(nodes) && r.view.sample == sample
    {
      if |nodes| < 2 { return Rejected(TooFewNodes); }
      for i := 0 to |nodes|
        invariant forall j :: 0 <= j < i ==> nodes[j].value > 0
      {
        if nodes[i].value == 0 { return Rejected(ZeroCapacity); }
      }
      SortSorts(nodes);
      SameLength(SortByKey(nodes), nodes);
      forall i | 0 <= i < |nodes| ensures SortByKey(nodes)[i].value > 0 {
        SameElements(SortByKey(nodes), nodes, SortByKey(nodes)[i]);
      }
      if !accepts(Weights(SortByKey(nodes))) { return Rejected(BadWeights); }
      var view := new NetworkGraphView(SortByKey(nodes), sample);
      return View(view);
    }

    /** `choose_destination`: draws until the node drawn is not the source. `lucky` is any later draw that is not the
        source, without which the loop would go on for ever. */
    method ChooseDestination(source: NodeId, ghost lucky: nat) returns (destination: Keyed<nat>)
      requires Valid() && position <= lucky && Hits(nodes, sample, source, lucky)
      modifies this`position
      ensures Valid()
      ensures destination in nodes && destination.key != source
      ensures position > 0 && FirstHit(nodes, sample, source, old(position), position - 1)
      ensures destination == nodes[sample(Weights(nodes), position - 1)]
      ensures Fair(nodes, sample) ==> (destination.key, position) == Picked(nodes, sample, source, old(position))
    {
      while true
        invariant position <= lucky
        invariant forall j: nat :: old(position) <= j < position ==> !Hits(nodes, sample, source, j)
        invariant old(position) <= position
        decreases lucky - position
      {
        var index := sample(Weights(nodes), position);
        var node := nodes[index];
        if node.key != source {
          if Fair(nodes, sample) { PickedIsFirst(nodes, sample, source, old(position), position); }
          position := position + 1;
          return node;
        }
        position := position + 1;
      }
    }
  }
}

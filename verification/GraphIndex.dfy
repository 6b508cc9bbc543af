/** Building the graph from a list of channels, and the index from nodes to their channels. */
module GraphIndex {
  import opened Types
  import opened Channel
  import opened Network
  import opened Payments
  import opened Invariant
  import opened Preservation
  import opened Sums

  type Index = map<NodeId, seq<Scid>>

  datatype BuildError = SameNode(node: NodeId) | PolicyTooLarge(scid: Scid) | DuplicateScid(scid: Scid)

  datatype Built = Graph(nodes: Index, channels: Topology) | NoGraph(error: BuildError)

  /** `SimulatedChannel::validate`. */
  predicate ChannelValid(c: Chan) {
    && c.one.policy.node != c.two.policy.node
    && PolicyFits(c.one.policy, c.capacity)
    && PolicyFits(c.two.policy, c.capacity)
  }

  predicate AllValid(cs: seq<Chan>) {
    forall i :: 0 <= i < |cs| ==> ChannelValid(cs[i])
  }

  predicate Distinct(cs: seq<Chan>) {
    forall i, j :: 0 <= i < j < |cs| ==> cs[i].scid != cs[j].scid
  }

  predicate Joins(c: Chan, n: NodeId) {
    c.one.policy.node == n || c.two.policy.node == n
  }

  /** The ids of the channels node `n` takes part in, in the order of the list. */
  function ChannelsOf(cs: seq<Chan>, n: NodeId): seq<Scid> {
    if cs == [] then []
    else
      var c := cs[|cs| - 1];
      ChannelsOf(cs[..|cs| - 1], n) + if Joins(c, n) then [c.scid] else []
  }

  /** Node to channels, as it should be. */
  ghost predicate IndexOk(nodes: Index, cs: seq<Chan>) {
    && (forall n :: n in nodes <==> ChannelsOf(cs, n) != [])
    && (forall n :: n in nodes ==> nodes[n] == ChannelsOf(cs, n))
  }

  predicate Registers(channels: Topology, cs: seq<Chan>) {
    && (forall i :: 0 <= i < |cs| ==> cs[i].scid in channels && channels[cs[i].scid] == cs[i])
    && (forall id :: id in channels ==> exists i :: 0 <= i < |cs| && cs[i].scid == id)
  }

  function Enter(nodes: Index, n: NodeId, id: Scid): Index {
    nodes[n := (if n in nodes then nodes[n] else []) + [id]]
  }

  method Validate(c: Chan) returns (e: Option<BuildError>)
    ensures e == None <==> ChannelValid(c)
    ensures e.Some? ==> !e.value.DuplicateScid? && Faulty([c], e.value)
  {
    assert [c][0] == c;
    if c.one.policy.node == c.two.policy.node { return Some(SameNode(c.one.policy.node)); }
    if c.one.policy.maxInFlight > c.capacity || c.one.policy.maxHtlcSize > c.capacity {
      return Some(PolicyTooLarge(c.scid));
    }
    if c.two.policy.maxInFlight > c.capacity || c.two.policy.maxHtlcSize > c.capacity {
      return Some(PolicyTooLarge(c.scid));
    }
    return None;
  }

  /** The graph of these channels, all of them good. */
  ghost predicate GraphOf(nodes: Index, channels: Topology, cs: seq<Chan>) {
    Distinct(cs) && AllValid(cs) && Registers(channels, cs) && IndexOk(nodes, cs)
  }

  /** The list has the fault that the error names. */
  predicate Faulty(cs: seq<Chan>, e: BuildError) {
    match e
    case SameNode(n) => exists i :: 0 <= i < |cs| && cs[i].one.policy.node == n && cs[i].two.policy.node == n
    case PolicyTooLarge(id) => exists i :: 0 <= i < |cs| && cs[i].scid == id && HasLargePolicy(cs[i])
    case DuplicateScid(id) => exists i, j :: 0 <= i < j < |cs| && cs[i].scid == id && cs[j].scid == id
  }

  predicate HasLargePolicy(c: Chan) {
    || c.one.policy.maxInFlight > c.capacity || c.one.policy.maxHtlcSize > c.capacity
    || c.two.policy.maxInFlight > c.capacity || c.two.policy.maxHtlcSize > c.capacity
  }

  /** `SimGraph::new`: succeeds exactly when every channel is valid and no id occurs twice, and then the index lists
      for each node exactly its channels, each once. */
  method NewGraph(cs: seq<Chan>) returns (r: Built)
    ensures r.Graph? <==> Distinct(cs) && AllValid(cs)
    ensures r.Graph? ==> Registers(r.channels, cs) && IndexOk(r.nodes, cs)
    ensures r.NoGraph? ==> Faulty(cs, r.error)
  {
    var nodes: Index := map[];
    var channels: Topology := map[];
    for k := 0 to |cs|
      invariant GraphOf(nodes, channels, cs[..k])
    {
      var c := cs[k];
      var invalid := Validate(c);
      if invalid.Some? {
        FaultOfOne(cs, k, invalid.value);
        return NoGraph(invalid.value);
      }
      if c.scid in channels {
        Duplicate(channels, cs, k);
        return NoGraph(DuplicateScid(c.scid));
      }
      GraphGrows(nodes, channels, cs, k);
      channels := channels[c.scid := c];
      nodes := Enter(nodes, c.one.policy.node, c.scid);
      nodes := Enter(nodes, c.two.policy.node, c.scid);
    }
    assert cs[..|cs|] == cs;
    return Graph(nodes, channels);
  }

  lemma FaultOfOne(cs: seq<Chan>, k: nat, e: BuildError)
    requires k < |cs| && Faulty([cs[k]], e) && !e.DuplicateScid?
    ensures Faulty(cs, e)
  {
    assert [cs[k]][0] == cs[k];
  }

  lemma Duplicate(channels: Topology, cs: seq<Chan>, k: nat)
    requires k < |cs| && Registers(channels, cs[..k]) && cs[k].scid in channels
    ensures !Distinct(cs) && Faulty(cs, DuplicateScid(cs[k].scid))
  {
    var i :| 0 <= i < k && cs[..k][i].scid == cs[k].scid;
    assert cs[i].scid == cs[k].scid;
  }

  lemma GraphGrows(nodes: Index, channels: Topology, cs: seq<Chan>, k: nat)
    requires k < |cs| && GraphOf(nodes, channels, cs[..k])
    requires ChannelValid(cs[k]) && cs[k].scid !in channels
    ensures var c := cs[k];
            GraphOf(Enter(Enter(nodes, c.one.policy.node, c.scid), c.two.policy.node, c.scid),
                    channels[c.scid := c], cs[..k + 1])
  {
    assert cs[..k + 1] == cs[..k] + [cs[k]];
    IndexGrows(nodes, cs[..k], cs[k]);
    RegistersGrow(channels, cs[..k], cs[k]);
  }

  lemma IndexGrows(nodes: Index, cs: seq<Chan>, c: Chan)
    requires IndexOk(nodes, cs) && c.one.policy.node != c.two.policy.node
    ensures IndexOk(Enter(Enter(nodes, c.one.policy.node, c.scid), c.two.policy.node, c.scid), cs + [c])
  {
    assert (cs + [c])[..|cs|] == cs;
    forall n ensures ChannelsOf(cs + [c], n) == ChannelsOf(cs, n) + if Joins(c, n) then [c.scid] else [] {
    }
  }

  lemma RegistersGrow(channels: Topology, cs: seq<Chan>, c: Chan)
    requires Registers(channels, cs) && c.scid !in channels
    ensures Registers(channels[c.scid := c], cs + [c])
  {
    assert (cs + [c])[|cs|] == c;
    var channels', cs' := channels[c.scid := c], cs + [c];
    forall id | id in channels' ensures exists i :: 0 <= i < |cs'| && cs'[i].scid == id {
      if id in channels {
        var i :| 0 <= i < |cs| && cs[i].scid == id;
        assert cs'[i].scid == id;
      }
    }
  }

  /** A channel as `SimulatedChannel::new` makes it. */
  predicate Created(c: Chan) {
    c == NewChannel(c.capacity, c.scid, c.one.policy, c.two.policy, c.excluded)
  }

  /** The graph that is built from new channels is one that runs can start from if and only if every capacity is even
      and below two to the power of 63. */
  lemma NewChannelsStart(channels: Topology, cs: seq<Chan>)
    requires Registers(channels, cs) && AllValid(cs) && forall i :: 0 <= i < |cs| ==> Created(cs[i])
    ensures StartOk(channels)
            <==> forall i :: 0 <= i < |cs| ==> cs[i].capacity % 2 == 0 && cs[i].capacity < 0x8000_0000_0000_0000
  {
    forall i | 0 <= i < |cs|
      ensures Fresh(cs[i]) <==> cs[i].capacity % 2 == 0 && cs[i].capacity < 0x8000_0000_0000_0000 {
      assert Created(cs[i]) && ChannelValid(cs[i]);
    }
    if StartOk(channels) {
      forall i | 0 <= i < |cs| ensures Fresh(cs[i]) {
        assert Fresh(channels[cs[i].scid]);
      }
    }
  }

  // ---------- Lookups ----------

  /** The capacities of the channels of `n` that are not excluded, in the order of the list. */
  function CapacitiesOf(cs: seq<Chan>, n: NodeId): seq<nat> {
    if cs == [] then []
    else
      var c := cs[|cs| - 1];
      CapacitiesOf(cs[..|cs| - 1], n) + if Joins(c, n) && !c.excluded then [c.capacity] else []
  }

  /** The channels are on the terms of the list the graph was built from. */
  predicate OnTerms(channels: Topology, cs: seq<Chan>) {
    forall i :: 0 <= i < |cs| ==> cs[i].scid in channels && SameTerms(cs[i], channels[cs[i].scid])
  }

  /** The capacities looked up for a list of ids. */
  function LookUp(channels: Topology, ids: seq<Scid>): seq<nat> {
    if ids == [] then []
    else
      var id := ids[|ids| - 1];
      LookUp(channels, ids[..|ids| - 1])
      + if id in channels && !channels[id].excluded then [channels[id].capacity] else []
  }

  lemma {:induction false} LookUpFindsCapacities(channels: Topology, cs: seq<Chan>, n: NodeId)
    requires OnTerms(channels, cs)
    ensures LookUp(channels, ChannelsOf(cs, n)) == CapacitiesOf(cs, n)
  {
    if cs == [] {
    } else {
      var c, init := cs[|cs| - 1], cs[..|cs| - 1];
      LookUpFindsCapacities(channels, init, n);
      var ids := ChannelsOf(init, n);
      assert OnTerms(channels, init);
      if Joins(c, n) {
        assert (ids + [c.scid])[..|ids|] == ids;
        assert SameTerms(c, channels[c.scid]);
      } else {
        assert ids + [] == ids;
      }
    }
  }

  /** `lookup_node`, at any later time: the capacities of exactly the node's own channels that are not excluded. */
  method LookupNode(nodes: Index, channels: Topology, ghost cs: seq<Chan>, n: NodeId) returns (r: Option<seq<nat>>)
    requires IndexOk(nodes, cs) && OnTerms(channels, cs)
    ensures r == None <==> forall i :: 0 <= i < |cs| ==> !Joins(cs[i], n)
    ensures r.Some? ==> r.value == CapacitiesOf(cs, n)
  {
    NoChannels(cs, n);
    if n !in nodes { return None; }
    var ids := nodes[n];
    var capacities := [];
    for i := 0 to |ids|
      invariant capacities == LookUp(channels, ids[..i])
    {
      assert ids[..i + 1][..i] == ids[..i];
      if ids[i] in channels && !channels[ids[i]].excluded {
        capacities := capacities + [channels[ids[i]].capacity];
      }
    }
    assert ids[..|ids|] == ids;
    LookUpFindsCapacities(channels, cs, n);
    return Some(capacities);
  }

  lemma {:induction false} NoChannels(cs: seq<Chan>, n: NodeId)
    ensures ChannelsOf(cs, n) == [] <==> forall i :: 0 <= i < |cs| ==> !Joins(cs[i], n)
  {
    if cs == [] {
    } else {
      NoChannels(cs[..|cs| - 1], n);
      assert forall i :: 0 <= i < |cs| - 1 ==> cs[..|cs| - 1][i] == cs[i];
      assert Joins(cs[|cs| - 1], n) ==> exists i :: 0 <= i < |cs| && Joins(cs[i], n);
    }
  }

  /** Nothing a run does changes what a lookup finds. */
  lemma LookupStable(cs: seq<Chan>, base: Topology, s: State)
    requires StartOk(base) && Reachable(base, s) && Registers(base, cs)
    ensures OnTerms(s.channels, cs)
  {
    ReachableInv(base, s);
    forall i | 0 <= i < |cs| ensures cs[i].scid in s.channels && SameTerms(cs[i], s.channels[cs[i].scid]) {
      assert SameTerms(base[cs[i].scid], s.channels[cs[i].scid]);
    }
  }

  // ---------- Every channel counts twice ----------

  /** The capacities found for each of the nodes `ns`, all together. */
  ghost function SumOverNodes(cs: seq<Chan>, ns: set<NodeId>): nat {
    if ns == {} then 0
    else
      var n :| n in ns;
      Sum(CapacitiesOf(cs, n)) + SumOverNodes(cs, ns - {n})
  }

  function TotalCapacity(cs: seq<Chan>): nat {
    if cs == [] then 0
    else TotalCapacity(cs[..|cs| - 1]) + if cs[|cs| - 1].excluded then 0 else cs[|cs| - 1].capacity
  }

  lemma {:induction false} SumWithout(cs: seq<Chan>, ns: set<NodeId>, n: NodeId)
    requires n in ns
    ensures SumOverNodes(cs, ns) == Sum(CapacitiesOf(cs, n)) + SumOverNodes(cs, ns - {n})
    decreases |ns|
  {
    var m :| m in ns && SumOverNodes(cs, ns) == Sum(CapacitiesOf(cs, m)) + SumOverNodes(cs, ns - {m});
    if m != n {
      SumWithout(cs, ns - {m}, n);
      SumWithout(cs, ns - {n}, m);
      assert (ns - {m}) - {n} == (ns - {n}) - {m};
    }
  }

  /** What the last channel adds for one node. */
  lemma LastForNode(cs: seq<Chan>, n: NodeId)
    requires cs != []
    ensures var c := cs[|cs| - 1];
            Sum(CapacitiesOf(cs, n))
            == Sum(CapacitiesOf(cs[..|cs| - 1], n)) + if Joins(c, n) && !c.excluded then c.capacity else 0
  {
    var c, found := cs[|cs| - 1], CapacitiesOf(cs[..|cs| - 1], n);
    if Joins(c, n) && !c.excluded {
      assert (found + [c.capacity])[..|found|] == found;
    } else {
      assert found + [] == found;
    }
  }

  /** What a channel counts for among the nodes `ns`: its capacity for each of its ends there. */
  function Share(c: Chan, ns: set<NodeId>): nat {
    if c.excluded then 0
    else (if c.one.policy.node in ns then c.capacity else 0) + (if c.two.policy.node in ns then c.capacity else 0)
  }

  lemma ShareWithout(c: Chan, ns: set<NodeId>, n: NodeId)
    requires c.one.policy.node != c.two.policy.node && n in ns
    ensures Share(c, ns) == Share(c, ns - {n}) + if Joins(c, n) && !c.excluded then c.capacity else 0
  {
  }

  /** The last channel of a list counts once for each of its nodes. */
  lemma {:induction false} LastCounts(cs: seq<Chan>, ns: set<NodeId>)
    requires cs != [] && ChannelValid(cs[|cs| - 1])
    ensures SumOverNodes(cs, ns) == SumOverNodes(cs[..|cs| - 1], ns) + Share(cs[|cs| - 1], ns)
    decreases |ns|
  {
    if ns == {} {
    } else {
      var n :| n in ns;
      LastCounts(cs, ns - {n});
      SumWithout(cs, ns, n);
      SumWithout(cs[..|cs| - 1], ns, n);
      LastForNode(cs, n);
      ShareWithout(cs[|cs| - 1], ns, n);
    }
  }

  /** Summed over all nodes, the capacities looked up are twice the capacity that is not excluded. */
  lemma {:induction false} EveryChannelTwice(cs: seq<Chan>, ns: set<NodeId>)
    requires AllValid(cs)
    requires forall i :: 0 <= i < |cs| ==> cs[i].one.policy.node in ns && cs[i].two.policy.node in ns
    ensures SumOverNodes(cs, ns) == 2 * TotalCapacity(cs)
  {
    if cs == [] {
      NothingToSum(cs, ns);
    } else {
      EveryChannelTwice(cs[..|cs| - 1], ns);
      LastCounts(cs, ns);
    }
  }

  lemma {:induction false} NothingToSum(cs: seq<Chan>, ns: set<NodeId>)
    requires cs == []
    ensures SumOverNodes(cs, ns) == 0
    decreases |ns|
  {
    if ns == {} {
    } else {
      var n :| n in ns;
      SumWithout(cs, ns, n);
      NothingToSum(cs, ns - {n});
    }
  }
}

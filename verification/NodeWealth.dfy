/** What nodes own over all their channels, and how successful payments shift it. */
module NodeWealth {
  import opened Types
  import opened Channel
  import opened Payments
  import opened Network
  import opened Invariant
  import opened Preservation
  import opened LedgerProofs

  /** What node `n` owns of channel `c`. */
  function Share(c: Chan, n: NodeId): int {
    (if c.one.policy.node == n then c.one.local else 0) + (if c.two.policy.node == n then c.two.local else 0)
  }

  /** What node `n` owns in the channels `ids`. */
  ghost function Wealth(channels: Topology, ids: set<Scid>, n: NodeId): int
    requires ids <= channels.Keys
  {
    if ids == {} then 0
    else
      var id :| id in ids;
      Share(channels[id], n) + Wealth(channels, ids - {id}, n)
  }

  /** The node at the other end of the channel of hop `i`. */
  function Peer(base: Topology, p: Payment, i: nat): NodeId
    requires Placed(base, p, i)
  {
    var (id, w) := PlaceOf(base, p, i);
    base[id].Get(w.Other()).policy.node
  }

  /** What hop `i` has done to what `n` owns in the channels `ids`. */
  function NodeHopEffect(base: Topology, ids: set<Scid>, p: Payment, i: nat, n: NodeId): int {
    if Placed(base, p, i) && p.route[i].scid in ids then
      var amount: int := AmountAt(p.route, i);
      var paid := if p.Sender(i) == n then amount else 0;
      var got := if Peer(base, p, i) == n then amount else 0;
      if i < p.phase.Locked() then -paid
      else if p.phase.Settling() then got - paid
      else 0
    else 0
  }

  function NodeEffect(base: Topology, ids: set<Scid>, p: Payment, k: nat, n: NodeId): int {
    if k == 0 then 0 else NodeEffect(base, ids, p, k - 1, n) + NodeHopEffect(base, ids, p, k - 1, n)
  }

  function SumNodeEffect(base: Topology, ids: set<Scid>, ps: seq<Payment>, n: NodeId): int {
    if ps == [] then 0
    else
      var p := ps[|ps| - 1];
      SumNodeEffect(base, ids, ps[..|ps| - 1], n) + NodeEffect(base, ids, p, |p.indexes|, n)
  }

  // ---------- From sides of channels to nodes ----------

  /** The effect of all payments on what `n` owns of one channel. */
  function ShareEffect(base: Topology, ps: seq<Payment>, id: Scid, n: NodeId): int
    requires id in base
  {
    (if base[id].one.policy.node == n then SumEffect(base, ps, id, One) else 0)
    + (if base[id].two.policy.node == n then SumEffect(base, ps, id, Two) else 0)
  }

  /** The same for one payment. */
  function PaymentShareEffect(base: Topology, p: Payment, k: nat, id: Scid, n: NodeId): int
    requires id in base
  {
    (if base[id].one.policy.node == n then Effect(base, p, k, id, One) else 0)
    + (if base[id].two.policy.node == n then Effect(base, p, k, id, Two) else 0)
  }

  lemma HopOnOneMoreChannel(base: Topology, ids: set<Scid>, id: Scid, p: Payment, i: nat, n: NodeId)
    requires id in base && id !in ids && base[id].one.policy.node != base[id].two.policy.node
    ensures NodeHopEffect(base, ids + {id}, p, i, n)
         == NodeHopEffect(base, ids, p, i, n)
            + (if base[id].one.policy.node == n then HopEffect(base, p, i, id, One) else 0)
            + (if base[id].two.policy.node == n then HopEffect(base, p, i, id, Two) else 0)
  {
    if Placed(base, p, i) && p.route[i].scid == id {
      var w := PlaceOf(base, p, i).1;
      assert forall v: Who :: SentOn(base, p, i, id, v) <==> v == w;
      assert base[id].Get(w).policy.node == p.Sender(i);
    } else {
      assert forall v: Who :: !SentOn(base, p, i, id, v);
    }
  }

  lemma {:induction false} OneMoreChannel(base: Topology, ids: set<Scid>, id: Scid, p: Payment, k: nat, n: NodeId)
    requires id in base && id !in ids && base[id].one.policy.node != base[id].two.policy.node
    ensures NodeEffect(base, ids + {id}, p, k, n)
         == NodeEffect(base, ids, p, k, n) + PaymentShareEffect(base, p, k, id, n)
  {
    if k == 0 {
    } else {
      OneMoreChannel(base, ids, id, p, k - 1, n);
      HopOnOneMoreChannel(base, ids, id, p, k - 1, n);
    }
  }

  lemma {:induction false} SumOnOneMoreChannel(base: Topology, ids: set<Scid>, id: Scid, ps: seq<Payment>, n: NodeId)
    requires id in base && id !in ids && base[id].one.policy.node != base[id].two.policy.node
    ensures SumNodeEffect(base, ids + {id}, ps, n)
         == SumNodeEffect(base, ids, ps, n) + ShareEffect(base, ps, id, n)
  {
    if ps == [] {
    } else {
      var p := ps[|ps| - 1];
      SumOnOneMoreChannel(base, ids, id, ps[..|ps| - 1], n);
      OneMoreChannel(base, ids, id, p, |p.indexes|, n);
    }
  }

  lemma {:induction false} NoChannelNoEffect(base: Topology, p: Payment, k: nat, n: NodeId)
    ensures NodeEffect(base, {}, p, k, n) == 0
  {
    if k == 0 {
    } else {
      NoChannelNoEffect(base, p, k - 1, n);
    }
  }

  lemma {:induction false} NoChannelNoSum(base: Topology, ps: seq<Payment>, n: NodeId)
    ensures SumNodeEffect(base, {}, ps, n) == 0
  {
    if ps == [] {
    } else {
      NoChannelNoSum(base, ps[..|ps| - 1], n);
      NoChannelNoEffect(base, ps[|ps| - 1], |ps[|ps| - 1].indexes|, n);
    }
  }

  lemma {:induction false} WealthWithout(channels: Topology, ids: set<Scid>, n: NodeId, id: Scid)
    requires ids <= channels.Keys && id in ids
    ensures Wealth(channels, ids, n) == Share(channels[id], n) + Wealth(channels, ids - {id}, n)
    decreases |ids|
  {
    var d :| d in ids && Wealth(channels, ids, n) == Share(channels[d], n) + Wealth(channels, ids - {d}, n);
    if d != id {
      WealthWithout(channels, ids - {d}, n, id);
      WealthWithout(channels, ids - {id}, n, d);
      assert (ids - {d}) - {id} == (ids - {id}) - {d};
    }
  }

  /** By channels first, then by payments. */
  lemma {:induction false} WealthOver(base: Topology, s: State, ids: set<Scid>, n: NodeId)
    requires ChannelsOk(base, s.channels) && Ledger(base, s) && ids <= base.Keys
    ensures Wealth(s.channels, ids, n) == Wealth(base, ids, n) + SumNodeEffect(base, ids, s.payments, n)
    decreases |ids|
  {
    if ids == {} {
      NoChannelNoSum(base, s.payments, n);
    } else {
      var id :| id in ids;
      var rest := ids - {id};
      assert ids == rest + {id};
      WealthOver(base, s, rest, n);
      WealthWithout(s.channels, ids, n, id);
      WealthWithout(base, ids, n, id);
      ShareFollows(base, s, id, n);
      SumOnOneMoreChannel(base, rest, id, s.payments, n);
    }
  }

  lemma ShareFollows(base: Topology, s: State, id: Scid, n: NodeId)
    requires ChannelsOk(base, s.channels) && Ledger(base, s) && id in base
    ensures Share(s.channels[id], n) == Share(base[id], n) + ShareEffect(base, s.payments, id, n)
    ensures base[id].one.policy.node != base[id].two.policy.node
  {
    assert SameTerms(base[id], s.channels[id]) && ChannelOk(s.channels[id]);
    assert LocalAt(s.channels, id, One) == base[id].one.local + SumEffect(base, s.payments, id, One);
    assert LocalAt(s.channels, id, Two) == base[id].two.local + SumEffect(base, s.payments, id, Two);
  }

  /** In every reachable state each node owns, over all its channels, what it started with plus what the payments
      did to it. */
  lemma WealthEquation(base: Topology, s: State, n: NodeId)
    requires StartOk(base) && Reachable(base, s)
    ensures s.channels.Keys == base.Keys
    ensures Wealth(s.channels, base.Keys, n)
            == Wealth(base, base.Keys, n) + SumNodeEffect(base, base.Keys, s.payments, n)
  {
    ReachableInv(base, s);
    WealthOver(base, s, base.Keys, n);
  }

  // ---------- Telescoping ----------

  /** The channel of every hop leads to the node the route names, as in every route found on the graph. */
  predicate Connected(base: Topology, p: Payment) {
    forall i :: 0 <= i < |p.route| && Placed(base, p, i) ==> Peer(base, p, i) == p.route[i].node
  }

  /** The fees of the hops into `n` among the first `k`, the final value counting as the fee of the last one. */
  function FeesInto(p: Payment, k: nat, n: NodeId): nat
    requires k <= |p.route|
  {
    if k == 0 then 0 else FeesInto(p, k - 1, n) + if p.route[k - 1].node == n then p.route[k - 1].fee else 0
  }

  lemma {:induction false} Telescope(base: Topology, p: Payment, k: nat, n: NodeId)
    requires k <= |p.route| && Connected(base, p)
    requires forall i :: 0 <= i < k ==> Placed(base, p, i)
    requires p.phase.Locked() == 0 && p.phase.Settling()
    ensures NodeEffect(base, base.Keys, p, k, n)
         == FeesInto(p, k, n)
            - (if p.source == n then AmountAt(p.route, 0) else 0)
            + (if k == 0 then (if p.source == n then AmountAt(p.route, 0) else 0)
               else if p.route[k - 1].node == n then AmountAt(p.route, k) else 0)
  {
    if k == 0 {
    } else {
      Telescope(base, p, k - 1, n);
      assert Placed(base, p, k - 1);
    }
  }

  /** A successful payment over a connected route gives each node the fees of the hops into it, and takes the full
      amount from its source; all of it shifts between nodes, whether or not the route visits a node twice. */
  lemma SuccessShiftsWealth(base: Topology, cs: seq<Choice>, k: nat, n: NodeId)
    requires StartOk(base) && k < |Run(base, cs).payments| && !Stranded(base, cs, k)
    requires Run(base, cs).payments[k].phase.Ended? && Run(base, cs).payments[k].phase.result.Success?
    requires Connected(base, Run(base, cs).payments[k])
    ensures var p := Run(base, cs).payments[k];
            NodeEffect(base, base.Keys, p, |p.indexes|, n)
            == FeesInto(p, |p.route|, n) - if p.source == n then AmountAt(p.route, 0) else 0
  {
    RunKeepsInv(base, cs);
    StrandedIff(base, cs, k);
    var p := Run(base, cs).payments[k];
    assert TaskOk(base, Run(base, cs).channels, p);
    Telescope(base, p, |p.route|, n);
  }

  /** What a payment that has ended cleanly has shifted to node `n`. */
  function Shifted(p: Payment, n: NodeId): int {
    if p.phase.Settling() then FeesInto(p, |p.route|, n) - (if p.source == n then AmountAt(p.route, 0) else 0) else 0
  }

  function SumShifted(ps: seq<Payment>, n: NodeId): int {
    if ps == [] then 0 else SumShifted(ps[..|ps| - 1], n) + Shifted(ps[|ps| - 1], n)
  }

  lemma {:induction false} FailedShiftsNothing(base: Topology, p: Payment, k: nat, n: NodeId)
    requires p.phase.Locked() == 0 && !p.phase.Settling()
    ensures NodeEffect(base, base.Keys, p, k, n) == 0
  {
    if k == 0 {
    } else {
      FailedShiftsNothing(base, p, k - 1, n);
    }
  }

  lemma {:induction false} SumNodeEffectIsShifted(base: Topology, ps: seq<Payment>, n: NodeId)
    requires forall k :: 0 <= k < |ps| ==>
               NodeEffect(base, base.Keys, ps[k], |ps[k].indexes|, n) == Shifted(ps[k], n)
    ensures SumNodeEffect(base, base.Keys, ps, n) == SumShifted(ps, n)
  {
    if ps == [] {
    } else {
      SumNodeEffectIsShifted(base, ps[..|ps| - 1], n);
    }
  }

  lemma ShiftedWhenDone(base: Topology, cs: seq<Choice>, k: nat, n: NodeId)
    requires StartOk(base) && AllDone(base, cs) && k < |Run(base, cs).payments|
    requires Connected(base, Run(base, cs).payments[k])
    ensures var p := Run(base, cs).payments[k];
            NodeEffect(base, base.Keys, p, |p.indexes|, n) == Shifted(p, n)
  {
    var p := Run(base, cs).payments[k];
    if p.phase.result.Success? {
      SuccessShiftsWealth(base, cs, k, n);
    } else {
      DoneCleanly(base, cs, k);
      FailedShiftsNothing(base, p, |p.indexes|, n);
    }
  }

  /** When all payments are done, what a node owns is what it started with, plus the fees of the hops into it and less
      the full amounts it sent, over the successful payments. */
  lemma WealthWhenDone(base: Topology, cs: seq<Choice>, n: NodeId)
    requires StartOk(base) && AllDone(base, cs)
    requires forall k :: 0 <= k < |Run(base, cs).payments| ==> Connected(base, Run(base, cs).payments[k])
    ensures Run(base, cs).channels.Keys == base.Keys
    ensures Wealth(Run(base, cs).channels, base.Keys, n)
            == Wealth(base, base.Keys, n) + SumShifted(Run(base, cs).payments, n)
  {
    var s := Run(base, cs);
    WealthEquation(base, s, n);
    forall k | 0 <= k < |s.payments|
      ensures NodeEffect(base, base.Keys, s.payments[k], |s.payments[k].indexes|, n) == Shifted(s.payments[k], n) {
      ShiftedWhenDone(base, cs, k, n);
    }
    SumNodeEffectIsShifted(base, s.payments, n);
  }

  /** The source and the nodes of a route are pairwise different. */
  predicate Simple(p: Payment) {
    && (forall i :: 0 <= i < |p.route| ==> p.route[i].node != p.source)
    && (forall i, j :: 0 <= i < j < |p.route| ==> p.route[i].node != p.route[j].node)
  }

  lemma {:induction false} FeesIntoOne(p: Payment, k: nat, i: nat)
    requires k <= |p.route| && i < |p.route| && Simple(p)
    ensures FeesInto(p, k, p.route[i].node) == if i < k then p.route[i].fee else 0
  {
    if k == 0 {
    } else {
      FeesIntoOne(p, k - 1, i);
    }
  }

  lemma {:induction false} NoFeesInto(p: Payment, k: nat, n: NodeId)
    requires k <= |p.route| && forall i :: 0 <= i < k ==> p.route[i].node != n
    ensures FeesInto(p, k, n) == 0
  {
    if k == 0 {
    } else {
      NoFeesInto(p, k - 1, n);
    }
  }

  /** On a simple route the source loses the total, each forwarder gains exactly its fee, the destination the final
      value, and nobody else gains or loses. */
  lemma SimpleRouteGains(base: Topology, cs: seq<Choice>, k: nat, n: NodeId, i: nat)
    requires StartOk(base) && k < |Run(base, cs).payments| && !Stranded(base, cs, k)
    requires Run(base, cs).payments[k].phase.Ended? && Run(base, cs).payments[k].phase.result.Success?
    requires Connected(base, Run(base, cs).payments[k]) && Simple(Run(base, cs).payments[k])
    ensures var p := Run(base, cs).payments[k];
            var gain := NodeEffect(base, base.Keys, p, |p.indexes|, n);
            && (n == p.source ==> gain + AmountAt(p.route, 0) == 0)
            && (i < |p.route| && n == p.route[i].node ==> gain == p.route[i].fee)
            && (n != p.source && (forall j :: 0 <= j < |p.route| ==> n != p.route[j].node) ==> gain == 0)
  {
    var p := Run(base, cs).payments[k];
    SuccessShiftsWealth(base, cs, k, n);
    if i < |p.route| && n == p.route[i].node {
      FeesIntoOne(p, |p.route|, i);
    } else if forall j :: 0 <= j < |p.route| ==> n != p.route[j].node {
      NoFeesInto(p, |p.route|, n);
    }
  }

  // ---------- The network as a whole ----------

  predicate AllDifferent(ns: seq<NodeId>) {
    forall i, j :: 0 <= i < j < |ns| ==> ns[i] != ns[j]
  }

  /** What payment `p` did to the wealth of the nodes `ns`, all together. */
  function Gains(base: Topology, p: Payment, ns: seq<NodeId>): int {
    if ns == [] then 0
    else Gains(base, p, ns[..|ns| - 1]) + NodeEffect(base, base.Keys, p, |p.indexes|, ns[|ns| - 1])
  }

  function FeesOver(p: Payment, k: nat, ns: seq<NodeId>): nat
    requires k <= |p.route|
  {
    if ns == [] then 0 else FeesOver(p, k, ns[..|ns| - 1]) + FeesInto(p, k, ns[|ns| - 1])
  }

  lemma {:induction false} FeesOverHop(p: Payment, k: nat, ns: seq<NodeId>)
    requires 0 < k <= |p.route| && AllDifferent(ns)
    ensures FeesOver(p, k, ns) == FeesOver(p, k - 1, ns) + if p.route[k - 1].node in ns then p.route[k - 1].fee else 0
    decreases |ns|
  {
    if ns == [] {
    } else {
      FeesOverHop(p, k, ns[..|ns| - 1]);
      assert ns == ns[..|ns| - 1] + [ns[|ns| - 1]];
    }
  }

  lemma {:induction false} NoHopsNoFees(p: Payment, ns: seq<NodeId>)
    ensures FeesOver(p, 0, ns) == 0
  {
    if ns == [] {
    } else {
      NoHopsNoFees(p, ns[..|ns| - 1]);
    }
  }

  /** Everything the source gives away arrives at the nodes of the route. */
  lemma {:induction false} FeesAddUp(p: Payment, k: nat, ns: seq<NodeId>)
    requires k <= |p.route| && AllDifferent(ns) && forall i :: 0 <= i < k ==> p.route[i].node in ns
    ensures FeesOver(p, k, ns) + AmountAt(p.route, k) == AmountAt(p.route, 0)
  {
    if k == 0 {
      NoHopsNoFees(p, ns);
    } else {
      FeesAddUp(p, k - 1, ns);
      FeesOverHop(p, k, ns);
    }
  }

  lemma {:induction false} GainsByFees(base: Topology, p: Payment, ns: seq<NodeId>)
    requires AllDifferent(ns)
    requires forall n :: n in ns ==>
               NodeEffect(base, base.Keys, p, |p.indexes|, n)
               == FeesInto(p, |p.route|, n) - if p.source == n then AmountAt(p.route, 0) else 0
    ensures Gains(base, p, ns) == FeesOver(p, |p.route|, ns) - if p.source in ns then AmountAt(p.route, 0) else 0
  {
    if ns == [] {
    } else {
      assert ns == ns[..|ns| - 1] + [ns[|ns| - 1]];
      GainsByFees(base, p, ns[..|ns| - 1]);
    }
  }

  /** A successful payment changes nothing for any set of nodes that holds its source and its route: what some gain
      others lose. */
  lemma NetworkWealthUnchanged(base: Topology, cs: seq<Choice>, k: nat, ns: seq<NodeId>)
    requires StartOk(base) && k < |Run(base, cs).payments| && !Stranded(base, cs, k)
    requires Run(base, cs).payments[k].phase.Ended? && Run(base, cs).payments[k].phase.result.Success?
    requires Connected(base, Run(base, cs).payments[k])
    requires AllDifferent(ns) && Run(base, cs).payments[k].source in ns
    requires forall i :: 0 <= i < |Run(base, cs).payments[k].route| ==> Run(base, cs).payments[k].route[i].node in ns
    ensures Gains(base, Run(base, cs).payments[k], ns) == 0
  {
    var p := Run(base, cs).payments[k];
    forall n | n in ns ensures NodeEffect(base, base.Keys, p, |p.indexes|, n)
               == FeesInto(p, |p.route|, n) - if p.source == n then AmountAt(p.route, 0) else 0 {
      SuccessShiftsWealth(base, cs, k, n);
    }
    GainsByFees(base, p, ns);
    FeesAddUp(p, |p.route|, ns);
  }
}

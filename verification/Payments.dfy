/** Routes and the progress of one payment over its route. */
module Payments {
  import opened Types
  import opened Channel

  /** One hop: the channel used, the node it leads to, that node's fee (or, at the last hop, the final value)
      and its expiry delta. */
  datatype Hop = Hop(node: NodeId, scid: Scid, fee: U64, cltvDelta: U32)

  /** What is locked at hop `i`: everything still to be paid from there on. */
  function AmountAt(r: seq<Hop>, i: nat): nat
    requires i <= |r|
    decreases |r| - i
  {
    if i == |r| then 0 else r[i].fee + AmountAt(r, i + 1)
  }

  function CltvAt(r: seq<Hop>, i: nat): nat
    requires i <= |r|
    decreases |r| - i
  {
    if i == |r| then 0 else r[i].cltvDelta + CltvAt(r, i + 1)
  }

  predicate RouteOk(r: seq<Hop>) {
    |r| > 0 && AmountAt(r, 0) <= U64_MAX && CltvAt(r, 0) <= U32_MAX
  }

  /** Any non-empty hop sequence whose sums fit the source's integers. */
  type Route = r: seq<Hop> | RouteOk(r) witness [Hop(0, 0, 0, 0)]

  datatype PaymentOutcome = Success | IndexFailure(index: nat) | Unknown

  /** Where the task of a payment stands. The two phases `Adding` and `Removing` wait for the lock on the
      graph; in the other two it is free, while interceptors are asked or told about a hop. */
  datatype Phase =
    | Adding(hop: nat)
    | Intercepting(hop: nat)
    | Removing(hop: nat, result: PaymentOutcome)
    | Notifying(hop: nat, result: PaymentOutcome)
    | Ended(result: PaymentOutcome, left: nat)
  {
    /** How many hops of the route, counted from the source, are locked. */
    function Locked(): nat {
      match this
      case Adding(i) => i
      case Intercepting(i) => i + 1
      case Removing(i, _) => i + 1
      case Notifying(i, _) => i
      case Ended(_, left) => left
    }

    /** Whether hops that are no longer locked were settled, rather than failed back. */
    predicate Settling() {
      (Removing? || Notifying? || Ended?) && result.Success?
    }
  }

  /** A resolution reported to the interceptors. */
  datatype Notice = Notice(forwardingNode: NodeId, incoming: Scid, index: nat, outgoing: Option<Scid>, success: bool)

  /** A payment in progress: what was asked, the phase of its task, the index `add_htlc` handed out for each
      hop added so far, and the resolutions reported so far. */
  datatype Payment = Payment(
    source: NodeId,
    route: Route,
    hash: Hash,
    phase: Phase,
    indexes: seq<nat>,
    notices: seq<Notice>)
  {
    /** The node that sends the HTLC of hop `i`. */
    function Sender(i: nat): NodeId
      requires i < |route|
    {
      if i == 0 then source else route[i - 1].node
    }

    function HtlcAt(i: nat): Htlc
      requires i < |route|
    {
      Htlc(AmountAt(route, i), CltvAt(route, i))
    }
  }

  // ---------- Effects on balances ----------

  /** The terms of every channel; `Places` looks only at which node is on which side. */
  type Topology = map<Scid, Chan>

  /** Whether hop `i` of `p` is sent by side `w` of channel `id`. */
  predicate SentOn(base: Topology, p: Payment, i: nat, id: Scid, w: Who) {
    i < |p.route| && p.route[i].scid == id && id in base && base[id].SideOf(p.Sender(i)) == Some(w)
  }

  /** What hop `i`, once added, has done to the local balance of side `w` of channel `id`. */
  function HopEffect(base: Topology, p: Payment, i: nat, id: Scid, w: Who): int {
    var amount: int := if i < |p.route| then AmountAt(p.route, i) else 0;
    if i < p.phase.Locked() then
      if SentOn(base, p, i, id, w) then -amount else 0
    else if p.phase.Settling() then
      if SentOn(base, p, i, id, w) then -amount
      else if SentOn(base, p, i, id, w.Other()) then amount
      else 0
    else 0
  }

  /** The same for the first `n` hops. */
  function Effect(base: Topology, p: Payment, n: nat, id: Scid, w: Who): int {
    if n == 0 then 0 else Effect(base, p, n - 1, id, w) + HopEffect(base, p, n - 1, id, w)
  }

  /** The effect of all payments on side `w` of channel `id`. */
  function SumEffect(base: Topology, ps: seq<Payment>, id: Scid, w: Who): int {
    if ps == [] then 0
    else
      var p := ps[|ps| - 1];
      SumEffect(base, ps[..|ps| - 1], id, w) + Effect(base, p, |p.indexes|, id, w)
  }

  lemma {:induction false} SuffixBounds(r: seq<Hop>, i: nat)
    requires i <= |r|
    ensures AmountAt(r, i) <= AmountAt(r, 0) && CltvAt(r, i) <= CltvAt(r, 0)
  {
    if i == 0 {
    } else {
      SuffixBounds(r, i - 1);
    }
  }

  /** Payments whose hops have the same effect one by one have the same effect. */
  lemma {:induction false} EffectExtensional(base: Topology, p: Payment, q: Payment, n: nat, id: Scid, w: Who)
    requires forall i :: 0 <= i < n ==> HopEffect(base, p, i, id, w) == HopEffect(base, q, i, id, w)
    ensures Effect(base, p, n, id, w) == Effect(base, q, n, id, w)
  {
    if n == 0 {
    } else {
      EffectExtensional(base, p, q, n - 1, id, w);
    }
  }

  /** Changing one payment changes the sum by the change of its own effect. */
  lemma {:induction false} SumEffectUpdate(base: Topology, ps: seq<Payment>, k: nat, q: Payment, id: Scid, w: Who)
    requires k < |ps|
    ensures SumEffect(base, ps[k := q], id, w)
         == SumEffect(base, ps, id, w)
            - Effect(base, ps[k], |ps[k].indexes|, id, w) + Effect(base, q, |q.indexes|, id, w)
  {
    var last := |ps| - 1;
    if k == last {
      assert ps[k := q][..last] == ps[..last];
    } else {
      SumEffectUpdate(base, ps[..last], k, q, id, w);
      assert ps[k := q][..last] == ps[..last][k := q];
    }
  }
}

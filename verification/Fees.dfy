/** What forwarders are owed along a route. */
module Fees {
  import opened Channel
  import opened Payments
  import opened Network
  import opened Invariant
  import opened Preservation

  /** The floored fee grows with the amount. */
  lemma FeeMonotone(p: Policy, a: nat, b: nat)
    requires a <= b
    ensures PolicyFee(p, a) <= PolicyFee(p, b)
  {
    assert a * p.feeRateProp <= b * p.feeRateProp;
  }

  /** The policy hop `i` has to satisfy: that of the sender of hop `i + 1` on the channel of hop `i + 1`. */
  function NextPolicy(base: Topology, p: Payment, i: nat): Policy
    requires Placed(base, p, i + 1)
  {
    var (id, w) := PlaceOf(base, p, i + 1);
    base[id].Get(w).policy
  }

  /** The final value compounded backwards through the policy of every forwarder after hop `i`: the least that must
      be locked at hop `i` for each of them to earn its fee. */
  function Compounded(base: Topology, p: Payment, i: nat): nat
    requires i < |p.route| && forall j :: i < j < |p.route| ==> Placed(base, p, j)
    decreases |p.route| - i
  {
    if i + 1 == |p.route| then p.route[i].fee
    else
      var next := Compounded(base, p, i + 1);
      next + PolicyFee(NextPolicy(base, p, i), next)
  }

  /** The final delta plus the delta of every forwarder after hop `i`. */
  function CompoundedCltv(base: Topology, p: Payment, i: nat): nat
    requires i < |p.route| && forall j :: i < j < |p.route| ==> Placed(base, p, j)
    decreases |p.route| - i
  {
    if i + 1 == |p.route| then p.route[i].cltvDelta
    else CompoundedCltv(base, p, i + 1) + NextPolicy(base, p, i).cltvDelta
  }

  lemma {:induction false} LockedCoversPolicies(base: Topology, p: Payment, i: nat)
    requires i < |p.route| && forall j :: 0 <= j < |p.route| ==> Placed(base, p, j)
    requires forall j {:trigger Forwardable(base, p, j)} :: 0 <= j && j + 1 < |p.route| ==> Forwardable(base, p, j)
    ensures AmountAt(p.route, i) >= Compounded(base, p, i)
    ensures CltvAt(p.route, i) >= CompoundedCltv(base, p, i)
    decreases |p.route| - i
  {
    if i + 1 < |p.route| {
      LockedCoversPolicies(base, p, i + 1);
      assert Forwardable(base, p, i);
      FeeMonotone(NextPolicy(base, p, i), Compounded(base, p, i + 1), AmountAt(p.route, i + 1));
    }
  }

  /** Whenever a payment has locked its whole route, at whatever time and amid whatever other payments, what it
      locked at each hop covers the final value compounded through all later forwarders, and likewise its expiry. */
  lemma WholeRouteCoversPolicies(base: Topology, cs: seq<Choice>, k: nat, i: nat)
    requires StartOk(base) && k < |Run(base, cs).payments|
    requires |Run(base, cs).payments[k].indexes| == |Run(base, cs).payments[k].route|
    requires i < |Run(base, cs).payments[k].route|
    ensures var p := Run(base, cs).payments[k];
            && (forall j :: 0 <= j < |p.route| ==> Placed(base, p, j))
            && AmountAt(p.route, i) >= Compounded(base, p, i)
            && CltvAt(p.route, i) >= CompoundedCltv(base, p, i)
  {
    RunKeepsInv(base, cs);
    var p := Run(base, cs).payments[k];
    assert TaskOk(base, Run(base, cs).channels, p);
    LockedCoversPolicies(base, p, i);
  }
}

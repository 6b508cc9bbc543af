/** `ChannelState` and `SimulatedChannel`, updating their fields in place. Balances and totals are u64: that the
    methods verify means that none of their sums and differences leaves its range. */
module SimChannel {
  import opened Types
  import C = Channel
  import opened ChannelProofs

  /** The sums that an addition forms on a side stay in u64, whatever the state of the channel. */
  ghost predicate SideFits(s: C.Side) {
    |s.inFlight| < U64_MAX && C.Total(s.inFlight) + s.policy.maxHtlcSize <= U64_MAX
  }

  class ChannelState {
    var localBalance: U64
    var inFlight: C.InFlight
    const policy: C.Policy
    var index: nat

    constructor (policy: C.Policy, localBalance: U64)
      ensures View() == C.Side(localBalance, map[], policy, 0)
    {
      this.policy := policy;
      this.localBalance := localBalance;
      this.inFlight := map[];
      this.index := 0;
    }

    function View(): C.Side
      reads this
    {
      C.Side(localBalance, inFlight, policy, index)
    }

    /** The sum of all HTLCs in flight, visited in no particular order. */
    method InFlightTotal() returns (total: U64)
      requires C.Total(inFlight) <= U64_MAX
      ensures total == C.Total(inFlight)
    {
      total := 0;
      var rest := inFlight;
      while rest != map[]
        invariant total + C.Total(rest) == C.Total(inFlight)
        decreases |rest|
      {
        var hash :| hash in rest;
        C.TotalWithout(rest, hash);
        total := total + rest[hash].htlc.amount;
        rest := rest - {hash};
      }
    }

    method CheckHtlcForward(cltvDelta: U32, amount: U64, fee: U64) returns (r: Outcome<()>)
      ensures r == C.CheckForward(policy, cltvDelta, amount, fee)
    {
      if cltvDelta < policy.cltvDelta {
        return Refused(InsufficientCltvDelta(cltvDelta, policy.cltvDelta));
      }
      var product := amount * policy.feeRateProp;
      if product > U64_MAX || product / 1000000 + policy.baseFee > U64_MAX {
        return Critical(FeeOverflow(amount, policy.baseFee, policy.feeRateProp));
      }
      var expectedFee: U64 := product / 1000000 + policy.baseFee;
      if fee < expectedFee {
        return Refused(InsufficientFee(fee, policy.baseFee, policy.feeRateProp, expectedFee));
      }
      return Accepted(());
    }

    method CheckOutgoingAddition(htlc: C.Htlc, peer: C.Policy) returns (r: Option<ForwardingError>)
      requires SideFits(View())
      ensures r == C.CheckAddition(View(), htlc, peer)
    {
      if htlc.amount > policy.maxHtlcSize { return Some(MoreThanMaximum(htlc.amount, policy.maxHtlcSize)); }
      if htlc.amount < policy.minHtlcSize { return Some(LessThanMinimum(htlc.amount, policy.minHtlcSize)); }
      var count: U64 := |inFlight| + 1;
      if count > peer.maxHtlcCount { return Some(ExceedsInFlightCount(count, peer.maxHtlcCount)); }
      var inFlightTotal := InFlightTotal();
      var total: U64 := inFlightTotal + htlc.amount;
      if total > peer.maxInFlight { return Some(ExceedsInFlightTotal(total, peer.maxInFlight)); }
      if htlc.amount > localBalance { return Some(InsufficientBalance(htlc.amount, localBalance)); }
      if htlc.cltv > C.BLOCK_HEIGHT_LIMIT { return Some(ExpiryInSeconds(htlc.cltv, C.BLOCK_HEIGHT_LIMIT)); }
      return None;
    }

    method AddOutgoingHtlc(hash: Hash, htlc: C.Htlc, peer: C.Policy) returns (r: Outcome<nat>)
      requires SideFits(View())
      modifies this
      ensures (View(), r) == C.AddOutgoing(old(View()), hash, htlc, peer)
    {
      var refusal := CheckOutgoingAddition(htlc, peer);
      if refusal.Some? { return Refused(refusal.value); }
      if hash in inFlight { return Critical(PaymentHashExists(hash)); }
      var given := index;
      index := index + 1;
      localBalance := localBalance - htlc.amount;
      inFlight := inFlight[hash := C.Held(htlc, given)];
      return Accepted(given);
    }

    method RemoveOutgoingHtlc(hash: Hash) returns (r: Outcome<C.Held>)
      modifies this
      ensures hash in old(inFlight) ==>
                r == Accepted(old(inFlight)[hash]) && View() == old(View()).(inFlight := old(inFlight) - {hash})
      ensures hash !in old(inFlight) ==> r == Critical(PaymentHashNotFound(hash)) && View() == old(View())
    {
      if hash !in inFlight { return Critical(PaymentHashNotFound(hash)); }
      r := Accepted(inFlight[hash]);
      inFlight := inFlight - {hash};
    }

    method SettleOutgoingHtlc(amount: nat, success: bool)
      requires !success ==> localBalance + amount <= U64_MAX
      modifies this
      ensures View() == old(View()).(local := old(localBalance) + if success then 0 else amount)
    {
      if !success { localBalance := localBalance + amount; }
    }

    method SettleIncomingHtlc(amount: nat, success: bool)
      requires success ==> localBalance + amount <= U64_MAX
      modifies this
      ensures View() == old(View()).(local := old(localBalance) + if success then amount else 0)
    {
      if success { localBalance := localBalance + amount; }
    }
  }

  /** HTLCs of positive amount are at most as many as their total. */
  lemma {:induction false} CountBelowTotal(m: C.InFlight)
    requires forall h :: h in m ==> 0 < m[h].htlc.amount
    ensures |m| <= C.Total(m)
    decreases |m|
  {
    if m == map[] {
    } else {
      var h :| h in m;
      C.TotalWithout(m, h);
      CountBelowTotal(m - {h});
      assert m == (m - {h})[h := m[h]];
    }
  }

  /** A side in good order has room in u64. */
  lemma OrderFits(s: C.Side, peer: C.Policy, capacity: nat)
    requires C.SideOk(s, peer) && C.PolicyFits(s.policy, capacity) && C.PolicyFits(peer, capacity)
    requires capacity < 0x8000_0000_0000_0000
    ensures SideFits(s)
  {
    CountBelowTotal(s.inFlight);
  }

  /** Settling an HTLC in flight takes no balance beyond what the channel holds. */
  lemma SettlementFits(c: C.Chan, w: C.Who, h: Hash)
    requires 0 <= c.one.local && 0 <= c.two.local && h in c.Get(w).inFlight
    ensures c.one.local + c.Get(w).inFlight[h].htlc.amount <= C.Holdings(c)
    ensures c.two.local + c.Get(w).inFlight[h].htlc.amount <= C.Holdings(c)
  {
    C.TotalWithout(c.Get(w).inFlight, h);
  }

  /** Settling moves value within the channel. */
  lemma SettleKeepsHoldings(c: C.Chan, w: C.Who, h: Hash, success: bool)
    requires h in c.Get(w).inFlight
    ensures C.Holdings(C.Settle(c, w, h, success)) == C.Holdings(c)
  {
    C.TotalWithout(c.Get(w).inFlight, h);
  }

  lemma BothSidesEqual(c: C.Chan, d: C.Chan, w: C.Who)
    requires c.capacity == d.capacity && c.scid == d.scid && c.excluded == d.excluded
    requires c.Get(w) == d.Get(w) && c.Get(w.Other()) == d.Get(w.Other())
    ensures c == d
  {
  }

  /** A view whose sides are those of a settled channel is the settled channel. */
  lemma SettledView(before: C.Chan, view: C.Chan, w: C.Who, h: Hash, success: bool)
    requires h in before.Get(w).inFlight
    requires view.capacity == before.capacity && view.scid == before.scid && view.excluded == before.excluded
    requires view.Get(w) == C.Settle(before, w, h, success).Get(w)
    requires view.Get(w.Other()) == C.Settle(before, w, h, success).Get(w.Other())
    ensures view == C.Settle(before, w, h, success) && C.Holdings(view) == C.Holdings(before)
    ensures C.ChannelOk(before) ==> C.ChannelOk(view)
  {
    SettleSides(before, w, h, success);
    BothSidesEqual(view, C.Settle(before, w, h, success), w);
    SettleKeepsHoldings(before, w, h, success);
    if C.ChannelOk(before) { SettleKeepsOrder(before, w, h, success); }
  }

  class SimulatedChannel {
    const capacity: U64
    const scid: Scid
    const node1: ChannelState
    const node2: ChannelState
    const excluded: bool

    constructor (capacity: U64, scid: Scid, one: C.Policy, two: C.Policy, excluded: bool)
      ensures View() == C.NewChannel(capacity, scid, one, two, excluded)
      ensures node1 != node2 && fresh(node1) && fresh(node2)
      ensures Fits() && (C.Validated(View()) && capacity % 2 == 0 ==> Valid())
    {
      this.capacity := capacity;
      this.scid := scid;
      this.excluded := excluded;
      node1 := new ChannelState(one, capacity / 2);
      node2 := new ChannelState(two, capacity / 2);
    }

    function View(): C.Chan
      reads node1, node2
    {
      C.Chan(capacity, scid, node1.View(), node2.View(), excluded)
    }

    ghost predicate Valid()
      reads node1, node2
    {
      node1 != node2 && C.ChannelOk(View())
    }

    /** No sum over the channel leaves u64. This holds of channels in good order and of many others, such as new ones
        of odd capacity. */
    ghost predicate Fits()
      reads node1, node2
    {
      && node1 != node2 && C.Holdings(View()) <= U64_MAX
      && SideFits(node1.View()) && SideFits(node2.View())
    }

    lemma ValidFits()
      requires Valid()
      ensures Fits()
    {
      OrderFits(node1.View(), node2.policy, capacity);
      OrderFits(node2.View(), node1.policy, capacity);
    }

    function State(w: C.Who): ChannelState {
      if w.One? then node1 else node2
    }

    /** `get_node`: the side a node is on. */
    function SideOf(n: NodeId): (w: Option<C.Who>)
      reads node1, node2
      ensures w == View().SideOf(n)
    {
      if n == node1.policy.node then Some(C.One)
      else if n == node2.policy.node then Some(C.Two)
      else None
    }

    method SanityCheck() returns (r: Option<CriticalError>)
      requires C.Holdings(View()) <= U64_MAX
      ensures r == C.SanityCheck(View())
    {
      var inFlight1 := node1.InFlightTotal();
      var total1: U64 := node1.localBalance + inFlight1;
      var inFlight2 := node2.InFlightTotal();
      var total2: U64 := node2.localBalance + inFlight2;
      var balance: U64 := total1 + total2;
      if balance != capacity { return Some(SanityCheckFailed(balance, capacity)); }
      return None;
    }

    method AddHtlc(sender: NodeId, hash: Hash, htlc: C.Htlc) returns (r: Outcome<nat>)
      requires Fits()
      modifies node1, node2
      ensures (View(), r) == C.AddHtlc(old(View()), sender, hash, htlc)
      ensures old(Valid()) ==> Valid()
    {
      if C.ChannelOk(View()) { AddHtlcEffect(View(), sender, hash, htlc); }
      if htlc.amount == 0 { return Critical(ZeroAmountHtlc); }
      var insane := SanityCheck();
      match insane
      case Some(e) => return Critical(e);
      case None =>
      if sender == node1.policy.node {
        r := node1.AddOutgoingHtlc(hash, htlc, node2.policy);
      } else if sender == node2.policy.node {
        r := node2.AddOutgoingHtlc(hash, htlc, node1.policy);
      } else {
        r := Critical(NodeNotFound(sender));
      }
    }

    /** `settle_htlc`: a success credits the peer of the sender, a failure the sender. */
    method SettleHtlc(sender: NodeId, amount: nat, success: bool) returns (r: Outcome<()>)
      requires node1 != node2
      requires node1.localBalance + amount <= U64_MAX && node2.localBalance + amount <= U64_MAX
      modifies node1, node2
      ensures match old(View()).SideOf(sender)
              case None => r == Critical(NodeNotFound(sender)) && View() == old(View())
              case Some(w) =>
                && r == Accepted(())
                && View().Get(w)
                   == old(View()).Get(w).(local := old(View()).Get(w).local + if success then 0 else amount)
                && View().Get(w.Other())
                   == old(View()).Get(w.Other()).(
                        local := old(View()).Get(w.Other()).local + if success then amount else 0)
    {
      if sender == node1.policy.node {
        node1.SettleOutgoingHtlc(amount, success);
        node2.SettleIncomingHtlc(amount, success);
      } else if sender == node2.policy.node {
        node2.SettleOutgoingHtlc(amount, success);
        node1.SettleIncomingHtlc(amount, success);
      } else {
        return Critical(NodeNotFound(sender));
      }
      return Accepted(());
    }

    method RemoveHtlc(sender: NodeId, hash: Hash, success: bool) returns (r: Outcome<C.Held>)
      requires node1 != node2 && C.Holdings(View()) <= U64_MAX
      modifies node1, node2
      ensures (View(), r) == C.RemoveHtlc(old(View()), sender, hash, success)
      ensures old(Valid()) ==> Valid()
    {
      ghost var before := View();
      var w := SideOf(sender);
      if w.None? { return Critical(NodeNotFound(sender)); }
      var removed := State(w.value).RemoveOutgoingHtlc(hash);
      if removed.Critical? { return Critical(removed.error); }
      assert View() == before.Set(w.value, before.Get(w.value).(inFlight := before.Get(w.value).inFlight - {hash}));
      SettlementFits(before, w.value, hash);
      var settled := SettleHtlc(sender, removed.value.htlc.amount, success);
      SettledView(before, View(), w.value, hash, success);
      var insane := SanityCheck();
      match insane
      case Some(e) => return Critical(e);
      case None =>
      return Accepted(removed.value);
    }

    method CheckHtlcForward(forwarder: NodeId, cltvDelta: U32, amount: U64, fee: U64) returns (r: Outcome<()>)
      ensures r == match View().SideOf(forwarder)
                   case None => Critical(NodeNotFound(forwarder))
                   case Some(w) => C.CheckForward(View().Get(w).policy, cltvDelta, amount, fee)
    {
      if forwarder == node1.policy.node {
        r := node1.CheckHtlcForward(cltvDelta, amount, fee);
      } else if forwarder == node2.policy.node {
        r := node2.CheckHtlcForward(cltvDelta, amount, fee);
      } else {
        r := Critical(NodeNotFound(forwarder));
      }
    }
  }
}

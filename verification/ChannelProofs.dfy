/** Facts about single channel operations. */
module ChannelProofs {
  import opened Types
  import opened Channel

  /** An addition passes exactly when every limit of both parties allows it. */
  lemma AdditionPassesIff(s: Side, x: Htlc, peer: Policy)
    ensures CheckAddition(s, x, peer) == None <==>
              && s.policy.minHtlcSize <= x.amount <= s.policy.maxHtlcSize
              && |s.inFlight| < peer.maxHtlcCount
              && Total(s.inFlight) + x.amount <= peer.maxInFlight
              && x.amount <= s.local
              && x.cltv <= BLOCK_HEIGHT_LIMIT
  {
  }

  /** The limits that both parties set on side `w` allow `x`. */
  ghost predicate Allowed(c: Chan, w: Who, x: Htlc) {
    var s, peer := c.Get(w), c.Get(w.Other()).policy;
    && s.policy.minHtlcSize <= x.amount <= s.policy.maxHtlcSize
    && |s.inFlight| + 1 <= peer.maxHtlcCount
    && Total(s.inFlight) + x.amount <= peer.maxInFlight
    && x.amount <= s.local
    && x.cltv <= BLOCK_HEIGHT_LIMIT
  }

  /** The HTLC gets as far as the limits of side `w`, which is that of node `n`. */
  ghost predicate Considered(c: Chan, n: NodeId, x: Htlc, w: Who) {
    x.amount > 0 && Holdings(c) == c.capacity && c.Get(w).policy.node == n
    && (w.Two? ==> c.one.policy.node != n)
  }

  /** Every answer of an addition, on every channel: an HTLC is accepted if and only if it has an amount, the channel
      holds its capacity, the sender is one of its ends, all limits allow it and its hash is not in flight on that
      side; it is refused if and only if a limit is broken where the rest is met; its hash is reported if and only if
      only that stands in the way; and each of the other errors has its own cause. */
  lemma AdditionAnswers(c: Chan, n: NodeId, h: Hash, x: Htlc)
    ensures var r := AddHtlc(c, n, h, x).1;
            && (r.Accepted? <==> exists w :: Considered(c, n, x, w) && Allowed(c, w, x) && h !in c.Get(w).inFlight)
            && (r == Critical(PaymentHashExists(h))
                <==> exists w :: Considered(c, n, x, w) && Allowed(c, w, x) && h in c.Get(w).inFlight)
            && (r.Refused? <==> exists w :: Considered(c, n, x, w) && !Allowed(c, w, x))
            && (r == Critical(ZeroAmountHtlc) <==> x.amount == 0)
            && (r == Critical(SanityCheckFailed(Holdings(c), c.capacity))
                <==> x.amount > 0 && Holdings(c) != c.capacity)
            && (r == Critical(NodeNotFound(n))
                <==> x.amount > 0 && Holdings(c) == c.capacity && c.one.policy.node != n && c.two.policy.node != n)
  {
    if x.amount > 0 && Holdings(c) == c.capacity {
      if c.one.policy.node == n {
        assert Considered(c, n, x, One);
        AdditionPassesIff(c.one, x, c.two.policy);
      } else if c.two.policy.node == n {
        assert Considered(c, n, x, Two);
        AdditionPassesIff(c.two, x, c.one.policy);
      }
    }
  }

  /** What an addition does, on every channel: nothing unless it is accepted, and then it takes the amount from the
      balance of the sender's side, adds the entry under the index handed out and moves the counter on. */
  lemma AdditionEffect(c: Chan, n: NodeId, h: Hash, x: Htlc, w: Who)
    requires Considered(c, n, x, w)
    ensures var (c', r) := AddHtlc(c, n, h, x);
            && c'.Get(w.Other()) == c.Get(w.Other()) && SameTerms(c, c')
            && (!r.Accepted? ==> c' == c)
            && (r.Accepted? ==>
                 && r.value == c.Get(w).index && c'.Get(w).index == r.value + 1
                 && c'.Get(w).local == c.Get(w).local - x.amount
                 && c'.Get(w).inFlight == c.Get(w).inFlight[h := Held(x, r.value)])
  {
  }

  /** Which limit a refusal names: the first that is broken, sizes before counts before totals before the balance
      before the expiry, with the values compared. */
  lemma RefusalNames(c: Chan, w: Who, h: Hash, x: Htlc)
    requires x.amount > 0 && Holdings(c) == c.capacity && c.one.policy.node != c.two.policy.node
    ensures var s, peer := c.Get(w), c.Get(w.Other()).policy;
            var count, total := |s.inFlight| + 1, Total(s.inFlight) + x.amount;
            match AddHtlc(c, s.policy.node, h, x).1
            case Refused(MoreThanMaximum(a, m)) => a == x.amount > m == s.policy.maxHtlcSize
            case Refused(LessThanMinimum(a, m)) => a == x.amount < m == s.policy.minHtlcSize
            case Refused(ExceedsInFlightCount(a, m)) =>
              a == count > m == peer.maxHtlcCount && s.policy.minHtlcSize <= x.amount <= s.policy.maxHtlcSize
            case Refused(ExceedsInFlightTotal(a, m)) => a == total > m == peer.maxInFlight && count <= peer.maxHtlcCount
            case Refused(InsufficientBalance(a, m)) => a == x.amount && m == s.local < a && total <= peer.maxInFlight
            case Refused(ExpiryInSeconds(a, m)) => a == x.cltv > m == BLOCK_HEIGHT_LIMIT && x.amount <= s.local
            case Refused(_) => false
            case _ => true
  {
  }

  /** Every answer of a removal, on every channel. */
  lemma RemovalAnswers(c: Chan, w: Who, h: Hash, success: bool)
    requires c.one.policy.node != c.two.policy.node
    ensures var s, r := c.Get(w), RemoveHtlc(c, c.Get(w).policy.node, h, success).1;
            && (r.Accepted? <==> h in s.inFlight && Holdings(c) == c.capacity)
            && (r.Accepted? ==> r.value == s.inFlight[h])
            && (r == Critical(PaymentHashNotFound(h)) <==> h !in s.inFlight)
            && (r == Critical(SanityCheckFailed(Holdings(c), c.capacity))
                <==> h in s.inFlight && Holdings(c) != c.capacity)
    ensures forall n :: n != c.one.policy.node && n != c.two.policy.node ==>
              RemoveHtlc(c, n, h, success) == (c, Critical(NodeNotFound(n)))
  {
    if h in c.Get(w).inFlight {
      TotalWithout(c.Get(w).inFlight, h);
      SettleSides(c, w, h, success);
    }
  }

  /** What a removal does, on every channel: the entry leaves the sender's side, and its amount goes to the peer on a
      success and back to the sender otherwise; nothing happens when there is no such entry. */
  lemma RemovalEffect(c: Chan, w: Who, h: Hash, success: bool)
    requires c.one.policy.node != c.two.policy.node
    ensures var s, peer, c' := c.Get(w), c.Get(w.Other()), RemoveHtlc(c, c.Get(w).policy.node, h, success).0;
            if h !in s.inFlight then c' == c
            else
              var amount := s.inFlight[h].htlc.amount;
              && SameTerms(c, c') && c'.Get(w).index == s.index && c'.Get(w.Other()).index == peer.index
              && c'.Get(w).inFlight == s.inFlight - {h} && c'.Get(w.Other()).inFlight == peer.inFlight
              && c'.Get(w).local == s.local + (if success then 0 else amount)
              && c'.Get(w.Other()).local == peer.local + if success then amount else 0
  {
    if h in c.Get(w).inFlight { SettleSides(c, w, h, success); }
  }

  // ---------- Fees ----------

  /** The fee is what "HTLC Fees" of BOLT #7 asks for: the base fee and the proportional part of a million, rounded
      down. */
  lemma FeeIs(p: Policy, amount: nat)
    ensures var f := PolicyFee(p, amount) - p.baseFee;
            0 <= f && 1000000 * f <= amount * p.feeRateProp < 1000000 * (f + 1)
  {
  }

  /** The product of an amount and the proportional rate. */
  function Rated(p: Policy, amount: nat): nat {
    amount * p.feeRateProp
  }

  /** `fee` covers the base fee and the rated amount's part of a million, rounded down. */
  predicate Pays(p: Policy, rated: nat, fee: int) {
    fee >= p.baseFee && 1000000 * (fee - p.baseFee + 1) > rated
  }

  /** No u64 overflows when the fee is worked out: neither the product nor the sum. */
  predicate FeeFits(p: Policy, rated: nat) {
    rated <= U64_MAX && Pays(p, rated, U64_MAX)
  }

  lemma PaysIff(p: Policy, amount: nat, fee: int)
    ensures Pays(p, Rated(p, amount), fee) <==> fee >= PolicyFee(p, amount)
  {
    FeeIs(p, amount);
    PaysArithmetic(p.baseFee, Rated(p, amount), PolicyFee(p, amount), fee);
  }

  lemma PaysArithmetic(baseFee: int, rated: nat, due: int, fee: int)
    requires due >= baseFee && 1000000 * (due - baseFee) <= rated < 1000000 * (due - baseFee + 1)
    ensures fee >= baseFee && 1000000 * (fee - baseFee + 1) > rated <==> fee >= due
  {
  }

  /** Every answer of a forward check: accepted if and only if the delta suffices, the fee fits u64 and what is offered
      pays it; critical if and only if the delta suffices and the fee does not fit; refused otherwise, for the delta
      first. */
  lemma ForwardAnswers(p: Policy, cltvDelta: nat, amount: nat, fee: nat)
    ensures var r, rated := CheckForward(p, cltvDelta, amount, fee), Rated(p, amount);
            && (r.Accepted? <==> cltvDelta >= p.cltvDelta && FeeFits(p, rated) && Pays(p, rated, fee))
            && (r.Critical? <==> cltvDelta >= p.cltvDelta && !FeeFits(p, rated))
            && (r.Critical? ==> r.error == FeeOverflow(amount, p.baseFee, p.feeRateProp))
            && (r.Refused? <==> cltvDelta < p.cltvDelta || (FeeFits(p, rated) && !Pays(p, rated, fee)))
            && (r == Refused(InsufficientCltvDelta(cltvDelta, p.cltvDelta)) <==> cltvDelta < p.cltvDelta)
            && (r.Refused? && cltvDelta >= p.cltvDelta ==> r.why.InsufficientFee? && NamesFee(p, rated, fee, r.why))
  {
    PaysIff(p, amount, fee);
    PaysIff(p, amount, U64_MAX);
    PaysIff(p, amount, PolicyFee(p, amount));
    PaysIff(p, amount, PolicyFee(p, amount) - 1);
  }

  /** The error names what was offered, the policy, and the least fee that pays. */
  predicate NamesFee(p: Policy, rated: nat, fee: nat, e: ForwardingError)
    requires e.InsufficientFee?
  {
    && e.fee == fee && e.base == p.baseFee && e.prop == p.feeRateProp
    && Pays(p, rated, e.required) && !Pays(p, rated, e.required - 1)
  }

  /** An evenly split channel passes its own sanity check exactly when its capacity is even, and only then
      can it ever carry an HTLC. */
  lemma EvenSplitIsSane(capacity: nat, scid: Scid, one: Policy, two: Policy, excluded: bool)
    ensures SanityCheck(NewChannel(capacity, scid, one, two, excluded)) == None <==> capacity % 2 == 0
    ensures capacity % 2 == 1 ==>
              forall n: NodeId, h: Hash, x: Htlc :: 0 < x.amount ==>
                AddHtlc(NewChannel(capacity, scid, one, two, excluded), n, h, x)
                == (NewChannel(capacity, scid, one, two, excluded), Critical(SanityCheckFailed(capacity - 1, capacity)))
  {
  }

  /** The one-sided part of an addition. */
  lemma AddOutgoingEffect(s: Side, h: Hash, x: Htlc, peer: Policy)
    requires SideOk(s, peer) && 0 < x.amount
    ensures var (s', r) := AddOutgoing(s, h, x, peer);
            && SideOk(s', peer) && s'.policy == s.policy
            && s'.local + Total(s'.inFlight) == s.local + Total(s.inFlight)
            && (!r.Accepted? ==> s' == s)
            && (r.Critical? ==> r.error == PaymentHashExists(h))
            && (r.Accepted? ==>
                 && h !in s.inFlight
                 && r.value == s.index
                 && s' == Side(s.local - x.amount, s.inFlight[h := Held(x, s.index)], s.policy, s.index + 1))
  {
    if CheckAddition(s, x, peer) == None && h !in s.inFlight {
      TotalWith(s.inFlight, h, Held(x, s.index));
    }
  }

  /** Good order, said of a side and its peer. */
  lemma OrderFromSides(c: Chan, w: Who)
    requires Validated(c)
    requires c.Get(w).local + Total(c.Get(w).inFlight)
             + c.Get(w.Other()).local + Total(c.Get(w.Other()).inFlight) == c.capacity
    requires SideOk(c.Get(w), c.Get(w.Other()).policy)
    requires SideOk(c.Get(w.Other()), c.Get(w).policy)
    ensures ChannelOk(c)
  {
  }

  /** Replacing one side by one with the same policy and the same holdings keeps a channel in good order. */
  lemma ReplaceSide(c: Chan, w: Who, s: Side)
    requires ChannelOk(c)
    requires s.policy == c.Get(w).policy && SideOk(s, c.Get(w.Other()).policy)
    requires s.local + Total(s.inFlight) == c.Get(w).local + Total(c.Get(w).inFlight)
    ensures ChannelOk(c.Set(w, s)) && SameTerms(c, c.Set(w, s))
  {
    var c' := c.Set(w, s);
    assert Holdings(c') == Holdings(c);
    assert SideOk(c'.Get(w.Other()), c'.Get(w).policy);
    OrderFromSides(c', w);
  }

  /** The side of `c` after an accepted addition by `w`. */
  function Charged(c: Chan, w: Who, h: Hash, x: Htlc): Side {
    var s := c.Get(w);
    Side(s.local - x.amount, s.inFlight[h := Held(x, s.index)], s.policy, s.index + 1)
  }

  /** The effect of every answer of an addition on a channel in good order. */
  lemma AddHtlcEffect(c: Chan, n: NodeId, h: Hash, x: Htlc)
    requires ChannelOk(c)
    ensures var (c', r) := AddHtlc(c, n, h, x);
            && ChannelOk(c') && SameTerms(c, c')
            && (!r.Accepted? ==> c' == c)
            && (r.Critical? ==> !r.error.SanityCheckFailed?)
            && (r.Accepted? ==>
                 && c.SideOf(n).Some?
                 && var w := c.SideOf(n).value;
                    && h !in c.Get(w).inFlight
                    && r.value == c.Get(w).index
                    && c' == c.Set(w, Charged(c, w, h, x)))
  {
    if c.SideOf(n).Some? && 0 < x.amount {
      var w := c.SideOf(n).value;
      var (s', r) := AddOutgoing(c.Get(w), h, x, c.Get(w.Other()).policy);
      AddOutgoingEffect(c.Get(w), h, x, c.Get(w.Other()).policy);
      assert AddHtlc(c, n, h, x) == (c.Set(w, s'), r);
      ReplaceSide(c, w, s');
    }
  }

  /** Taking an entry out of a side keeps every limit, whatever the side is then credited with. */
  lemma WithoutEntry(s: Side, h: Hash, peer: Policy, credit: nat)
    requires SideOk(s, peer) && h in s.inFlight
    ensures Total(s.inFlight) == s.inFlight[h].htlc.amount + Total(s.inFlight - {h})
    ensures SideOk(s.(inFlight := s.inFlight - {h}, local := s.local + credit), peer)
  {
    TotalWithout(s.inFlight, h);
    assert |s.inFlight - {h}| <= |s.inFlight| by {
      assert s.inFlight == (s.inFlight - {h})[h := s.inFlight[h]];
    }
  }

  /** What settling does to each side. */
  lemma SettleSides(c: Chan, w: Who, h: Hash, success: bool)
    requires h in c.Get(w).inFlight
    ensures var s, peer, c' := c.Get(w), c.Get(w.Other()), Settle(c, w, h, success);
            var amount := s.inFlight[h].htlc.amount;
            && c'.Get(w) == s.(inFlight := s.inFlight - {h}, local := s.local + if success then 0 else amount)
            && c'.Get(w.Other()) == peer.(local := peer.local + if success then amount else 0)
            && c'.capacity == c.capacity && c'.scid == c.scid && c'.excluded == c.excluded
  {
  }

  /** The peer may be credited with anything. */
  lemma CreditedOk(s: Side, peer: Policy, credit: nat)
    requires SideOk(s, peer)
    ensures SideOk(s.(local := s.local + credit), peer)
  {
  }

  lemma SettleKeepsSides(c: Chan, w: Who, h: Hash, success: bool)
    requires SideOk(c.Get(w), c.Get(w.Other()).policy) && SideOk(c.Get(w.Other()), c.Get(w).policy)
    requires h in c.Get(w).inFlight
    ensures SideOk(Settle(c, w, h, success).Get(w), c.Get(w.Other()).policy)
    ensures SideOk(Settle(c, w, h, success).Get(w.Other()), c.Get(w).policy)
  {
    var s, peer := c.Get(w), c.Get(w.Other());
    var amount := s.inFlight[h].htlc.amount;
    WithoutEntry(s, h, peer.policy, if success then 0 else amount);
    CreditedOk(peer, s.policy, if success then amount else 0);
    SettleSides(c, w, h, success);
  }

  /** Settling keeps a channel in good order. */
  lemma SettleKeepsOrder(c: Chan, w: Who, h: Hash, success: bool)
    requires ChannelOk(c) && h in c.Get(w).inFlight
    ensures ChannelOk(Settle(c, w, h, success)) && SameTerms(c, Settle(c, w, h, success))
  {
    TotalWithout(c.Get(w).inFlight, h);
    SettleKeepsSides(c, w, h, success);
    SettleSides(c, w, h, success);
    OrderFromSides(Settle(c, w, h, success), w);
  }

  /** Removal of a held HTLC always succeeds on a channel in good order. */
  lemma RemoveHtlcEffect(c: Chan, n: NodeId, h: Hash, success: bool)
    requires ChannelOk(c)
    requires c.SideOf(n).Some? && h in c.Get(c.SideOf(n).value).inFlight
    ensures var w := c.SideOf(n).value;
            && RemoveHtlc(c, n, h, success) == (Settle(c, w, h, success), Accepted(c.Get(w).inFlight[h]))
            && ChannelOk(Settle(c, w, h, success)) && SameTerms(c, Settle(c, w, h, success))
  {
    SettleKeepsOrder(c, c.SideOf(n).value, h, success);
  }

  lemma ChargeThenRefund(c: Chan, w: Who, h: Hash, x: Htlc)
    requires h !in c.Get(w).inFlight
    ensures Settle(c.Set(w, Charged(c, w, h, x)), w, h, false)
         == c.Set(w, c.Get(w).(index := c.Get(w).index + 1))
  {
    assert Charged(c, w, h, x).inFlight - {h} == c.Get(w).inFlight;
  }

  /** An HTLC that is added and then failed back leaves both balances and both in-flight maps as they were;
      only the counter has moved. */
  lemma AddThenFailRestores(c: Chan, n: NodeId, h: Hash, x: Htlc)
    requires ChannelOk(c) && AddHtlc(c, n, h, x).1.Accepted?
    ensures var w := c.SideOf(n);
            && w.Some?
            && RemoveHtlc(AddHtlc(c, n, h, x).0, n, h, false).0
               == c.Set(w.value, c.Get(w.value).(index := c.Get(w.value).index + 1))
  {
    AddHtlcEffect(c, n, h, x);
    var w := c.SideOf(n).value;
    ChargeThenRefund(c, w, h, x);
    var added := AddHtlc(c, n, h, x).0;
    assert added.SideOf(n) == Some(w);
    RemoveHtlcEffect(added, n, h, false);
  }
}

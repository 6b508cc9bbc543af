/** Each kind of move keeps every clause of the invariant, and so does every run. */
module Preservation {
  import opened Types
  import opened Channel
  import opened Payments
  import opened Network
  import opened Invariant
  import opened ChannelProofs
  import opened NetworkProofs

  // ---------- What a move changes, as observed ----------

  lemma LockObserved(channels: Topology, id: Scid, w: Who, h: Hash, x: Htlc)
    requires id in channels && h !in channels[id].Get(w).inFlight
    ensures var channels' := channels[id := channels[id].Set(w, Charged(channels[id], w, h, x))];
            && (forall d: Scid, v: Who, g: Hash :: EntryAt(channels', d, v, g)
                  == if (d, v, g) == (id, w, h) then Some(Held(x, CounterAt(channels, id, w)))
                     else EntryAt(channels, d, v, g))
            && (forall d: Scid, v: Who :: CounterAt(channels', d, v)
                  == CounterAt(channels, d, v) + if (d, v) == (id, w) then 1 else 0)
            && (forall d: Scid, v: Who :: LocalAt(channels', d, v)
                  == LocalAt(channels, d, v) - if (d, v) == (id, w) then x.amount else 0)
            && EntryAt(channels, id, w, h) == None
  {
  }

  lemma UnlockObserved(channels: Topology, id: Scid, w: Who, h: Hash, success: bool)
    requires id in channels && h in channels[id].Get(w).inFlight
    ensures var channels' := channels[id := Settle(channels[id], w, h, success)];
            var amount := channels[id].Get(w).inFlight[h].htlc.amount;
            && (forall d: Scid, v: Who, g: Hash :: EntryAt(channels', d, v, g)
                  == if (d, v, g) == (id, w, h) then None else EntryAt(channels, d, v, g))
            && (forall d: Scid, v: Who :: CounterAt(channels', d, v) == CounterAt(channels, d, v))
            && (forall d: Scid, v: Who :: LocalAt(channels', d, v) == LocalAt(channels, d, v)
                  + if d == id && (v == w) == !success then amount else 0)
            && EntryAt(channels, id, w, h) == Some(channels[id].Get(w).inFlight[h])
  {
    SettleSides(channels[id], w, h, success);
  }

  // ---------- What is in flight ----------

  /** A payment stays backed when its own entries stay and counters do not fall. */
  lemma BackedFrame(base: Topology, channels: Topology, channels': Topology, r: Payment)
    requires TaskOk(base, channels, r)
    requires forall i :: 0 <= i < r.phase.Locked() && Placed(base, r, i) ==>
               var (id, w) := PlaceOf(base, r, i);
               EntryAt(channels', id, w, r.hash) == EntryAt(channels, id, w, r.hash)
    requires forall d: Scid, v: Who :: CounterAt(channels, d, v) <= CounterAt(channels', d, v)
    ensures TaskOk(base, channels', r)
  {
    assert Backed(base, channels', r);
    assert Counted(base, channels', r);
  }

  /** The payment that locked its next hop is backed at that hop too. */
  lemma BackedWhereLocked(base: Topology, channels: Topology, p: Payment, channels': Topology, q: Payment)
    requires TaskOk(base, channels, p) && PaymentOk(base, q) && Locks(base, channels, p, channels', q)
    ensures TaskOk(base, channels', q)
  {
    var (id, w) := PlaceOf(base, p, |p.indexes|);
    LockObserved(channels, id, w, p.hash, p.HtlcAt(|p.indexes|));
    BackedFrame(base, channels, channels', p);
    SameHops(base, p, q);
    assert Backed(base, channels', q);
    assert Counted(base, channels', q);
  }

  // ---------- Identity ----------

  /** Two held hops that are the same in-flight entry are the same hop of the same payment. */
  lemma OneOwner(base: Topology, s: State, k: nat, i: nat, l: nat, j: nat, id: Scid, w: Who, h: Hash)
    requires TasksOk(base, s) && Identified(base, s.payments)
    requires Holds(base, s.payments, k, i, id, w, h) && Holds(base, s.payments, l, j, id, w, h)
    ensures k == l && i == j
  {
    var p, r := s.payments[k], s.payments[l];
    assert TaskOk(base, s.channels, p) && TaskOk(base, s.channels, r);
    assert PlaceOf(base, p, i) == (id, w) == PlaceOf(base, r, j);
    assert AddedAt(base, s.payments, k, i, id, w, p.indexes[i]);
    assert AddedAt(base, s.payments, l, j, id, w, p.indexes[i]);
  }

  /** After a lock the new hop is the only one with its index; every other index is below the old counter. */
  lemma LockIdentifies(base: Topology, s: State, k: nat, channels': Topology, q: Payment)
    requires TasksOk(base, s) && Identified(base, s.payments) && k < |s.payments|
    requires Locks(base, s.channels, s.payments[k], channels', q)
    ensures Identified(base, s.payments[k := q])
  {
    var ps, ps' := s.payments, s.payments[k := q];
    SameHops(base, ps[k], q);
    forall l, j, m, n, id, w: Who, x
      | AddedAt(base, ps', l, j, id, w, x) && AddedAt(base, ps', m, n, id, w, x)
      ensures l == m && j == n
    {
      BelowCounter(base, s, k, channels', q, l, j, id, w, x);
      BelowCounter(base, s, k, channels', q, m, n, id, w, x);
    }
  }

  lemma BelowCounter(base: Topology, s: State, k: nat, channels': Topology, q: Payment,
                     l: nat, j: nat, id: Scid, w: Who, x: nat)
    requires TasksOk(base, s) && k < |s.payments|
    requires Locks(base, s.channels, s.payments[k], channels', q)
    requires AddedAt(base, s.payments[k := q], l, j, id, w, x)
    ensures if l == k && j == |s.payments[k].indexes| then x == CounterAt(s.channels, id, w)
            else AddedAt(base, s.payments, l, j, id, w, x) && x < CounterAt(s.channels, id, w)
  {
    SameHops(base, s.payments[k], q);
    assert TaskOk(base, s.channels, s.payments[l]);
    if !(l == k && j == |s.payments[k].indexes|) {
      assert AddedAt(base, s.payments, l, j, id, w, x);
      assert PlaceOf(base, s.payments[l], j) == (id, w);
    }
  }

  /** Moves that hand out no index leave identities alone. */
  lemma SameIndexesIdentify(base: Topology, ps: seq<Payment>, k: nat, q: Payment)
    requires k < |ps| && Identified(base, ps)
    requires Continues(ps[k], q) && q.indexes == ps[k].indexes
    ensures Identified(base, ps[k := q])
  {
    SameHops(base, ps[k], q);
    var ps' := ps[k := q];
    forall l, j, m, n, id, w: Who, x
      | AddedAt(base, ps', l, j, id, w, x) && AddedAt(base, ps', m, n, id, w, x)
      ensures l == m && j == n
    {
      assert AddedAt(base, ps, l, j, id, w, x) && AddedAt(base, ps, m, n, id, w, x);
    }
  }

  // ---------- Ownership ----------

  /** Entries that remain keep their owner when payment `k` goes on holding at least what it held. */
  lemma OwnersRemain(base: Topology, s: State, k: nat, channels': Topology, q: Payment)
    requires Owned(base, s) && k < |s.payments| && Continues(s.payments[k], q)
    requires var ps' := s.payments[k := q];
             forall d: Scid, v: Who, g: Hash :: EntryAt(channels', d, v, g).Some? ==>
               || (EntryAt(s.channels, d, v, g).Some?
                   && forall i: nat :: i < s.payments[k].phase.Locked() && q.phase.Locked() <= i ==>
                        !Holds(base, s.payments, k, i, d, v, g))
               || exists i :: Holds(base, ps', k, i, d, v, g)
    ensures Owned(base, State(channels', s.payments[k := q]))
  {
    SameHops(base, s.payments[k], q);
    var ps, ps' := s.payments, s.payments[k := q];
    forall d: Scid, v: Who, g: Hash | EntryAt(channels', d, v, g).Some?
      ensures exists l, i :: Holds(base, ps', l, i, d, v, g)
    {
      if i :| Holds(base, ps', k, i, d, v, g) {
      } else {
        var l, i :| Holds(base, ps, l, i, d, v, g);
        assert Holds(base, ps', l, i, d, v, g);
      }
    }
  }

  // ---------- The ledger ----------

  /** Effects that agree at every hop but one differ by the effect of that hop. */
  lemma {:induction false} EffectDiffersAt(base: Topology, p: Payment, q: Payment, n: nat, i: nat, id: Scid, w: Who)
    requires i < n
    requires forall j :: 0 <= j < n && j != i ==> HopEffect(base, p, j, id, w) == HopEffect(base, q, j, id, w)
    ensures Effect(base, q, n, id, w) - Effect(base, p, n, id, w)
         == HopEffect(base, q, i, id, w) - HopEffect(base, p, i, id, w)
  {
    if i == n - 1 {
      EffectExtensional(base, p, q, n - 1, id, w);
    } else {
      EffectDiffersAt(base, p, q, n - 1, i, id, w);
    }
  }

  lemma EffectOfWait(base: Topology, p: Payment, q: Payment, id: Scid, w: Who)
    requires Waits(p, q)
    ensures Effect(base, q, |q.indexes|, id, w) == Effect(base, p, |p.indexes|, id, w)
  {
    SameHops(base, p, q);
    EffectExtensional(base, p, q, |p.indexes|, id, w);
  }

  lemma EffectOfLock(base: Topology, channels: Topology, p: Payment, channels': Topology, q: Payment, id: Scid, w: Who)
    requires Locks(base, channels, p, channels', q)
    ensures Effect(base, q, |q.indexes|, id, w) - Effect(base, p, |p.indexes|, id, w)
         == LocalAt(channels', id, w) - LocalAt(channels, id, w)
  {
    var n := |p.indexes|;
    var (d, v) := PlaceOf(base, p, n);
    SameHops(base, p, q);
    EffectExtensional(base, p, q, n, id, w);
    LockObserved(channels, d, v, p.hash, p.HtlcAt(n));
    assert SentOn(base, q, n, id, w) <==> (d, v) == (id, w);
  }

  lemma EffectOfUnlock(base: Topology, channels: Topology, p: Payment, channels': Topology, q: Payment,
                       id: Scid, w: Who)
    requires Unlocks(base, channels, p, channels', q) && TaskOk(base, channels, p)
    ensures Effect(base, q, |q.indexes|, id, w) - Effect(base, p, |p.indexes|, id, w)
         == LocalAt(channels', id, w) - LocalAt(channels, id, w)
  {
    var i := p.phase.Locked() - 1;
    var (d, v) := PlaceOf(base, p, i);
    SameHops(base, p, q);
    EffectDiffersAt(base, p, q, |p.indexes|, i, id, w);
    UnlockObserved(channels, d, v, p.hash, q.phase.Settling());
    assert forall u: Who :: SentOn(base, q, i, id, u) <==> (d, v) == (id, u);
  }

  lemma LedgerFollows(base: Topology, s: State, k: nat, channels': Topology, q: Payment)
    requires Ledger(base, s) && k < |s.payments|
    requires forall id: Scid, w: Who :: id in base ==>
               Effect(base, q, |q.indexes|, id, w) - Effect(base, s.payments[k], |s.payments[k].indexes|, id, w)
               == LocalAt(channels', id, w) - LocalAt(s.channels, id, w)
    ensures Ledger(base, State(channels', s.payments[k := q]))
  {
    forall id: Scid, w: Who | id in base
      ensures LocalAt(channels', id, w) == base[id].Get(w).local + SumEffect(base, s.payments[k := q], id, w)
    {
      SumEffectUpdate(base, s.payments, k, q, id, w);
    }
  }

  // ---------- Moves keep the invariant ----------

  lemma WaitKeepsInv(base: Topology, s: State, k: nat, q: Payment)
    requires Inv(base, s) && k < |s.payments|
    requires PaymentOk(base, q) && Waits(s.payments[k], q)
    ensures Inv(base, State(s.channels, s.payments[k := q]))
  {
    var p := s.payments[k];
    SameHops(base, p, q);
    assert TaskOk(base, s.channels, p);
    assert TaskOk(base, s.channels, q);
    SameIndexesIdentify(base, s.payments, k, q);
    OwnersRemain(base, s, k, s.channels, q);
    forall id: Scid, w: Who { EffectOfWait(base, p, q, id, w); }
    LedgerFollows(base, s, k, s.channels, q);
  }

  lemma LockKeepsTasks(base: Topology, s: State, k: nat, channels': Topology, q: Payment)
    requires TasksOk(base, s) && k < |s.payments| && PaymentOk(base, q)
    requires Locks(base, s.channels, s.payments[k], channels', q)
    ensures TasksOk(base, State(channels', s.payments[k := q]))
  {
    var p := s.payments[k];
    var (id, w) := PlaceOf(base, p, |p.indexes|);
    LockObserved(s.channels, id, w, p.hash, p.HtlcAt(|p.indexes|));
    var ps' := s.payments[k := q];
    forall l: nat | l < |ps'| ensures TaskOk(base, channels', ps'[l]) {
      assert TaskOk(base, s.channels, s.payments[l]);
      if l == k {
        BackedWhereLocked(base, s.channels, p, channels', q);
      } else {
        BackedFrame(base, s.channels, channels', s.payments[l]);
      }
    }
  }

  lemma LockKeepsOwners(base: Topology, s: State, k: nat, channels': Topology, q: Payment)
    requires Owned(base, s) && k < |s.payments|
    requires Locks(base, s.channels, s.payments[k], channels', q)
    ensures Owned(base, State(channels', s.payments[k := q]))
  {
    var p := s.payments[k];
    var n := |p.indexes|;
    var (id, w) := PlaceOf(base, p, n);
    LockObserved(s.channels, id, w, p.hash, p.HtlcAt(n));
    SameHops(base, p, q);
    var ps' := s.payments[k := q];
    assert Holds(base, ps', k, n, id, w, p.hash);
    OwnersRemain(base, s, k, channels', q);
  }

  lemma LockKeepsInv(base: Topology, s: State, k: nat, channels': Topology, q: Payment)
    requires Inv(base, s) && k < |s.payments|
    requires ChannelsOk(base, channels') && PaymentOk(base, q)
    requires Locks(base, s.channels, s.payments[k], channels', q)
    ensures Inv(base, State(channels', s.payments[k := q]))
  {
    LockKeepsTasks(base, s, k, channels', q);
    LockIdentifies(base, s, k, channels', q);
    LockKeepsOwners(base, s, k, channels', q);
    forall d: Scid, v: Who { EffectOfLock(base, s.channels, s.payments[k], channels', q, d, v); }
    LedgerFollows(base, s, k, channels', q);
  }

  /** An unlock takes away no entry but that of the hop unlocked, even from a payment with the same hash. */
  lemma StillBacked(base: Topology, s: State, k: nat, channels': Topology, q: Payment, l: nat)
    requires TasksOk(base, s) && Identified(base, s.payments) && k < |s.payments| && l < |s.payments|
    requires PaymentOk(base, q)
    requires Unlocks(base, s.channels, s.payments[k], channels', q)
    ensures TaskOk(base, channels', s.payments[k := q][l])
  {
    var p, r := s.payments[k], s.payments[l];
    var i := p.phase.Locked() - 1;
    var (id, w) := PlaceOf(base, p, i);
    UnlockObserved(s.channels, id, w, p.hash, q.phase.Settling());
    SameHops(base, p, q);
    assert TaskOk(base, s.channels, r);
    assert Holds(base, s.payments, k, i, id, w, p.hash);
    forall j: nat | j < r.phase.Locked() && Placed(base, r, j) && (l, j) != (k, i)
      ensures PlaceOf(base, r, j) != (id, w) || r.hash != p.hash
    {
      if PlaceOf(base, r, j) == (id, w) && r.hash == p.hash {
        assert Holds(base, s.payments, l, j, id, w, p.hash);
        OneOwner(base, s, k, i, l, j, id, w, p.hash);
      }
    }
    if l == k {
      assert Backed(base, channels', q);
      assert Counted(base, channels', q);
    } else {
      BackedFrame(base, s.channels, channels', r);
    }
  }

  lemma UnlockKeepsOwners(base: Topology, s: State, k: nat, channels': Topology, q: Payment)
    requires Owned(base, s) && k < |s.payments|
    requires Unlocks(base, s.channels, s.payments[k], channels', q)
    ensures Owned(base, State(channels', s.payments[k := q]))
  {
    var p := s.payments[k];
    var (id, w) := PlaceOf(base, p, p.phase.Locked() - 1);
    UnlockObserved(s.channels, id, w, p.hash, q.phase.Settling());
    OwnersRemain(base, s, k, channels', q);
  }

  lemma UnlockKeepsInv(base: Topology, s: State, k: nat, channels': Topology, q: Payment)
    requires Inv(base, s) && k < |s.payments|
    requires ChannelsOk(base, channels') && PaymentOk(base, q)
    requires Unlocks(base, s.channels, s.payments[k], channels', q)
    ensures Inv(base, State(channels', s.payments[k := q]))
  {
    UnlockKeepsTasks(base, s, k, channels', q);
    SameIndexesIdentify(base, s.payments, k, q);
    UnlockKeepsOwners(base, s, k, channels', q);
    UnlockKeepsLedger(base, s, k, channels', q);
  }

  lemma UnlockKeepsTasks(base: Topology, s: State, k: nat, channels': Topology, q: Payment)
    requires TasksOk(base, s) && Identified(base, s.payments) && k < |s.payments| && PaymentOk(base, q)
    requires Unlocks(base, s.channels, s.payments[k], channels', q)
    ensures TasksOk(base, State(channels', s.payments[k := q]))
  {
    var ps' := s.payments[k := q];
    forall l: nat | l < |ps'| ensures TaskOk(base, channels', ps'[l]) { StillBacked(base, s, k, channels', q, l); }
  }

  lemma UnlockKeepsLedger(base: Topology, s: State, k: nat, channels': Topology, q: Payment)
    requires Ledger(base, s) && k < |s.payments| && TaskOk(base, s.channels, s.payments[k])
    requires Unlocks(base, s.channels, s.payments[k], channels', q)
    ensures Ledger(base, State(channels', s.payments[k := q]))
  {
    forall d: Scid, v: Who { EffectOfUnlock(base, s.channels, s.payments[k], channels', q, d, v); }
    LedgerFollows(base, s, k, channels', q);
  }

  // ---------- Runs keep the invariant ----------

  lemma DispatchKeepsInv(base: Topology, s: State, source: NodeId, route: Route, hash: Hash)
    requires Inv(base, s)
    ensures Inv(base, Step(s, Dispatch(source, route, hash)))
  {
    var ps' := Step(s, Dispatch(source, route, hash)).payments;
    forall l, j, id, w: Who, x | AddedAt(base, ps', l, j, id, w, x) ensures AddedAt(base, s.payments, l, j, id, w, x) {
    }
    forall l, j, id, w: Who, h | Holds(base, s.payments, l, j, id, w, h) ensures Holds(base, ps', l, j, id, w, h) {
    }
    assert ps'[..|ps'| - 1] == s.payments;
  }

  lemma MoveKeepsInv(base: Topology, s: State, k: nat, channels': Topology, q: Payment)
    requires Inv(base, s) && k < |s.payments|
    requires Moves(base, s.channels, s.payments[k], channels', q)
    ensures Inv(base, State(channels', s.payments[k := q]))
  {
    if Locks(base, s.channels, s.payments[k], channels', q) {
      LockKeepsInv(base, s, k, channels', q);
    } else if Unlocks(base, s.channels, s.payments[k], channels', q) {
      UnlockKeepsInv(base, s, k, channels', q);
    } else {
      WaitKeepsInv(base, s, k, q);
    }
  }

  lemma StepKeepsInv(base: Topology, s: State, c: Choice)
    requires Inv(base, s)
    ensures Inv(base, Step(s, c))
  {
    if c.Dispatch? {
      DispatchKeepsInv(base, s, c.source, c.route, c.hash);
    } else if c.p < |s.payments| {
      assert TaskOk(base, s.channels, s.payments[c.p]);
      TaskStepMoves(base, s.channels, s.payments[c.p], c);
      var (channels', q) := TaskStep(s.channels, s.payments[c.p], c);
      MoveKeepsInv(base, s, c.p, channels', q);
    }
  }

  /** The invariant holds after any number of steps of any number of payments, in any order. */
  lemma {:induction false} RunKeepsInv(base: Topology, cs: seq<Choice>)
    requires StartOk(base)
    ensures Inv(base, Run(base, cs))
  {
    if cs == [] {
      StartInv(base);
    } else {
      RunKeepsInv(base, cs[..|cs| - 1]);
      StepKeepsInv(base, Run(base, cs[..|cs| - 1]), cs[|cs| - 1]);
    }
  }

  lemma StartInv(base: Topology)
    requires StartOk(base)
    ensures Inv(base, State(base, []))
  {
    forall id | id in base ensures ChannelOk(base[id]) {
      assert Fresh(base[id]);
    }
  }

  lemma ReachableInv(base: Topology, s: State)
    requires StartOk(base) && Reachable(base, s)
    ensures Inv(base, s)
  {
    var cs :| Run(base, cs) == s;
    RunKeepsInv(base, cs);
  }
}

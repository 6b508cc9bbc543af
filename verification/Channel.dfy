/** The two-sided channel state machine as values: what one channel looks like and how each operation
    changes it. The classes of module `SimChannel` are proved equal to these functions. */
module Channel {
  import opened Types

  datatype Policy = Policy(
    node: NodeId,
    maxHtlcCount: U64,
    maxInFlight: U64,
    minHtlcSize: U64,
    maxHtlcSize: U64,
    cltvDelta: U32,
    baseFee: U64,
    feeRateProp: U64)

  /** An HTLC as proposed, and as stored together with the index it was added at. */
  datatype Htlc = Htlc(amount: nat, cltv: nat)
  datatype Held = Held(htlc: Htlc, index: nat)

  type InFlight = map<Hash, Held>

  datatype Side = Side(local: int, inFlight: InFlight, policy: Policy, index: nat)

  /** Which of the two nodes of a channel. */
  datatype Who = One | Two {
    function Other(): (w: Who)
      ensures w != this
    {
      if One? then Two else One
    }
  }

  datatype Chan = Chan(capacity: nat, scid: Scid, one: Side, two: Side, excluded: bool) {
    function Get(w: Who): Side {
      if w.One? then one else two
    }

    function Set(w: Who, s: Side): (c: Chan)
      ensures c.Get(w) == s && c.Get(w.Other()) == Get(w.Other())
      ensures c.capacity == capacity && c.scid == scid && c.excluded == excluded
    {
      if w.One? then this.(one := s) else this.(two := s)
    }

    function SideOf(n: NodeId): Option<Who> {
      if n == one.policy.node then Some(One)
      else if n == two.policy.node then Some(Two)
      else None
    }
  }

  // ---------- In-flight totals ----------

  ghost function Total(m: InFlight): nat
    decreases |m|
  {
    if m == map[] then 0
    else
      var h :| h in m;
      m[h].htlc.amount + Total(m - {h})
  }

  /** The total does not depend on the order in which entries are visited. */
  lemma {:induction false} TotalWithout(m: InFlight, h: Hash)
    requires h in m
    ensures Total(m) == m[h].htlc.amount + Total(m - {h})
    decreases |m|
  {
    var g :| g in m && Total(m) == m[g].htlc.amount + Total(m - {g});
    if g != h {
      TotalWithout(m - {g}, h);
      TotalWithout(m - {h}, g);
      assert (m - {g}) - {h} == (m - {h}) - {g};
    }
  }

  lemma TotalWith(m: InFlight, h: Hash, e: Held)
    requires h !in m
    ensures Total(m[h := e]) == Total(m) + e.htlc.amount
  {
    TotalWithout(m[h := e], h);
    assert m[h := e] - {h} == m;
  }

  // ---------- Checks ----------

  const BLOCK_HEIGHT_LIMIT := 500000000

  function ProportionalFee(prop: nat, amount: nat): nat {
    amount * prop / 1000000
  }

  /** The fee a policy asks for forwarding an amount, section "HTLC Fees" of BOLT #7. */
  function PolicyFee(p: Policy, amount: nat): nat {
    ProportionalFee(p.feeRateProp, amount) + p.baseFee
  }

  /** Whether a forward meets the fee and expiry policy of the outgoing link. */
  function CheckForward(p: Policy, cltvDelta: nat, amount: nat, fee: nat): Outcome<()> {
    if cltvDelta < p.cltvDelta then Refused(InsufficientCltvDelta(cltvDelta, p.cltvDelta))
    else if amount * p.feeRateProp > U64_MAX || PolicyFee(p, amount) > U64_MAX then
      Critical(FeeOverflow(amount, p.baseFee, p.feeRateProp))
    else if fee < PolicyFee(p, amount) then
      Refused(InsufficientFee(fee, p.baseFee, p.feeRateProp, PolicyFee(p, amount)))
    else Accepted(())
  }

  /** The first limit that adding `x` to side `s` would break, if any. The size limits are the sender's own,
      count and total in flight are those of its counterparty `peer`. */
  ghost function CheckAddition(s: Side, x: Htlc, peer: Policy): Option<ForwardingError> {
    if x.amount > s.policy.maxHtlcSize then Some(MoreThanMaximum(x.amount, s.policy.maxHtlcSize))
    else if x.amount < s.policy.minHtlcSize then Some(LessThanMinimum(x.amount, s.policy.minHtlcSize))
    else if |s.inFlight| + 1 > peer.maxHtlcCount then
      Some(ExceedsInFlightCount(|s.inFlight| + 1, peer.maxHtlcCount))
    else if Total(s.inFlight) + x.amount > peer.maxInFlight then
      Some(ExceedsInFlightTotal(Total(s.inFlight) + x.amount, peer.maxInFlight))
    else if x.amount > s.local then Some(InsufficientBalance(x.amount, s.local))
    else if x.cltv > BLOCK_HEIGHT_LIMIT then Some(ExpiryInSeconds(x.cltv, BLOCK_HEIGHT_LIMIT))
    else None
  }

  // ---------- Adding and removing on one side ----------

  ghost function AddOutgoing(s: Side, h: Hash, x: Htlc, peer: Policy): (Side, Outcome<nat>) {
    match CheckAddition(s, x, peer)
    case Some(e) => (s, Refused(e))
    case None =>
      if h in s.inFlight then (s, Critical(PaymentHashExists(h)))
      else
        (s.(local := s.local - x.amount, inFlight := s.inFlight[h := Held(x, s.index)], index := s.index + 1),
         Accepted(s.index))
  }

  // ---------- Adding and removing on a channel ----------

  /** What a channel holds in all: both local balances and everything in flight. */
  ghost function Holdings(c: Chan): int {
    c.one.local + Total(c.one.inFlight) + c.two.local + Total(c.two.inFlight)
  }

  ghost function SanityCheck(c: Chan): Option<CriticalError> {
    if Holdings(c) != c.capacity then Some(SanityCheckFailed(Holdings(c), c.capacity)) else None
  }

  ghost function AddHtlc(c: Chan, sender: NodeId, h: Hash, x: Htlc): (Chan, Outcome<nat>) {
    if x.amount == 0 then (c, Critical(ZeroAmountHtlc))
    else if SanityCheck(c).Some? then (c, Critical(SanityCheck(c).value))
    else match c.SideOf(sender)
      case None => (c, Critical(NodeNotFound(sender)))
      case Some(w) =>
        var r := AddOutgoing(c.Get(w), h, x, c.Get(w.Other()).policy);
        (c.Set(w, r.0), r.1)
  }

  /** The entry leaves the sender's map; its amount goes to the peer on success, back to the sender otherwise. */
  function Settle(c: Chan, w: Who, h: Hash, success: bool): Chan
    requires h in c.Get(w).inFlight
  {
    var s := c.Get(w);
    var e := s.inFlight[h];
    var without := s.(inFlight := s.inFlight - {h});
    if success then
      var peer := c.Get(w.Other());
      c.Set(w, without).Set(w.Other(), peer.(local := peer.local + e.htlc.amount))
    else
      c.Set(w, without.(local := s.local + e.htlc.amount))
  }

  ghost function RemoveHtlc(c: Chan, sender: NodeId, h: Hash, success: bool): (Chan, Outcome<Held>) {
    match c.SideOf(sender)
    case None => (c, Critical(NodeNotFound(sender)))
    case Some(w) =>
      if h !in c.Get(w).inFlight then (c, Critical(PaymentHashNotFound(h)))
      else
        var c' := Settle(c, w, h, success);
        match SanityCheck(c')
        case Some(e) => (c', Critical(e))
        case None => (c', Accepted(c.Get(w).inFlight[h]))
  }

  // ---------- Invariant of one channel ----------

  /** A policy accepted by `ChannelPolicy::validate`. */
  predicate PolicyFits(p: Policy, capacity: nat) {
    p.maxInFlight <= capacity && p.maxHtlcSize <= capacity
  }

  /** What construction and validation leave unchanged for ever. The capacity bound keeps u64 sums in range. */
  predicate Validated(c: Chan) {
    && c.one.policy.node != c.two.policy.node
    && PolicyFits(c.one.policy, c.capacity)
    && PolicyFits(c.two.policy, c.capacity)
    && c.capacity < 0x8000_0000_0000_0000
  }

  predicate EntryWithinLimits(s: Side, e: Held) {
    && 0 < e.htlc.amount
    && s.policy.minHtlcSize <= e.htlc.amount <= s.policy.maxHtlcSize
    && e.htlc.cltv <= BLOCK_HEIGHT_LIMIT
    && e.index < s.index
  }

  ghost predicate SideOk(s: Side, peer: Policy) {
    && 0 <= s.local
    && |s.inFlight| <= peer.maxHtlcCount
    && Total(s.inFlight) <= peer.maxInFlight
    && forall h :: h in s.inFlight ==> EntryWithinLimits(s, s.inFlight[h])
  }

  ghost predicate ChannelOk(c: Chan) {
    && Validated(c)
    && Holdings(c) == c.capacity
    && SideOk(c.one, c.two.policy)
    && SideOk(c.two, c.one.policy)
  }

  /** A channel as created, before any HTLC. */
  predicate Fresh(c: Chan) {
    && Validated(c)
    && c.one.inFlight == map[] && c.two.inFlight == map[]
    && c.one.index == 0 && c.two.index == 0
    && 0 <= c.one.local && 0 <= c.two.local
    && c.one.local + c.two.local == c.capacity
  }

  predicate SameTerms(c: Chan, d: Chan) {
    && c.capacity == d.capacity && c.scid == d.scid && c.excluded == d.excluded
    && c.one.policy == d.one.policy && c.two.policy == d.two.policy
  }

  /** `SimulatedChannel::new`: the capacity is split evenly, losing the odd millisatoshi. */
  function NewChannel(capacity: nat, scid: Scid, one: Policy, two: Policy, excluded: bool): Chan {
    Chan(capacity, scid, Side(capacity / 2, map[], one, 0), Side(capacity / 2, map[], two, 0), excluded)
  }
}

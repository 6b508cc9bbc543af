/** The invariant of the network under any interleaving of payments, clause by clause. */
module Invariant {
  import opened Types
  import opened Channel
  import opened Payments
  import opened Network

  /** The channels a simulation may start from. */
  predicate StartOk(base: Topology) {
    forall id :: id in base ==> Fresh(base[id])
  }

  // ---------- Observing a network ----------

  /** The entry of payment hash `h` in flight from side `w` of channel `id`. */
  function EntryAt(channels: Topology, id: Scid, w: Who, h: Hash): Option<Held> {
    if id in channels && h in channels[id].Get(w).inFlight then Some(channels[id].Get(w).inFlight[h]) else None
  }

  function CounterAt(channels: Topology, id: Scid, w: Who): nat {
    if id in channels then channels[id].Get(w).index else 0
  }

  function LocalAt(channels: Topology, id: Scid, w: Who): int {
    if id in channels then channels[id].Get(w).local else 0
  }

  // ---------- The clauses ----------

  ghost predicate ChannelsOk(base: Topology, channels: Topology) {
    && channels.Keys == base.Keys
    && forall id :: id in channels ==> ChannelOk(channels[id]) && SameTerms(base[id], channels[id])
  }

  /** Hop `i` is sent by some side of a channel of the network. */
  predicate Placed(base: Topology, p: Payment, i: nat) {
    i < |p.route| && p.route[i].scid in base && base[p.route[i].scid].SideOf(p.Sender(i)).Some?
  }

  function PlaceOf(base: Topology, p: Payment, i: nat): (Scid, Who)
    requires Placed(base, p, i)
  {
    (p.route[i].scid, base[p.route[i].scid].SideOf(p.Sender(i)).value)
  }

  /** Hop `i` offers what the policy of the next channel asks. */
  predicate Forwardable(base: Topology, p: Payment, i: nat)
    requires i + 1 < |p.route|
  {
    p.route[i + 1].scid in base ==>
      && Placed(base, p, i + 1)
      && var policy := base[p.route[i + 1].scid].Get(PlaceOf(base, p, i + 1).1).policy;
         && p.route[i].cltvDelta >= policy.cltvDelta
         && p.route[i].fee >= PolicyFee(policy, AmountAt(p.route, i + 1))
  }

  /** The phase of a task agrees with the hops it has added: while running it holds exactly those hops of its
      route that it has added and not yet removed, a prefix. */
  predicate PhaseOk(p: Payment) {
    var n := |p.indexes|;
    && n <= |p.route|
    && match p.phase
       case Adding(i) => i == n < |p.route|
       case Intercepting(i) => i + 1 == n
       case Removing(i, r) => i < n && Reports(p, r)
       case Notifying(i, r) => i < n && Reports(p, r)
       case Ended(r, left) => if r.Unknown? then left == n else left <= n && Reports(p, r)
  }

  /** The result reported says how far the payment came: `Success` that every hop was added, `IndexFailure`
      the last hop added. */
  predicate Reports(p: Payment, r: PaymentOutcome) {
    match r
    case Success => |p.indexes| == |p.route|
    case IndexFailure(x) => |p.indexes| == x + 1 || (x == 0 && |p.indexes| == 0)
    case Unknown => false
  }

  /** Every hop that was added is on a channel, and was checked against the policy of the hop after it. */
  predicate HopsOk(base: Topology, p: Payment)
    requires |p.indexes| <= |p.route|
  {
    && (forall i :: 0 <= i < |p.indexes| ==> Placed(base, p, i))
    && (forall i {:trigger Forwardable(base, p, i)} :: 0 <= i && i + 1 < |p.indexes| ==> Forwardable(base, p, i))
    && ((p.phase.Intercepting? || p.phase.Adding?) && 0 < |p.indexes| < |p.route| ==>
          Forwardable(base, p, |p.indexes| - 1))
  }

  /** One resolution was reported for each hop removed, from the last one added backwards. */
  predicate NoticesOk(p: Payment)
    requires |p.indexes| <= |p.route| && p.phase.Locked() <= |p.indexes|
  {
    && |p.notices| == |p.indexes| - p.phase.Locked()
    && forall k :: 0 <= k < |p.notices| ==>
         var i := |p.indexes| - 1 - k;
         p.notices[k] == NoticeAt(p, i, p.indexes[i], p.phase.Settling())
  }

  predicate PaymentOk(base: Topology, p: Payment) {
    PhaseOk(p) && HopsOk(base, p) && NoticesOk(p)
  }

  /** Payment number `k` holds its hop `i`, as entry of payment hash `h` on side `w` of channel `id`. */
  predicate Holds(base: Topology, ps: seq<Payment>, k: nat, i: nat, id: Scid, w: Who, h: Hash) {
    && k < |ps|
    && i < ps[k].phase.Locked()
    && SentOn(base, ps[k], i, id, w)
    && h == ps[k].hash
  }

  /** Every hop held is in flight, with the amount, expiry and index it was added with. */
  predicate Backed(base: Topology, channels: Topology, p: Payment) {
    forall i :: 0 <= i < p.phase.Locked() && i < |p.indexes| && Placed(base, p, i) ==>
      var (id, w) := PlaceOf(base, p, i);
      EntryAt(channels, id, w, p.hash) == Some(Held(p.HtlcAt(i), p.indexes[i]))
  }

  /** Every index handed out is below the counter it came from. */
  predicate Counted(base: Topology, channels: Topology, p: Payment) {
    forall i :: 0 <= i < |p.indexes| && Placed(base, p, i) ==>
      var (id, w) := PlaceOf(base, p, i);
      p.indexes[i] < CounterAt(channels, id, w)
  }

  predicate TaskOk(base: Topology, channels: Topology, p: Payment) {
    PaymentOk(base, p) && Backed(base, channels, p) && Counted(base, channels, p)
  }

  /** Hop `i` of payment `k` was added at `index` on side `w` of channel `id`. */
  predicate AddedAt(base: Topology, ps: seq<Payment>, k: nat, i: nat, id: Scid, w: Who, index: nat) {
    && k < |ps| && i < |ps[k].indexes|
    && SentOn(base, ps[k], i, id, w)
    && ps[k].indexes[i] == index
  }

  /** Channel, sending side and index identify one hop of one payment, for ever. */
  ghost predicate Identified(base: Topology, ps: seq<Payment>) {
    forall k, i, l, j, id, w: Who, x ::
      AddedAt(base, ps, k, i, id, w, x) && AddedAt(base, ps, l, j, id, w, x) ==> k == l && i == j
  }

  /** Every in-flight entry is held by some payment. */
  ghost predicate Owned(base: Topology, s: State) {
    forall id, w: Who, h :: EntryAt(s.channels, id, w, h).Some? ==>
      exists k, i :: Holds(base, s.payments, k, i, id, w, h)
  }

  /** The ledger: every local balance is the initial one plus what the payments did to it. */
  predicate Ledger(base: Topology, s: State) {
    forall id, w: Who :: id in base ==>
      LocalAt(s.channels, id, w) == base[id].Get(w).local + SumEffect(base, s.payments, id, w)
  }

  predicate TasksOk(base: Topology, s: State) {
    forall k :: 0 <= k < |s.payments| ==> TaskOk(base, s.channels, s.payments[k])
  }

  ghost predicate Inv(base: Topology, s: State) {
    && ChannelsOk(base, s.channels)
    && TasksOk(base, s)
    && Identified(base, s.payments)
    && Owned(base, s)
    && Ledger(base, s)
  }
}

/** The loops that propagate a payment, over channels shared with every other payment. Each locked section is proved
    to be one step of the relation of module `Network`; wherever a task waits, others may take any steps. */
module SimNetwork {
  import opened Types
  import C = Channel
  import opened Payments
  import N = Network
  import I = Interceptors
  import O = StepOutcomes
  import opened Invariant
  import opened ChannelProofs
  import opened NetworkProofs
  import opened Preservation
  import opened SimChannel

  // ---------- Sums over a path ----------

  /** `Path::fee_msat`: the fees of all hops but the last. */
  function PathFee(r: seq<Hop>): nat
    requires |r| > 0
  {
    if |r| == 1 then 0 else r[0].fee + PathFee(r[1..])
  }

  /** `Path::final_value_msat`. */
  function FinalValue(r: seq<Hop>): nat
    requires |r| > 0
  {
    r[|r| - 1].fee
  }

  function SumCltv(r: seq<Hop>): nat {
    if r == [] then 0 else r[0].cltvDelta + SumCltv(r[1..])
  }

  /** What the source sends is what hop 0 locks. */
  lemma {:induction false} PathTotals(r: seq<Hop>, i: nat)
    requires i <= |r|
    ensures i < |r| ==> AmountAt(r, i) == PathFee(r[i..]) + FinalValue(r[i..])
    ensures CltvAt(r, i) == SumCltv(r[i..])
    decreases |r| - i
  {
    if i < |r| {
      PathTotals(r, i + 1);
      assert r[i..][1..] == r[i + 1..];
    }
  }

  // ---------- Other tasks ----------

  /** Trace `b` goes on from trace `a`. */
  predicate Extends(a: seq<N.Choice>, b: seq<N.Choice>) {
    |a| <= |b| && forall i :: 0 <= i < |a| ==> b[i] == a[i]
  }

  predicate OthersOnly(cs: seq<N.Choice>, k: nat) {
    forall i :: 0 <= i < |cs| ==> cs[i].Dispatch? || cs[i].p != k
  }

  predicate SameSteps(a: seq<N.Choice>, b: seq<N.Choice>) {
    a == b
  }

  /** `s` is where the run `cs` leads. The quantifier only keeps the verifier from unrolling runs it need not see;
      see `ReachedIff`. */
  ghost predicate Reached(base: Topology, cs: seq<N.Choice>, s: N.State) {
    forall t :: SameSteps(t, cs) ==> N.Run(base, t) == s
  }

  lemma ReachedIff(base: Topology, cs: seq<N.Choice>, s: N.State)
    ensures Reached(base, cs, s) <==> N.Run(base, cs) == s
  {
    assert SameSteps(cs, cs);
  }

  lemma RunSnoc(base: Topology, cs: seq<N.Choice>, c: N.Choice)
    ensures N.Run(base, cs + [c]) == N.Step(N.Run(base, cs), c)
  {
    assert (cs + [c])[..|cs|] == cs;
  }

  lemma ReachedSnoc(base: Topology, cs: seq<N.Choice>, s: N.State, c: N.Choice)
    requires Reached(base, cs, s)
    ensures Reached(base, cs + [c], N.Step(s, c))
  {
    ReachedIff(base, cs, s);
    RunSnoc(base, cs, c);
    ReachedIff(base, cs + [c], N.Step(s, c));
  }

  /** What holds of a place that was reached. */
  lemma ReachedInv(base: Topology, cs: seq<N.Choice>, s: N.State)
    requires StartOk(base) && Reached(base, cs, s)
    ensures Inv(base, s)
  {
    ReachedIff(base, cs, s);
    RunKeepsInv(base, cs);
  }

  lemma ReachedByOthers(base: Topology, cs: seq<N.Choice>, s: N.State, cs': seq<N.Choice>, s': N.State, k: nat)
    requires Reached(base, cs, s) && Reached(base, cs', s')
    requires cs <= cs' && OthersOnly(cs'[|cs|..], k) && k < |s.payments|
    ensures k < |s'.payments| && s'.payments[k] == s.payments[k]
  {
    ReachedIff(base, cs, s);
    ReachedIff(base, cs', s');
    OthersLeaveAlone(base, cs, cs'[|cs|..], k);
    assert cs + cs'[|cs|..] == cs';
  }

  /** Steps of others leave the progress of payment `k` as it is. */
  lemma {:induction false} OthersLeaveAlone(base: Topology, cs: seq<N.Choice>, more: seq<N.Choice>, k: nat)
    requires OthersOnly(more, k) && k < |N.Run(base, cs).payments|
    ensures k < |N.Run(base, cs + more).payments|
    ensures N.Run(base, cs + more).payments[k] == N.Run(base, cs).payments[k]
  {
    if more == [] {
      assert cs + more == cs;
    } else {
      var init, c := more[..|more| - 1], more[|more| - 1];
      OthersLeaveAlone(base, cs, init, k);
      assert cs + more == (cs + init) + [c];
      RunSnoc(base, cs + init, c);
    }
  }

  /** Where a run leads tells whether it broke payment `k` off. */
  lemma ReachedBroken(base: Topology, cs: seq<N.Choice>, s: N.State, k: nat)
    requires StartOk(base) && Reached(base, cs, s) && k < |s.payments|
    ensures O.IsBroken(s.payments[k]) <==> O.Broken(base, cs, k)
  {
    ReachedIff(base, cs, s);
    O.BrokenIff(base, cs, k);
  }

  /** What `add_htlcs` returns; a failure names the last hop added, if any. */
  datatype AddResult = AllAdded | Failed(last: Option<nat>, why: ForwardingError) | Broke(error: CriticalError)

  /** What a task makes of the merged answer of its interceptors. */
  function AnswerOf(said: Outcome<I.Records>): N.Answer {
    match said
    case Accepted(_) => N.Proceed
    case Refused(_) => N.Fail
    case Critical(_) => N.Crash
  }

  /** Where unwinding stops that goes backwards through notifications with these results: before the hops whose last
      one is `left - 1`, because that of hop `left` failed and none after it, or at the source. */
  predicate StoppedAt(hears: seq<bool>, left: nat) {
    if false in hears then left < |hears| && !hears[left] && false !in hears[left + 1..] else left == 0
  }

  // ---------- What interceptors are shown ----------

  /** `InterceptRequest`: an HTLC that has arrived, and how it is to go on. */
  datatype Request = Request(
    forwardingNode: NodeId,
    hash: Hash,
    incoming: Scid,
    index: nat,
    records: I.Records,
    outgoing: Option<Scid>,
    incomingAmount: U64,
    outgoingAmount: U64,
    incomingCltv: U32,
    outgoingCltv: U32)

  /** A request, and what the interceptors said to it. */
  datatype Consultation = Consultation(request: Request, said: Outcome<I.Records>)

  /** The request for hop `j` shows its channel with the index handed out for it, the channel after it if there is one,
      and what is left to be paid before and after the hop. */
  predicate Shows(q: Request, route: seq<Hop>, hash: Hash, indexes: seq<nat>, j: nat) {
    && j < |indexes| && j < |route|
    && q.forwardingNode == route[j].node && q.hash == hash
    && q.incoming == route[j].scid && q.index == indexes[j]
    && q.outgoing == (if j + 1 < |route| then Some(route[j + 1].scid) else None)
    && q.incomingAmount == AmountAt(route, j) && q.outgoingAmount == AmountAt(route, j + 1)
    && q.incomingCltv == CltvAt(route, j) && q.outgoingCltv == CltvAt(route, j + 1)
  }

  /** The records that come in with hop `j`: those the payment was sent with, then those attached at the hop before. */
  predicate Carries(asked: seq<Consultation>, customRecords: I.Records, j: nat) {
    && j < |asked|
    && if j == 0 then asked[j].request.records == customRecords
       else asked[j - 1].said == Accepted(asked[j].request.records)
  }

  /** The interceptors were asked about hop `j`, and `said` is what their answers come to. */
  ghost predicate ConsultedAt(route: seq<Hop>, hash: Hash, indexes: seq<nat>, customRecords: I.Records,
                              replies: seq<I.Replies>, asked: seq<Consultation>, j: nat)
  {
    && j < |asked| && j < |replies|
    && Shows(asked[j].request, route, hash, indexes, j)
    && Carries(asked, customRecords, j)
    && I.RepliesOk(replies[j]) && I.Judged(asked[j].request.records, replies[j], asked[j].said)
  }

  ghost predicate Consulted(route: seq<Hop>, hash: Hash, indexes: seq<nat>, customRecords: I.Records,
                            replies: seq<I.Replies>, asked: seq<Consultation>)
  {
    forall j: nat :: j < |asked| ==> ConsultedAt(route, hash, indexes, customRecords, replies, asked, j)
  }

  lemma ConsultedOn(route: seq<Hop>, hash: Hash, indexes: seq<nat>, indexes': seq<nat>, customRecords: I.Records,
                    replies: seq<I.Replies>, asked: seq<Consultation>)
    requires Consulted(route, hash, indexes, customRecords, replies, asked) && indexes <= indexes'
    ensures Consulted(route, hash, indexes', customRecords, replies, asked)
  {
    forall j: nat | j < |asked| ensures ConsultedAt(route, hash, indexes', customRecords, replies, asked, j) {
      assert ConsultedAt(route, hash, indexes, customRecords, replies, asked, j);
    }
  }

  lemma ConsultedSnoc(route: seq<Hop>, hash: Hash, indexes: seq<nat>, customRecords: I.Records,
                      replies: seq<I.Replies>, asked: seq<Consultation>, next: Consultation)
    requires Consulted(route, hash, indexes, customRecords, replies, asked) && |asked| < |replies|
    requires Shows(next.request, route, hash, indexes, |asked|) && Carries(asked + [next], customRecords, |asked|)
    requires I.RepliesOk(replies[|asked|]) && I.Judged(next.request.records, replies[|asked|], next.said)
    ensures Consulted(route, hash, indexes, customRecords, replies, asked + [next])
  {
    var asked' := asked + [next];
    forall j: nat | j < |asked'| ensures ConsultedAt(route, hash, indexes, customRecords, replies, asked', j) {
      if j < |asked| {
        assert ConsultedAt(route, hash, indexes, customRecords, replies, asked, j);
      }
    }
  }

  /** The last answer decides unless it lets the payment go on; then a refusal or an error came from a channel. */
  predicate Concludes(asked: seq<Consultation>, hops: nat, added: nat, r: AddResult) {
    if asked != [] && !asked[|asked| - 1].said.Accepted? then
      && added == |asked|
      && match asked[|asked| - 1].said
         case Refused(why) => r == Failed(Some(added - 1), why)
         case Critical(error) => r == Broke(error)
         case Accepted(_) => false
    else |asked| <= added <= |asked| + 1 && (r.AllAdded? <==> |asked| == hops)
  }

  predicate Apart(channels: map<Scid, SimulatedChannel>) {
    && (forall id :: id in channels ==> channels[id].node1 != channels[id].node2)
    && (forall a, b :: a in channels && b in channels && a != b ==>
          && channels[a].node1 != channels[b].node1 && channels[a].node1 != channels[b].node2
          && channels[a].node2 != channels[b].node1 && channels[a].node2 != channels[b].node2)
  }

  class SimGraph {
    const channels: map<Scid, SimulatedChannel>
    /** The channels as they were created. */
    ghost const base: Topology
    /** Every step taken so far, and where each payment stands. */
    ghost var trace: seq<N.Choice>
    ghost var payments: seq<Payment>

    ghost function Cells(): set<ChannelState> {
      (set id | id in channels :: channels[id].node1) + (set id | id in channels :: channels[id].node2)
    }

    ghost function Views(): Topology
      reads Cells()
    {
      map id | id in channels :: channels[id].View()
    }

    /** No two sides share a state. */
    predicate Separate() {
      Apart(channels)
    }

    /** The network is where its trace leads from the channels it started with. */
    ghost predicate Valid()
      reads this, Cells()
    {
      && Separate()
      && StartOk(base)
      && Reached(base, trace, N.State(Views(), payments))
    }

    constructor (channels: map<Scid, SimulatedChannel>)
      requires Apart(channels) && forall id :: id in channels ==> C.Fresh(channels[id].View())
      ensures Valid() && this.channels == channels && base == Views() && payments == [] && trace == []
    {
      this.channels := channels;
      this.base := map id | id in channels :: channels[id].View();
      this.trace := [];
      this.payments := [];
      new;
      assert Views() == base;
      ReachedIff(base, [], N.State(base, []));
    }

    /** A point where task `k` waits: for the lock, or for interceptors. All that is promised to the task is that
        whatever happens meanwhile are steps of other tasks. */
    method Await(ghost k: nat)
      requires Valid()
      modifies this`trace, this`payments, Cells()
      ensures Valid()
      ensures old(trace) <= trace && OthersOnly(trace[|old(trace)|..], k)
    {
    }

    /** The next step goes on record. */
    ghost method Record(before: Topology, c: N.Choice, ps: seq<Payment>)
      requires Separate() && StartOk(base)
      requires Reached(base, trace, N.State(before, payments))
      requires N.Step(N.State(before, payments), c) == N.State(Views(), ps)
      modifies this`trace, this`payments
      ensures Valid()
      ensures trace == old(trace) + [c] && payments == ps
    {
      ReachedSnoc(base, trace, N.State(before, payments), c);
      var views := Views();
      trace := trace + [c];
      payments := ps;
      assert Views() == views;
    }

    /** `dispatch_payment`: the task of a new payment is spawned for a route of exactly one path; any other route is
        dropped. */
    method DispatchPayment(source: NodeId, paths: seq<Route>, hash: Hash) returns (spawned: bool, ghost k: nat)
      requires Valid()
      modifies this`trace, this`payments
      ensures Valid() && spawned == (|paths| == 1) && k == |old(payments)|
      ensures !spawned ==> trace == old(trace) && payments == old(payments)
      ensures spawned ==> trace == old(trace) + [N.Dispatch(source, paths[0], hash)]
      ensures spawned ==> payments == old(payments) + [Payment(source, paths[0], hash, Adding(0), [], [])]
    {
      k := |payments|;
      if |paths| != 1 { return false, k; }
      var route := paths[0];
      Record(Views(), N.Dispatch(source, route, hash), payments + [Payment(source, route, hash, Adding(0), [], [])]);
      spawned := true;
    }

    // ---------- Sections under the lock ----------

    /** Every channel is in good order whenever the lock is free. */
    lemma ChannelsValid()
      requires Valid()
      ensures Inv(base, N.State(Views(), payments))
      ensures forall id :: id in channels ==> channels[id].Valid()
    {
      ReachedInv(base, trace, N.State(Views(), payments));
      forall id | id in channels ensures channels[id].Valid() {
        assert Views()[id] == channels[id].View();
      }
    }

    /** Changing the two sides of one channel changes its view only. */
    twostate lemma OneChannelChanged(id: Scid)
      requires Separate() && id in channels
      requires forall d: Scid :: d in channels && d != id ==>
                 unchanged(channels[d].node1) && unchanged(channels[d].node2)
      ensures Views() == old(Views())[id := channels[id].View()]
    {
      forall d: Scid | d in channels && d != id ensures channels[d].View() == old(channels[d].View()) {
      }
    }

    method AddToChannel(id: Scid, sender: NodeId, hash: Hash, htlc: C.Htlc) returns (r: Outcome<nat>)
      requires Separate() && id in channels && channels[id].Valid()
      modifies Cells()
      ensures var (c, result) := C.AddHtlc(old(Views())[id], sender, hash, htlc);
              r == result && Views() == old(Views())[id := c]
      ensures !r.Accepted? ==> Views() == old(Views())
    {
      AddHtlcEffect(channels[id].View(), sender, hash, htlc);
      channels[id].ValidFits();
      r := channels[id].AddHtlc(sender, hash, htlc);
      OneChannelChanged(id);
      assert !r.Accepted? ==> Views() == old(Views());
    }

    method RemoveFromChannel(id: Scid, sender: NodeId, hash: Hash, success: bool) returns (r: Outcome<C.Held>)
      requires Separate() && id in channels && channels[id].Valid()
      modifies Cells()
      ensures var (c, result) := C.RemoveHtlc(old(Views())[id], sender, hash, success);
              r == result && Views() == old(Views())[id := c]
    {
      r := channels[id].RemoveHtlc(sender, hash, success);
      OneChannelChanged(id);
    }

    /** The check of hop `i` against the policy of the next channel, when there is one. */
    method CheckNextHop(ghost p: Payment, route: Route, i: nat, outgoingAmount: U64) returns (r: Outcome<()>)
      requires p.route == route && i < |route| && outgoingAmount == AmountAt(route, i)
      ensures r == N.ForwardCheck(Views(), p, i)
    {
      r := Accepted(());
      if i + 1 < |route| && route[i + 1].scid in channels {
        var nextAmount: U64 := outgoingAmount - route[i].fee;
        r := channels[route[i + 1].scid].CheckHtlcForward(route[i].node, route[i].cltvDelta, nextAmount, route[i].fee);
      }
    }

    /** What an iteration of `add_htlcs` decides: `added` tells whether the HTLC is in flight, `verdict` what
        happens next. */
    static predicate Decided(p: Payment, q: Payment, i: nat, added: bool, verdict: Outcome<nat>) {
      && Continues(p, q)
      && q.phase.Locked() == (if added then i + 1 else i)
      && |q.indexes| == |p.indexes| + (if added then 1 else 0) && p.indexes <= q.indexes
      && q.notices == p.notices
      && match verdict
         case Accepted(index) => added && q == Extended(p, index, Intercepting(i))
         case Refused(_) => q.phase == N.StartFailing(if added then i + 1 else i)
         case Critical(_) => q.phase == Ended(Unknown, if added then i + 1 else i)
    }

    /** The answer to an addition, then the forward check: the first that is no acceptance decides. */
    static function Combined(r: Outcome<nat>, check: Outcome<()>): Outcome<nat> {
      if !r.Accepted? then r
      else match check
        case Accepted(_) => r
        case Refused(e) => Refused(e)
        case Critical(e) => Critical(e)
    }

    static lemma DecidedAfterAdd(before: Topology, p: Payment, i: nat, c: C.Chan, r: Outcome<nat>, check: Outcome<()>)
      requires i < |p.route| && p.phase == Adding(i)
      requires r.Accepted? ==> check == N.ForwardCheck(before[p.route[i].scid := c], p, i)
      ensures var (after, q) := N.AfterAdd(before, p, i, c, r);
              && after == (if r.Accepted? then before[p.route[i].scid := c] else before)
              && Decided(p, q, i, r.Accepted?, Combined(r, check))
    {
    }

    /** The locked section of `add_htlcs` for hop `i`: add the HTLC of this hop, then check it against the policy of
        the next channel. */
    method AddUnderLock(ghost p: Payment, route: Route, i: nat, outgoingNode: NodeId, hash: Hash,
                        outgoingAmount: U64, outgoingCltv: U32)
      returns (added: bool, verdict: Outcome<nat>)
      requires Separate()
      requires i < |route| && p.route == route && p.hash == hash && p.Sender(i) == outgoingNode
      requires route[i].scid in channels ==> channels[route[i].scid].Valid()
      requires outgoingAmount == AmountAt(route, i) && outgoingCltv == CltvAt(route, i)
      requires p.phase == Adding(i)
      modifies Cells()
      ensures Views() == N.AddSection(old(Views()), p, i).0
      ensures Decided(p, N.AddSection(old(Views()), p, i).1, i, added, verdict)
    {
      var hop := route[i];
      if hop.scid !in channels {
        return false, Critical(ChannelNotFound(hop.scid));
      }
      ghost var before := Views();
      var r := AddToChannel(hop.scid, outgoingNode, hash, C.Htlc(outgoingAmount, outgoingCltv));
      ghost var c, after := Views()[hop.scid], Views();
      assert after == before[hop.scid := c];
      var check := Accepted(());
      if r.Accepted? {
        check := CheckNextHop(p, route, i, outgoingAmount);
      }
      DecidedAfterAdd(before, p, i, c, r, check);
      return r.Accepted?, Combined(r, check);
    }

    /** The same as a step of task `k`. */
    method AddHop(ghost k: nat, route: Route, i: nat, outgoingNode: NodeId, hash: Hash,
                  outgoingAmount: U64, outgoingCltv: U32)
      returns (added: bool, verdict: Outcome<nat>)
      requires Valid() && k < |payments| && payments[k].phase == Adding(i)
      requires i < |route| && payments[k].route == route && payments[k].hash == hash
      requires outgoingNode == payments[k].Sender(i)
      requires outgoingAmount == AmountAt(route, i) && outgoingCltv == CltvAt(route, i)
      modifies this`trace, this`payments, Cells()
      ensures Valid() && trace == old(trace) + [N.Lock(k)]
      ensures |payments| == |old(payments)|
      ensures payments[k] == N.AddSection(old(Views()), old(payments[k]), i).1
      ensures Decided(old(payments[k]), payments[k], i, added, verdict)
    {
      ghost var before, p := Views(), payments[k];
      ChannelsValid();
      added, verdict := AddUnderLock(p, route, i, outgoingNode, hash, outgoingAmount, outgoingCltv);
      Record(before, N.Lock(k), payments[k := N.AddSection(before, p, i).1]);
    }

    /** The hop that task `k` is about to remove is there. */
    lemma HeldHop(k: nat)
      requires Valid() && k < |payments| && payments[k].phase.Removing?
      ensures var p := payments[k];
              var i := p.phase.hop;
              && PhaseOk(p) && i < |p.indexes| <= |p.route|
              && p.route[i].scid in channels && channels[p.route[i].scid].Valid()
              && (var (c, r) := C.RemoveHtlc(Views()[p.route[i].scid], p.Sender(i), p.hash, p.phase.result.Success?);
                  && r == Accepted(C.Held(p.HtlcAt(i), p.indexes[i]))
                  && N.RemoveSection(Views(), p, i, p.phase.result) == (Views()[p.route[i].scid := c], Shortened(p)))
    {
      var p := payments[k];
      ChannelsValid();
      assert TaskOk(base, Views(), p);
      RemoveSucceeds(base, Views(), p, p.phase.hop, p.phase.result.Success?);
      RemoveSectionMoves(base, Views(), p);
    }

    /** The locked section of `remove_htlcs` for hop `i`. It cannot fail: the entry made for this hop is there. */
    method RemoveHop(ghost k: nat, route: Route, i: nat, incomingNode: NodeId, hash: Hash, success: bool)
      returns (index: Outcome<nat>)
      requires Valid() && k < |payments| && payments[k].phase.Removing? && payments[k].phase.hop == i
      requires i < |route| && payments[k].route == route && payments[k].hash == hash
      requires incomingNode == payments[k].Sender(i) && success == payments[k].phase.result.Success?
      modifies this`trace, this`payments, Cells()
      ensures Valid() && trace == old(trace) + [N.Lock(k)]
      ensures |payments| == |old(payments)|
      ensures i < |old(payments[k].indexes)| && index == Accepted(old(payments[k].indexes)[i])
      ensures PhaseOk(old(payments[k])) && payments[k] == Shortened(old(payments[k]))
    {
      ghost var before, p := Views(), payments[k];
      HeldHop(k);
      var id := route[i].scid;
      if id !in channels {
        return Critical(ChannelNotFound(id));
      }
      var r := RemoveFromChannel(id, incomingNode, hash, success);
      match r
      case Refused(e) => return Refused(e);
      case Critical(e) => return Critical(e);
      case Accepted(held) =>
      assert N.RemoveSection(before, p, i, p.phase.result) == (Views(), Shortened(p));
      Record(before, N.Lock(k), payments[k := Shortened(p)]);
      return Accepted(held.index);
    }

    // ---------- The loops ----------

    /** `Await`, and what follows from it: the payment of task `k` stands where it stood. */
    method WaitFor(ghost k: nat)
      requires Valid() && k < |payments|
      modifies this`trace, this`payments, Cells()
      ensures Valid() && Extends(old(trace), trace)
      ensures k < |payments| && payments[k] == old(payments[k])
    {
      ghost var before, state := trace, N.State(Views(), payments);
      Await(k);
      ReachedByOthers(base, before, state, trace, N.State(Views(), payments), k);
    }

    /** Task `k` hears what the interceptors make of hop `i`; no channel is involved. */
    ghost method HearAnswer(k: nat, i: nat, answer: N.Answer)
      requires Valid() && k < |payments| && payments[k].phase == Intercepting(i)
      modifies this`trace, this`payments
      ensures Valid() && trace == old(trace) + [N.Reply(k, answer)]
      ensures |payments| == |old(payments)|
      ensures payments[k] == old(payments[k]).(phase := N.AfterReply(old(payments[k]), i, answer))
    {
      var q := payments[k].(phase := N.AfterReply(payments[k], i, answer));
      Record(Views(), N.Reply(k, answer), payments[k := q]);
    }

    /** Task `k` hears whether the interceptors could be told about the removal of hop `i`. */
    ghost method HearTold(k: nat, i: nat, ok: bool)
      requires Valid() && k < |payments| && payments[k].phase.Notifying? && payments[k].phase.hop == i
      modifies this`trace, this`payments
      ensures Valid() && trace == old(trace) + [N.Told(k, ok)]
      ensures |payments| == |old(payments)|
      ensures payments[k] == old(payments[k]).(phase := N.AfterTold(i, old(payments[k].phase.result), ok))
    {
      var q := payments[k].(phase := N.AfterTold(i, payments[k].phase.result, ok));
      Record(Views(), N.Told(k, ok), payments[k := q]);
    }

    /** Waits for the lock, then runs the section for hop `i`. */
    method LockAndAdd(ghost k: nat, route: Route, i: nat, outgoingNode: NodeId, hash: Hash,
                      outgoingAmount: U64, outgoingCltv: U32)
      returns (added: bool, verdict: Outcome<nat>)
      requires Valid() && k < |payments| && payments[k].phase == Adding(i)
      requires i < |route| && payments[k].route == route && payments[k].hash == hash
      requires outgoingNode == payments[k].Sender(i)
      requires outgoingAmount == AmountAt(route, i) && outgoingCltv == CltvAt(route, i)
      modifies this`trace, this`payments, Cells()
      ensures Valid() && Extends(old(trace), trace)
      ensures k < |payments| && Decided(old(payments[k]), payments[k], i, added, verdict)
    {
      WaitFor(k);
      added, verdict := AddHop(k, route, i, outgoingNode, hash, outgoingAmount, outgoingCltv);
    }

    /** Shows hop `i` to the interceptors and waits for them to decide on it, the lock being free meanwhile. */
    method AskInterceptors(ghost k: nat, route: Route, i: nat, hash: Hash, index: nat, incomingRecords: I.Records,
                           outgoingAmount: U64, outgoingCltv: U32, replies: seq<I.Replies>,
                           ghost customRecords: I.Records, ghost asked: seq<Consultation>)
      returns (said: Outcome<I.Records>, ghost asked': seq<Consultation>)
      requires Valid() && k < |payments| && payments[k].phase == Intercepting(i)
      requires i < |route| == |replies| && I.RepliesOk(replies[i])
      requires outgoingAmount == AmountAt(route, i) && outgoingCltv == CltvAt(route, i)
      requires |payments[k].indexes| == i + 1 && payments[k].indexes[i] == index && |asked| == i
      requires Consulted(route, hash, payments[k].indexes, customRecords, replies, asked)
      requires if i == 0 then incomingRecords == customRecords else asked[i - 1].said == Accepted(incomingRecords)
      modifies this`trace, this`payments, Cells()
      ensures Valid() && Extends(old(trace), trace)
      ensures k < |payments|
      ensures payments[k] == old(payments[k]).(phase := N.AfterReply(old(payments[k]), i, AnswerOf(said)))
      ensures |asked'| == i + 1 && asked'[i].said == said
      ensures Consulted(route, hash, payments[k].indexes, customRecords, replies, asked')
    {
      var hop := route[i];
      var nextScid := if i + 1 < |route| then Some(route[i + 1].scid) else None;
      var request := Request(hop.node, hash, hop.scid, index, incomingRecords, nextScid,
                             outgoingAmount, outgoingAmount - hop.fee, outgoingCltv, outgoingCltv - hop.cltvDelta);
      said := I.HandleIntercepted(request.records, replies[i]);
      asked' := asked + [Consultation(request, said)];
      ConsultedSnoc(route, hash, payments[k].indexes, customRecords, replies, asked, Consultation(request, said));
      WaitFor(k);
      HearAnswer(k, i, AnswerOf(said));
    }

    method LockAndRemove(ghost k: nat, route: Route, i: nat, incomingNode: NodeId, hash: Hash, success: bool)
      returns (index: Outcome<nat>)
      requires Valid() && k < |payments| && payments[k].phase.Removing? && payments[k].phase.hop == i
      requires i < |route| && payments[k].route == route && payments[k].hash == hash
      requires incomingNode == payments[k].Sender(i) && success == payments[k].phase.result.Success?
      modifies this`trace, this`payments, Cells()
      ensures Valid() && Extends(old(trace), trace)
      ensures i < |old(payments[k].indexes)| && index == Accepted(old(payments[k].indexes)[i])
      ensures PhaseOk(old(payments[k])) && k < |payments| && payments[k] == Shortened(old(payments[k]))
    {
      WaitFor(k);
      index := RemoveHop(k, route, i, incomingNode, hash, success);
    }

    /** Tells the interceptors that hop `i` is resolved; the notice is on record since the hop was unlocked. */
    method TellInterceptors(ghost k: nat, i: nat, notice: Notice, ok: bool)
      requires Valid() && k < |payments| && payments[k].phase.Notifying? && payments[k].phase.hop == i
      modifies this`trace, this`payments, Cells()
      ensures Valid() && Extends(old(trace), trace)
      ensures k < |payments|
      ensures payments[k] == old(payments[k]).(phase := N.AfterTold(i, old(payments[k].phase.result), ok))
    {
      WaitFor(k);
      HearTold(k, i, ok);
    }

    /** `add_htlcs`: locks the route hop by hop, asking the interceptors after each hop. `replies` is what they will
        say, hop by hop, in the order in which they finish; the records they attach travel on with the payment. The
        amount and expiry still to be forwarded are counted down in u64 and u32. */
    method AddHtlcs(ghost k: nat, source: NodeId, route: Route, hash: Hash, customRecords: I.Records,
                    replies: seq<I.Replies>)
      returns (r: AddResult, ghost asked: seq<Consultation>)
      requires Valid() && k < |payments| && payments[k] == Payment(source, route, hash, Adding(0), [], [])
      requires |replies| == |route| && forall i :: 0 <= i < |replies| ==> I.RepliesOk(replies[i])
      modifies this`trace, this`payments, Cells()
      ensures Valid() && Extends(old(trace), trace)
      ensures k < |payments| && Continues(old(payments[k]), payments[k]) && payments[k].notices == []
      ensures match r
              case AllAdded => payments[k].phase == Removing(|route| - 1, Success) && |payments[k].indexes| == |route|
              case Failed(None, _) => payments[k].phase == Ended(IndexFailure(0), 0) && payments[k].indexes == []
              case Failed(Some(last), _) =>
                && payments[k].phase == Removing(last, IndexFailure(last))
                && |payments[k].indexes| == last + 1 <= |route|
              case Broke(_) =>
                payments[k].phase == Ended(Unknown, |payments[k].indexes|) && |payments[k].indexes| <= |route|
      ensures Consulted(route, hash, payments[k].indexes, customRecords, replies, asked)
      ensures Concludes(asked, |route|, |payments[k].indexes|, r)
    {
      asked := [];
      PathTotals(route, 0);
      assert route[0..] == route;
      var outgoingNode := source;
      var outgoingAmount: U64 := PathFee(route) + FinalValue(route);
      var outgoingCltv: U32 := SumCltv(route);
      var incomingRecords := customRecords;
      var failIdx: Option<nat> := None;
      for i := 0 to |route|
        invariant Valid() && Extends(old(trace), trace)
        invariant k < |payments| && Continues(old(payments[k]), payments[k]) && payments[k].notices == []
        invariant payments[k].phase == if i < |route| then Adding(i) else Removing(i - 1, Success)
        invariant outgoingAmount == AmountAt(route, i) && outgoingCltv == CltvAt(route, i)
        invariant i < |route| ==> outgoingNode == payments[k].Sender(i)
        invariant failIdx == (if i == 0 then None else Some(i - 1)) && |payments[k].indexes| == i == |asked|
        invariant Consulted(route, hash, payments[k].indexes, customRecords, replies, asked)
        invariant if i == 0 then incomingRecords == customRecords else asked[i - 1].said == Accepted(incomingRecords)
      {
        var hop := route[i];
        assert AmountAt(route, i) == hop.fee + AmountAt(route, i + 1);
        assert CltvAt(route, i) == hop.cltvDelta + CltvAt(route, i + 1);
        ghost var before := payments[k].indexes;
        var added, verdict := LockAndAdd(k, route, i, outgoingNode, hash, outgoingAmount, outgoingCltv);
        if added { failIdx := Some(i); }
        ConsultedOn(route, hash, before, payments[k].indexes, customRecords, replies, asked);
        match verdict
        case Critical(e) => return Broke(e), asked;
        case Refused(e) => return Failed(failIdx, e), asked;
        case Accepted(index) =>
        var said;
        said, asked := AskInterceptors(k, route, i, hash, index, incomingRecords, outgoingAmount, outgoingCltv, replies,
                                       customRecords, asked);
        match said
        case Critical(e) => return Broke(e), asked;
        case Refused(e) => return Failed(failIdx, e), asked;
        case Accepted(records) =>
        incomingRecords := records;
        outgoingNode := hop.node;
        outgoingAmount := outgoingAmount - hop.fee;
        outgoingCltv := outgoingCltv - hop.cltvDelta;
      }
      return AllAdded, asked;
    }

    /** `remove_htlcs`: unlocks the route backwards from hop `last`, telling the interceptors of each hop. `hears`
        says which of these calls succeed; the first that fails stops the unwinding. */
    method RemoveHtlcs(ghost k: nat, last: nat, source: NodeId, route: Route, hash: Hash,
                       success: bool, hears: seq<bool>)
      returns (r: Option<CriticalError>, ghost told: seq<Notice>)
      requires Valid() && k < |payments| && last < |route| == |hears|
      requires payments[k].source == source && payments[k].route == route && payments[k].hash == hash
      requires payments[k].phase.Removing? && payments[k].phase.hop == last
      requires payments[k].phase.result.Success? == success && |payments[k].indexes| == last + 1
      modifies this`trace, this`payments, Cells()
      ensures Valid() && Extends(old(trace), trace)
      ensures k < |payments| && Continues(old(payments[k]), payments[k])
      ensures payments[k].phase.Ended? && payments[k].phase.result == old(payments[k].phase.result)
      ensures payments[k].indexes == old(payments[k].indexes)
      ensures r == None <==> false !in hears[..last + 1]
      ensures r == None ==> payments[k].phase.left == 0
      ensures r.Some? ==> payments[k].phase.left <= last && !hears[payments[k].phase.left]
                          && false !in hears[payments[k].phase.left + 1..last + 1]
      ensures payments[k].notices == old(payments[k].notices) + told
    {
      told := [];
      var outgoing: Option<Scid> := None;
      for i := last + 1 downto 0
        invariant Valid() && Extends(old(trace), trace)
        invariant k < |payments| && Continues(old(payments[k]), payments[k])
        invariant payments[k].indexes == old(payments[k].indexes)
        invariant payments[k].phase == if i > 0 then Removing(i - 1, old(payments[k].phase.result))
                                       else Ended(old(payments[k].phase.result), 0)
        invariant false !in hears[i..last + 1]
        invariant payments[k].notices == old(payments[k].notices) + told
        invariant outgoing == if i == last + 1 then None else Some(route[i].scid)
      {
        var incomingNode := if i == 0 then source else route[i - 1].node;
        var index := LockAndRemove(k, route, i, incomingNode, hash, success);
        match index
        case Critical(e) => return Some(e), told;
        case Refused(_) => assert false;
        case Accepted(number) =>
        var notice := Notice(route[i].node, route[i].scid, number, outgoing, success);
        told := told + [notice];
        TellInterceptors(k, i, notice, hears[i]);
        if !hears[i] { return Some(InterceptorBroke), told; }
        outgoing := Some(route[i].scid);
        assert hears[i..last + 1] == [hears[i]] + hears[i + 1..last + 1];
      }
      return None, told;
    }

    /** `propagate_payment`: what is reported for a payment is the result its task ended with. A shutdown is signalled
        exactly after a critical error, whose causes `Broken` lists, or when the interceptors fail to hear of the
        resolution of a hop added. `asked` and `told` are what the interceptors were shown. */
    method PropagatePayment(ghost k: nat, source: NodeId, route: Route, hash: Hash,
                            customRecords: I.Records, replies: seq<I.Replies>, hears: seq<bool>)
      returns (outcome: PaymentOutcome, shutdown: bool, ghost asked: seq<Consultation>, ghost told: seq<Notice>)
      requires Valid() && k < |payments| && payments[k] == Payment(source, route, hash, Adding(0), [], [])
      requires |replies| == |hears| == |route| && forall i :: 0 <= i < |replies| ==> I.RepliesOk(replies[i])
      modifies this`trace, this`payments, Cells()
      ensures Valid() && Extends(old(trace), trace)
      ensures k < |payments| && Continues(old(payments[k]), payments[k])
      ensures payments[k].phase.Ended? && payments[k].phase.result == outcome
      ensures |payments[k].indexes| <= |hears|
      ensures shutdown <==> outcome.Unknown? || false in hears[..|payments[k].indexes|]
      ensures !shutdown ==> payments[k].phase.left == 0
      ensures !outcome.Unknown? ==> StoppedAt(hears[..|payments[k].indexes|], payments[k].phase.left)
      ensures outcome.Unknown? ==> payments[k].phase.left == |payments[k].indexes|
      ensures outcome.Unknown? <==> O.Broken(base, trace, k)
      ensures Consulted(route, hash, payments[k].indexes, customRecords, replies, asked)
      ensures payments[k].notices == told
    {
      told := [];
      var added;
      added, asked := AddHtlcs(k, source, route, hash, customRecords, replies);
      match added
      case AllAdded =>
        var e;
        e, told := RemoveHtlcs(k, |route| - 1, source, route, hash, true, hears);
        outcome, shutdown := Success, e.Some?;
        BrokenNow(k);
      case Failed(None, _) =>
        outcome, shutdown := IndexFailure(0), false;
        BrokenNow(k);
      case Failed(Some(last), _) =>
        var e;
        e, told := RemoveHtlcs(k, last, source, route, hash, false, hears);
        outcome, shutdown := IndexFailure(last), e.Some?;
        BrokenNow(k);
      case Broke(_) =>
        outcome, shutdown := Unknown, true;
        BrokenNow(k);
    }

    lemma BrokenNow(k: nat)
      requires Valid() && k < |payments|
      ensures O.IsBroken(payments[k]) <==> O.Broken(base, trace, k)
    {
      ReachedBroken(base, trace, N.State(Views(), payments), k);
    }
  }
}

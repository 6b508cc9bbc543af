/** The network of channels and the tasks that propagate payments over it, as a step relation. The lock on the
    channels is taken for one hop at a time, so tasks interleave between any two hops. */
module Network {
  import opened Types
  import opened Channel
  import opened Payments

  datatype State = State(channels: Topology, payments: seq<Payment>)

  /** What the interceptors made of an HTLC. */
  datatype Answer = Proceed | Fail | Crash

  /** What happens next: a payment is dispatched, or the task of payment `p` runs up to its next await point.
      `Lock` is one section under the lock; `Reply` and `Told` end the two kinds of interceptor call. */
  datatype Choice =
    | Dispatch(source: NodeId, route: Route, hash: Hash)
    | Lock(p: nat)
    | Reply(p: nat, answer: Answer)
    | Told(p: nat, ok: bool)

  // ---------- Sections under the lock ----------

  /** Outcome of forwarding from hop `i` to hop `i + 1`, checked against the policy of the next channel. */
  function ForwardCheck(channels: Topology, p: Payment, i: nat): Outcome<()>
    requires i < |p.route|
  {
    if i + 1 < |p.route| && p.route[i + 1].scid in channels then
      var next := channels[p.route[i + 1].scid];
      match next.SideOf(p.route[i].node)
      case None => Critical(NodeNotFound(p.route[i].node))
      case Some(w) =>
        CheckForward(next.Get(w).policy, p.route[i].cltvDelta, AmountAt(p.route, i + 1), p.route[i].fee)
    else Accepted(())
  }

  /** Unwinding starts at the last hop that was added, if any. */
  function StartFailing(added: nat): Phase {
    if added == 0 then Ended(IndexFailure(0), 0) else Removing(added - 1, IndexFailure(added - 1))
  }

  /** What `add_htlcs` does with the answer of `add_htlc` for hop `i`, and channel `c` as it left it. */
  function AfterAdd(channels: Topology, p: Payment, i: nat, c: Chan, r: Outcome<nat>): (Topology, Payment)
    requires i < |p.route|
  {
    match r
    case Critical(_) => (channels, p.(phase := Ended(Unknown, i)))
    case Refused(_) => (channels, p.(phase := StartFailing(i)))
    case Accepted(index) =>
      var channels' := channels[p.route[i].scid := c];
      var p' := p.(indexes := p.indexes + [index]);
      match ForwardCheck(channels', p, i)
      case Critical(_) => (channels', p'.(phase := Ended(Unknown, i + 1)))
      case Refused(_) => (channels', p'.(phase := StartFailing(i + 1)))
      case Accepted(_) => (channels', p'.(phase := Intercepting(i)))
  }

  /** The iteration of `add_htlcs` for hop `i`, up to the release of the lock. */
  ghost function AddSection(channels: Topology, p: Payment, i: nat): (Topology, Payment)
    requires i < |p.route|
  {
    if p.route[i].scid !in channels then (channels, p.(phase := Ended(Unknown, i)))
    else
      var (c, r) := AddHtlc(channels[p.route[i].scid], p.Sender(i), p.hash, p.HtlcAt(i));
      AfterAdd(channels, p, i, c, r)
  }

  function NoticeAt(p: Payment, i: nat, index: nat, success: bool): Notice
    requires i < |p.route|
  {
    Notice(p.route[i].node, p.route[i].scid, index,
           if i + 1 < |p.indexes| && i + 1 < |p.route| then Some(p.route[i + 1].scid) else None, success)
  }

  /** What `remove_htlcs` does with the answer of `remove_htlc` for hop `i`, and channel `c` as it left it. */
  function AfterRemove(channels: Topology, p: Payment, i: nat, result: PaymentOutcome, c: Chan, r: Outcome<Held>)
    : (Topology, Payment)
    requires i < |p.route|
  {
    match r
    case Accepted(e) =>
      (channels[p.route[i].scid := c],
       p.(phase := Notifying(i, result), notices := p.notices + [NoticeAt(p, i, e.index, result.Success?)]))
    case _ => (channels[p.route[i].scid := c], p.(phase := Ended(result, i + 1)))
  }

  /** The iteration of `remove_htlcs` for hop `i`, up to the release of the lock. */
  ghost function RemoveSection(channels: Topology, p: Payment, i: nat, result: PaymentOutcome): (Topology, Payment)
    requires i < |p.route|
  {
    if p.route[i].scid !in channels then (channels, p.(phase := Ended(result, i + 1)))
    else
      var (c, r) := RemoveHtlc(channels[p.route[i].scid], p.Sender(i), p.hash, result.Success?);
      AfterRemove(channels, p, i, result, c, r)
  }

  // ---------- Steps and runs ----------

  /** After the interceptors have answered for hop `i`. */
  function AfterReply(p: Payment, i: nat, a: Answer): Phase {
    match a
    case Proceed => if i + 1 < |p.route| then Adding(i + 1) else Removing(i, Success)
    case Fail => StartFailing(i + 1)
    case Crash => Ended(Unknown, i + 1)
  }

  /** After the interceptors were told about the removal of hop `i`; an error stops the unwinding there. */
  function AfterTold(i: nat, result: PaymentOutcome, ok: bool): Phase {
    if ok && i > 0 then Removing(i - 1, result) else Ended(result, i)
  }

  /** One step of the task of `p`. A choice that does not fit its phase changes nothing. */
  ghost function TaskStep(channels: Topology, p: Payment, c: Choice): (Topology, Payment) {
    match (p.phase, c)
    case (Adding(i), Lock(_)) => if i < |p.route| then AddSection(channels, p, i) else (channels, p)
    case (Intercepting(i), Reply(_, a)) => (channels, p.(phase := AfterReply(p, i, a)))
    case (Removing(i, result), Lock(_)) =>
      if i < |p.route| then RemoveSection(channels, p, i, result) else (channels, p)
    case (Notifying(i, result), Told(_, ok)) => (channels, p.(phase := AfterTold(i, result, ok)))
    case _ => (channels, p)
  }

  ghost function Step(s: State, c: Choice): State {
    match c
    case Dispatch(source, route, hash) =>
      State(s.channels, s.payments + [Payment(source, route, hash, Adding(0), [], [])])
    case _ =>
      if c.p < |s.payments| then
        var (channels, p) := TaskStep(s.channels, s.payments[c.p], c);
        State(channels, s.payments[c.p := p])
      else s
  }

  /** The state after a sequence of choices, in the order they happen. */
  ghost function Run(base: Topology, cs: seq<Choice>): State {
    if cs == [] then State(base, [])
    else Step(Run(base, cs[..|cs| - 1]), cs[|cs| - 1])
  }

  /** The states that some run from `base` leads to. */
  ghost predicate Reachable(base: Topology, s: State) {
    exists cs :: Run(base, cs) == s
  }
}

/** How the results of payments travel from the nodes to the logger: send tasks, a bounded channel, a producer that
    spawns trackers, a second bounded channel and a consumer, taking steps in any order. */
module Reporting {
  import opened Types

  datatype Payment = Payment(source: NodeId, destination: NodeId, amount: nat, time: nat)

  datatype Result = Success | NotDispatched | TrackPaymentFailed | OtherFailure(code: nat)

  /** What a send task tells the producer. */
  datatype Output = Dispatched(payment: Payment, hash: Hash) | Failed(payment: Payment, result: Result)

  datatype Report = Report(payment: Payment, result: Result)

  /** What the node answers to a request to send. */
  datatype Answer = Sent(hash: Hash) | Unsent | PermanentError

  /** The counters of the logger. */
  datatype Totals = Totals(success: nat, failed: nat, sent: nat)

  /** Room in each of the two channels. */
  const CAPACITY: nat := 1

  datatype Pipeline = Pipeline(
    dispatched: seq<Payment>,
    sending: multiset<Payment>,
    output: seq<Output>,
    passing: Option<Report>,
    tracking: multiset<Payment>,
    results: seq<Report>,
    reported: seq<Report>,
    totals: Totals,
    lost: multiset<Payment>,
    stopped: bool,
    gone: bool)

  /** Which task takes the next step, and what it is told from outside. */
  datatype Choice =
    | Dispatch(p: Payment)
    | Send(p: Payment, answer: Answer)
    | Receive
    | Pass
    | Track(p: Payment, result: Result)
    | Consume
    | Shutdown

  const START: Pipeline :=
    Pipeline([], multiset{}, [], None, multiset{}, [], [], Totals(0, 0, 0), multiset{}, false, false)

  function PaymentsIn(reports: seq<Report>): seq<Payment> {
    seq(|reports|, i requires 0 <= i < |reports| => reports[i].payment)
  }

  function OutputsIn(output: seq<Output>): seq<Payment> {
    seq(|output|, i requires 0 <= i < |output| => output[i].payment)
  }

  function Logged(t: Totals, r: Report): Totals {
    Totals(if r.result.Success? then t.success + 1 else t.success,
           if r.result.Success? then t.failed else t.failed + 1,
           t.sent + r.payment.amount)
  }

  /** `send_payment`: a permanent error, or a channel whose receiver is gone, ends the task and shuts everything
      down; otherwise it waits for room. */
  function AfterSend(v: Pipeline, p: Payment, answer: Answer): Pipeline
    requires p in v.sending
  {
    var rest := v.(sending := v.sending - multiset{p});
    if answer.PermanentError? || v.gone then rest.(lost := v.lost + multiset{p}, stopped := true)
    else if |v.output| >= CAPACITY then v
    else rest.(output := v.output + [if answer.Sent? then Dispatched(p, answer.hash) else Failed(p, NotDispatched)])
  }

  /** The producer ends, and with it the channel of outputs and what is in it. */
  function WithoutProducer(v: Pipeline): Pipeline {
    v.(output := [], lost := v.lost + multiset(OutputsIn(v.output)), stopped := true, gone := true)
  }

  /** The producer takes an output: it spawns a tracker for a payment that was dispatched, or ends if its source is not
      a node, and holds on to a failure to pass it on. */
  function AfterReceive(nodes: set<NodeId>, v: Pipeline): Pipeline
    requires v.output != []
  {
    var rest := v.(output := v.output[1..]);
    match v.output[0]
    case Dispatched(p, _) =>
      if p.source in nodes then rest.(tracking := v.tracking + multiset{p})
      else WithoutProducer(v)
    case Failed(p, result) => rest.(passing := Some(Report(p, result)))
  }

  /** The producer passes a failure on, once there is room; on shutdown it ends. */
  function AfterPass(v: Pipeline): Pipeline
    requires v.passing.Some?
  {
    if v.stopped then WithoutProducer(v.(passing := None, lost := v.lost + multiset{v.passing.value.payment}))
    else if |v.results| >= CAPACITY then v
    else v.(passing := None, results := v.results + [v.passing.value])
  }

  /** A tracker passes its result on, once there is room; on shutdown it ends. */
  function AfterTrack(v: Pipeline, p: Payment, result: Result): Pipeline
    requires p in v.tracking
  {
    var rest := v.(tracking := v.tracking - multiset{p});
    if v.stopped then rest.(lost := v.lost + multiset{p})
    else if |v.results| >= CAPACITY then v
    else rest.(results := v.results + [Report(p, result)])
  }

  /** The consumer takes a result and reports it; on shutdown it ends, and with it the channel of results and what is
      in it. */
  function AfterConsume(v: Pipeline): Pipeline
    requires v.results != []
  {
    if v.stopped then v.(results := [], lost := v.lost + multiset(PaymentsIn(v.results)))
    else v.(results := v.results[1..], reported := v.reported + [v.results[0]],
            totals := Logged(v.totals, v.results[0]))
  }

  /** One step; a step that its task cannot take now changes nothing. */
  function Step(nodes: set<NodeId>, v: Pipeline, c: Choice): Pipeline {
    match c
    case Dispatch(p) =>
      if v.stopped || p.source !in nodes then v
      else v.(dispatched := v.dispatched + [p], sending := v.sending + multiset{p})
    case Send(p, answer) => if p in v.sending then AfterSend(v, p, answer) else v
    case Receive => if v.gone || v.passing.Some? || v.output == [] then v else AfterReceive(nodes, v)
    case Pass => if v.gone || v.passing.None? then v else AfterPass(v)
    case Track(p, result) => if p in v.tracking then AfterTrack(v, p, result) else v
    case Consume => if v.results == [] then v else AfterConsume(v)
    case Shutdown => v.(stopped := true)
  }

  function Run(nodes: set<NodeId>, cs: seq<Choice>): Pipeline {
    if cs == [] then START else Step(nodes, Run(nodes, cs[..|cs| - 1]), cs[|cs| - 1])
  }

  /** The states that some run leads to. */
  ghost predicate Reachable(nodes: set<NodeId>, v: Pipeline) {
    exists cs :: Run(nodes, cs) == v
  }

  // ---------- The class that keeps the totals ----------

  function Successes(reports: seq<Report>): nat {
    if reports == [] then 0
    else Successes(reports[..|reports| - 1]) + if reports[|reports| - 1].result.Success? then 1 else 0
  }

  function Amount(ps: seq<Payment>): nat {
    if ps == [] then 0 else Amount(ps[..|ps| - 1]) + ps[|ps| - 1].amount
  }

  /** The totals count the reports. */
  ghost predicate Counts(t: Totals, reports: seq<Report>) {
    && t.success == Successes(reports) && t.success + t.failed == |reports|
    && t.sent == Amount(PaymentsIn(reports))
  }

  lemma LoggedCounts(t: Totals, reports: seq<Report>, r: Report)
    requires Counts(t, reports)
    ensures Counts(Logged(t, r), reports + [r])
  {
    var more := reports + [r];
    assert more[..|more| - 1] == reports;
    assert PaymentsIn(more) == PaymentsIn(reports) + [r.payment];
    assert PaymentsIn(more)[..|more| - 1] == PaymentsIn(reports);
  }

  class PaymentResultLogger {
    var successPayment: U64
    var failedPayment: U64
    var totalSent: U64

    constructor ()
      ensures View() == Totals(0, 0, 0)
    {
      successPayment, failedPayment, totalSent := 0, 0, 0;
    }

    function View(): Totals
      reads this
    {
      Totals(successPayment, failedPayment, totalSent)
    }

    /** `report_result`. The counters are u64. */
    method ReportResult(r: Report)
      requires successPayment + failedPayment < U64_MAX && totalSent + r.payment.amount <= U64_MAX
      modifies this
      ensures View() == Logged(old(View()), r)
    {
      match r.result {
        case Success => successPayment := successPayment + 1;
        case _ => failedPayment := failedPayment + 1;
      }
      totalSent := totalSent + r.payment.amount;
    }

    /** `consume_simulation_results`: reports what it receives, until the channel is closed or, after `read` of the
        results, the listener tells of a shutdown. The counters add up to the reports read and to their amounts. */
    method ConsumeResults(received: seq<Report>, read: nat)
      requires read <= |received| && View() == Totals(0, 0, 0)
      requires read <= U64_MAX && Amount(PaymentsIn(received[..read])) <= U64_MAX
      modifies this
      ensures Counts(View(), received[..read])
    {
      ghost var reports := received[..read];
      for i := 0 to read
        invariant Counts(View(), reports[..i])
      {
        assert reports[..i + 1] == reports[..i] + [received[i]];
        LoggedCounts(View(), reports[..i], received[i]);
        AmountOfPrefix(reports, i + 1);
        ReportResult(received[i]);
      }
      assert reports[..read] == reports;
    }
  }

  lemma {:induction false} AmountOfPrefix(reports: seq<Report>, i: nat)
    requires i <= |reports|
    ensures Amount(PaymentsIn(reports[..i])) <= Amount(PaymentsIn(reports))
    decreases |reports| - i
  {
    if i < |reports| {
      AmountOfPrefix(reports, i + 1);
      assert PaymentsIn(reports[..i + 1])[..i] == PaymentsIn(reports[..i]);
    } else {
      assert reports[..i] == reports;
    }
  }
}

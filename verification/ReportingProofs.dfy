/** No payment is reported twice in any run, and without a shutdown or a permanent error every payment is reported. */
module ReportingProofs {
  import opened Types
  import opened Reporting

  function CopiesOut(output: seq<Output>, q: Payment): nat {
    multiset(OutputsIn(output))[q]
  }

  function CopiesIn(reports: seq<Report>, q: Payment): nat {
    multiset(PaymentsIn(reports))[q]
  }

  function CopiesPassing(v: Pipeline, q: Payment): nat {
    if v.passing.Some? && v.passing.value.payment == q then 1 else 0
  }

  /** How often payment `q` is anywhere in the pipeline, reported or lost. */
  function Copies(v: Pipeline, q: Payment): nat {
    v.sending[q] + CopiesOut(v.output, q) + CopiesPassing(v, q) + v.tracking[q] + CopiesIn(v.results, q)
    + CopiesIn(v.reported, q) + v.lost[q]
  }

  /** Every payment is somewhere as often as it was dispatched. */
  ghost predicate Conserved(v: Pipeline) {
    forall q :: Copies(v, q) == multiset(v.dispatched)[q]
  }

  /** The payments dispatched come from nodes. */
  predicate FromNodes(nodes: set<NodeId>, v: Pipeline) {
    forall p :: p in v.dispatched ==> p.source in nodes
  }

  ghost predicate Inv(nodes: set<NodeId>, v: Pipeline) {
    && Conserved(v)
    && FromNodes(nodes, v)
    && Counts(v.totals, v.reported)
    && |v.output| <= CAPACITY && |v.results| <= CAPACITY
    && ProducerOk(v)
  }

  /** A producer that has ended left nothing behind, and the simulation is shutting down. */
  predicate ProducerOk(v: Pipeline) {
    v.gone ==> v.stopped && v.passing.None? && v.output == []
  }

  // ---------- Conservation ----------

  lemma OutputsSnoc(xs: seq<Output>, x: Output, q: Payment)
    ensures CopiesOut(xs + [x], q) == CopiesOut(xs, q) + if x.payment == q then 1 else 0
  {
    assert OutputsIn(xs + [x]) == OutputsIn(xs) + [x.payment];
  }

  lemma OutputsHead(xs: seq<Output>, q: Payment)
    requires xs != []
    ensures CopiesOut(xs, q) == CopiesOut(xs[1..], q) + if xs[0].payment == q then 1 else 0
  {
    assert OutputsIn(xs) == [xs[0].payment] + OutputsIn(xs[1..]);
  }

  lemma ReportsSnoc(xs: seq<Report>, x: Report, q: Payment)
    ensures CopiesIn(xs + [x], q) == CopiesIn(xs, q) + if x.payment == q then 1 else 0
  {
    assert PaymentsIn(xs + [x]) == PaymentsIn(xs) + [x.payment];
  }

  lemma ReportsHead(xs: seq<Report>, q: Payment)
    requires xs != []
    ensures CopiesIn(xs, q) == CopiesIn(xs[1..], q) + if xs[0].payment == q then 1 else 0
  {
    assert PaymentsIn(xs) == [xs[0].payment] + PaymentsIn(xs[1..]);
  }

  /** How many copies of `q` there are beyond those dispatched. */
  function Surplus(v: Pipeline, q: Payment): int {
    Copies(v, q) - multiset(v.dispatched)[q]
  }

  lemma DispatchConserves(nodes: set<NodeId>, v: Pipeline, p: Payment, q: Payment)
    ensures Surplus(Step(nodes, v, Dispatch(p)), q) == Surplus(v, q)
  {
  }

  /** A payment that a send task hands over, with the rest of the state as it was. */
  lemma SendMoves(v: Pipeline, v': Pipeline, p: Payment, q: Payment)
    requires p in v.sending && v'.sending == v.sending - multiset{p}
    requires v'.dispatched == v.dispatched && v'.passing == v.passing && v'.tracking == v.tracking
    requires v'.results == v.results && v'.reported == v.reported
    requires CopiesOut(v'.output, q) + v'.lost[q] == CopiesOut(v.output, q) + v.lost[q] + if p == q then 1 else 0
    ensures Surplus(v', q) == Surplus(v, q)
  {
  }

  lemma SendConserves(v: Pipeline, p: Payment, answer: Answer, q: Payment)
    requires p in v.sending
    ensures Surplus(AfterSend(v, p, answer), q) == Surplus(v, q)
  {
    var output := if answer.Sent? then Dispatched(p, answer.hash) else Failed(p, NotDispatched);
    OutputsSnoc(v.output, output, q);
    if AfterSend(v, p, answer) != v { SendMoves(v, AfterSend(v, p, answer), p, q); }
  }

  lemma WithoutProducerConserves(v: Pipeline, q: Payment)
    ensures Surplus(WithoutProducer(v), q) == Surplus(v, q)
  {
  }

  /** An output that is moved elsewhere, with the rest of the state as it was. */
  lemma HeadMoves(v: Pipeline, v': Pipeline, q: Payment)
    requires v.output != [] && v.passing.None? && v'.output == v.output[1..]
    requires v'.dispatched == v.dispatched && v'.sending == v.sending && v'.lost == v.lost
    requires v'.results == v.results && v'.reported == v.reported
    requires v'.tracking[q] + CopiesPassing(v', q) == v.tracking[q] + if v.output[0].payment == q then 1 else 0
    ensures Surplus(v', q) == Surplus(v, q)
  {
    OutputsHead(v.output, q);
  }

  lemma ReceiveConserves(nodes: set<NodeId>, v: Pipeline, q: Payment)
    requires v.output != [] && v.passing.None?
    ensures Surplus(AfterReceive(nodes, v), q) == Surplus(v, q)
  {
    if v.output[0].Dispatched? && v.output[0].payment.source !in nodes {
      WithoutProducerConserves(v, q);
    } else {
      HeadMoves(v, AfterReceive(nodes, v), q);
    }
  }

  lemma PassConserves(v: Pipeline, q: Payment)
    requires v.passing.Some?
    ensures Surplus(AfterPass(v), q) == Surplus(v, q)
  {
    if v.stopped {
      WithoutProducerConserves(v.(passing := None, lost := v.lost + multiset{v.passing.value.payment}), q);
    } else {
      ReportsSnoc(v.results, v.passing.value, q);
    }
  }

  lemma TrackConserves(v: Pipeline, p: Payment, result: Result, q: Payment)
    requires p in v.tracking
    ensures Surplus(AfterTrack(v, p, result), q) == Surplus(v, q)
  {
    ReportsSnoc(v.results, Report(p, result), q);
  }

  lemma ConsumeConserves(v: Pipeline, q: Payment)
    requires v.results != []
    ensures Surplus(AfterConsume(v), q) == Surplus(v, q)
  {
    if !v.stopped {
      ReportsHead(v.results, q);
      ReportsSnoc(v.reported, v.results[0], q);
    }
  }

  /** Every step but a dispatch leaves a payment where it is or moves it from one place to another. */
  lemma StepConserves(nodes: set<NodeId>, v: Pipeline, c: Choice, q: Payment)
    ensures Surplus(Step(nodes, v, c), q) == Surplus(v, q)
  {
    match c
    case Dispatch(p) => DispatchConserves(nodes, v, p, q);
    case Send(p, answer) => if p in v.sending { SendConserves(v, p, answer, q); }
    case Receive => if v.output != [] && v.passing.None? { ReceiveConserves(nodes, v, q); }
    case Pass => if v.passing.Some? { PassConserves(v, q); }
    case Track(p, result) => if p in v.tracking { TrackConserves(v, p, result, q); }
    case Consume => if v.results != [] { ConsumeConserves(v, q); }
    case Shutdown =>
  }

  lemma StepKeepsCounts(nodes: set<NodeId>, v: Pipeline, c: Choice)
    requires Counts(v.totals, v.reported)
    ensures Counts(Step(nodes, v, c).totals, Step(nodes, v, c).reported)
  {
    if c.Consume? && v.results != [] { LoggedCounts(v.totals, v.reported, v.results[0]); }
  }

  lemma StepKeepsRoom(nodes: set<NodeId>, v: Pipeline, c: Choice)
    requires |v.output| <= CAPACITY && |v.results| <= CAPACITY && FromNodes(nodes, v)
    ensures var v' := Step(nodes, v, c); |v'.output| <= CAPACITY && |v'.results| <= CAPACITY && FromNodes(nodes, v')
  {
  }

  lemma StepKeepsProducer(nodes: set<NodeId>, v: Pipeline, c: Choice)
    requires ProducerOk(v)
    ensures ProducerOk(Step(nodes, v, c))
  {
  }

  lemma StepKeepsInv(nodes: set<NodeId>, v: Pipeline, c: Choice)
    requires Inv(nodes, v)
    ensures Inv(nodes, Step(nodes, v, c))
  {
    StepKeepsCounts(nodes, v, c);
    StepKeepsRoom(nodes, v, c);
    StepKeepsProducer(nodes, v, c);
    forall q ensures Copies(Step(nodes, v, c), q) == multiset(Step(nodes, v, c).dispatched)[q] {
      StepConserves(nodes, v, c, q);
      assert Surplus(v, q) == 0;
    }
  }

  lemma StartInv(nodes: set<NodeId>)
    ensures Inv(nodes, START)
  {
  }

  lemma LastStepKeepsInv(nodes: set<NodeId>, cs: seq<Choice>)
    requires cs != [] && Inv(nodes, Run(nodes, cs[..|cs| - 1]))
    ensures Inv(nodes, Run(nodes, cs))
  {
    StepKeepsInv(nodes, Run(nodes, cs[..|cs| - 1]), cs[|cs| - 1]);
  }

  lemma {:induction false} RunKeepsInv(nodes: set<NodeId>, cs: seq<Choice>)
    ensures Inv(nodes, Run(nodes, cs))
  {
    if cs == [] {
      StartInv(nodes);
    } else {
      RunKeepsInv(nodes, cs[..|cs| - 1]);
      LastStepKeepsInv(nodes, cs);
    }
  }

  /** In every run, with shutdowns and errors of any kind, no payment is reported more often than it was dispatched,
      the counters are those of the reports, and no channel holds more than it has room for. */
  lemma NeverTwice(nodes: set<NodeId>, v: Pipeline)
    requires Reachable(nodes, v)
    ensures multiset(PaymentsIn(v.reported)) <= multiset(v.dispatched)
    ensures v.totals.success + v.totals.failed == |v.reported|
    ensures v.totals.success == Successes(v.reported) && v.totals.sent == Amount(PaymentsIn(v.reported))
    ensures |v.output| <= CAPACITY && |v.results| <= CAPACITY
  {
    var cs :| Run(nodes, cs) == v;
    RunKeepsInv(nodes, cs);
    NoMoreThanDispatched(v);
    assert Counts(v.totals, v.reported);
  }

  lemma NoMoreThanDispatched(v: Pipeline)
    requires Conserved(v)
    ensures multiset(PaymentsIn(v.reported)) <= multiset(v.dispatched)
  {
    forall q ensures multiset(PaymentsIn(v.reported))[q] <= multiset(v.dispatched)[q] {
      assert CopiesIn(v.reported, q) <= Copies(v, q);
    }
  }

  // ---------- Nothing is lost ----------

  predicate Calm(c: Choice) {
    !c.Shutdown? && (c.Send? ==> !c.answer.PermanentError?)
  }

  predicate AllCalm(cs: seq<Choice>) {
    forall i :: 0 <= i < |cs| ==> Calm(cs[i])
  }

  predicate Unharmed(v: Pipeline) {
    !v.stopped && !v.gone && v.lost == multiset{}
  }

  /** The producer always finds the node: only payments of nodes were dispatched. */
  lemma CalmStep(nodes: set<NodeId>, v: Pipeline, c: Choice)
    requires Inv(nodes, v) && Unharmed(v) && Calm(c)
    ensures Unharmed(Step(nodes, v, c))
  {
    if c.Receive? && v.output != [] {
      OutputFromNode(nodes, v);
    }
  }

  lemma {:induction false} CalmRun(nodes: set<NodeId>, cs: seq<Choice>)
    requires AllCalm(cs)
    ensures Unharmed(Run(nodes, cs))
  {
    if cs == [] {
    } else {
      CalmRun(nodes, cs[..|cs| - 1]);
      RunKeepsInv(nodes, cs[..|cs| - 1]);
      CalmStep(nodes, Run(nodes, cs[..|cs| - 1]), cs[|cs| - 1]);
    }
  }

  /** No payment is under way. */
  predicate Drained(v: Pipeline) {
    && v.sending == multiset{} && v.output == [] && v.passing.None?
    && v.tracking == multiset{} && v.results == []
  }

  /** Sums do not depend on the order. */
  lemma {:induction false} AmountOfPermutation(ps: seq<Payment>, qs: seq<Payment>)
    requires multiset(ps) == multiset(qs)
    ensures Amount(ps) == Amount(qs) && |ps| == |qs|
    decreases |ps|
  {
    assert |multiset(ps)| == |ps| && |multiset(qs)| == |qs|;
    if ps == [] {
    } else {
      var init, last := ps[..|ps| - 1], ps[|ps| - 1];
      assert ps == init + [last];
      assert last in multiset(qs);
      var k :| 0 <= k < |qs| && qs[k] == last;
      AmountWithout(qs, k);
      OneOut(qs, k);
      AmountOfPermutation(init, qs[..k] + qs[k + 1..]);
    }
  }

  lemma {:induction false} AmountWithout(qs: seq<Payment>, k: nat)
    requires k < |qs|
    ensures Amount(qs) == Amount(qs[..k] + qs[k + 1..]) + qs[k].amount
    decreases |qs|
  {
    var init, rest := qs[..|qs| - 1], qs[..k] + qs[k + 1..];
    if k == |qs| - 1 {
      assert rest == init;
    } else {
      AmountWithout(init, k);
      assert rest[..|rest| - 1] == init[..k] + init[k + 1..];
    }
  }

  lemma OneOut<T>(qs: seq<T>, k: nat)
    requires k < |qs|
    ensures multiset(qs[..k] + qs[k + 1..]) == multiset(qs) - multiset{qs[k]}
  {
    assert qs == qs[..k] + [qs[k]] + qs[k + 1..];
  }

  /** A step at which a payment gets lost: the node reports a permanent error, the producer is gone, a task that has a
      result to pass on finds that the simulation is shutting down, or the consumer does while results are waiting. */
  predicate DropsAt(v: Pipeline, c: Choice) {
    match c
    case Send(p, answer) => p in v.sending && (answer.PermanentError? || v.gone)
    case Pass => !v.gone && v.passing.Some? && v.stopped
    case Track(p, _) => p in v.tracking && v.stopped
    case Consume => v.stopped && v.results != []
    case _ => false
  }

  predicate Drops(nodes: set<NodeId>, cs: seq<Choice>, j: nat) {
    j < |cs| && DropsAt(Run(nodes, cs[..j]), cs[j])
  }

  ghost predicate SomeDrop(nodes: set<NodeId>, cs: seq<Choice>) {
    exists j :: Drops(nodes, cs, j)
  }

  /** A step that shuts the simulation down: from outside, or because a send task fails for good. */
  predicate StopsAt(v: Pipeline, c: Choice) {
    c.Shutdown? || (c.Send? && c.p in v.sending && (c.answer.PermanentError? || v.gone))
  }

  predicate Stops(nodes: set<NodeId>, cs: seq<Choice>, j: nat) {
    j < |cs| && StopsAt(Run(nodes, cs[..j]), cs[j])
  }

  ghost predicate SomeStop(nodes: set<NodeId>, cs: seq<Choice>) {
    exists j :: Stops(nodes, cs, j)
  }

  /** A run is shut down exactly when it takes such a step. */
  lemma {:induction false} StoppedIff(nodes: set<NodeId>, cs: seq<Choice>)
    ensures Run(nodes, cs).stopped <==> SomeStop(nodes, cs)
  {
    if cs == [] {
      assert !SomeStop(nodes, cs);
    } else {
      var init := cs[..|cs| - 1];
      StoppedIff(nodes, init);
      RunKeepsInv(nodes, init);
      StepStops(nodes, Run(nodes, init), cs[|cs| - 1]);
      StopsSnoc(nodes, cs);
    }
  }

  lemma StepStops(nodes: set<NodeId>, v: Pipeline, c: Choice)
    requires Inv(nodes, v)
    ensures Step(nodes, v, c).stopped <==> v.stopped || StopsAt(v, c)
  {
    if v.output != [] { OutputFromNode(nodes, v); }
  }

  lemma StopsSnoc(nodes: set<NodeId>, cs: seq<Choice>)
    requires cs != []
    ensures SomeStop(nodes, cs) <==> SomeStop(nodes, cs[..|cs| - 1]) || Stops(nodes, cs, |cs| - 1)
  {
    var init := cs[..|cs| - 1];
    forall j: nat | j < |init| ensures Stops(nodes, cs, j) <==> Stops(nodes, init, j) {
      assert cs[..j] == init[..j];
    }
    assert forall j: nat :: Stops(nodes, cs, j) && j != |cs| - 1 ==> Stops(nodes, init, j);
    assert forall j: nat :: Stops(nodes, init, j) ==> Stops(nodes, cs, j);
  }

  /** The payment of an output that is waiting was dispatched, so its source is a node. */
  lemma OutputFromNode(nodes: set<NodeId>, v: Pipeline)
    requires Inv(nodes, v) && v.output != []
    ensures v.output[0].payment.source in nodes
  {
    var p := v.output[0].payment;
    OutputsHead(v.output, p);
    assert Copies(v, p) == multiset(v.dispatched)[p];
    assert p in multiset(v.dispatched);
  }

  lemma StepLoses(nodes: set<NodeId>, v: Pipeline, c: Choice)
    requires c.Receive? && v.output != [] ==> v.output[0].payment.source in nodes
    ensures |Step(nodes, v, c).lost| >= |v.lost|
    ensures |Step(nodes, v, c).lost| > |v.lost| <==> DropsAt(v, c)
  {
    assert |multiset(PaymentsIn(v.results))| == |v.results|;
  }

  lemma StepLosesIff(nodes: set<NodeId>, v: Pipeline, c: Choice)
    requires Inv(nodes, v)
    ensures Step(nodes, v, c).lost != multiset{} <==> v.lost != multiset{} || DropsAt(v, c)
  {
    if c.Receive? && v.output != [] { OutputFromNode(nodes, v); }
    StepLoses(nodes, v, c);
    EmptyIffNone(v.lost);
    EmptyIffNone(Step(nodes, v, c).lost);
  }

  lemma EmptyIffNone(m: multiset<Payment>)
    ensures m == multiset{} <==> |m| == 0
  {
  }

  lemma SomeDropSnoc(nodes: set<NodeId>, cs: seq<Choice>)
    requires cs != []
    ensures SomeDrop(nodes, cs) <==> SomeDrop(nodes, cs[..|cs| - 1]) || Drops(nodes, cs, |cs| - 1)
  {
    var init := cs[..|cs| - 1];
    forall j: nat | j < |init| ensures Drops(nodes, cs, j) <==> Drops(nodes, init, j) {
      assert cs[..j] == init[..j];
    }
    assert forall j: nat :: Drops(nodes, cs, j) && j != |cs| - 1 ==> Drops(nodes, init, j);
    assert forall j: nat :: Drops(nodes, init, j) ==> Drops(nodes, cs, j);
  }

  /** A run loses a payment exactly when it takes a step that drops one. */
  lemma {:induction false} LosesIff(nodes: set<NodeId>, cs: seq<Choice>)
    ensures Run(nodes, cs).lost != multiset{} <==> SomeDrop(nodes, cs)
  {
    if cs == [] {
      assert !SomeDrop(nodes, cs);
    } else {
      var init := cs[..|cs| - 1];
      LosesIff(nodes, init);
      RunKeepsInv(nodes, init);
      StepLosesIff(nodes, Run(nodes, init), cs[|cs| - 1]);
      SomeDropSnoc(nodes, cs);
    }
  }

  lemma SomethingUnderWay(v: Pipeline) returns (p: Payment)
    requires !Drained(v)
    ensures v.sending[p] + CopiesOut(v.output, p) + CopiesPassing(v, p) + v.tracking[p] + CopiesIn(v.results, p) > 0
  {
    if v.output != [] {
      p := v.output[0].payment;
      OutputsHead(v.output, p);
    } else if v.results != [] {
      p := v.results[0].payment;
      ReportsHead(v.results, p);
    } else if v.passing.Some? {
      p := v.passing.value.payment;
    } else if v.sending != multiset{} {
      p :| p in v.sending;
    } else {
      p :| p in v.tracking;
    }
  }

  /** All is reported exactly when nothing is under way and nothing lost. */
  lemma AllReportedIff(nodes: set<NodeId>, v: Pipeline)
    requires Inv(nodes, v)
    ensures multiset(PaymentsIn(v.reported)) == multiset(v.dispatched) <==> Drained(v) && v.lost == multiset{}
  {
    if Drained(v) {
      DrainedCounts(nodes, v);
    } else {
      var p := SomethingUnderWay(v);
      assert Copies(v, p) == multiset(v.dispatched)[p];
      assert CopiesIn(v.reported, p) < multiset(v.dispatched)[p];
    }
  }

  /** Exactly once. In every state of every run, with shutdowns and errors of any kind: each dispatched payment has been
      reported, as often as it was dispatched, if and only if the pipeline has drained and no step dropped a payment. */
  lemma ExactlyOnce(nodes: set<NodeId>, cs: seq<Choice>, v: Pipeline)
    requires v == Run(nodes, cs)
    ensures multiset(PaymentsIn(v.reported)) == multiset(v.dispatched) <==> Drained(v) && !SomeDrop(nodes, cs)
  {
    RunKeepsInv(nodes, cs);
    LosesIff(nodes, cs);
    AllReportedIff(nodes, v);
  }

  /** The logger has then counted every payment and the sum of all amounts dispatched. */
  lemma AllCounted(nodes: set<NodeId>, cs: seq<Choice>, v: Pipeline)
    requires v == Run(nodes, cs) && Drained(v) && !SomeDrop(nodes, cs)
    ensures v.totals.success + v.totals.failed == |v.dispatched| && v.totals.sent == Amount(v.dispatched)
  {
    RunKeepsInv(nodes, cs);
    LosesIff(nodes, cs);
    DrainedCounts(nodes, v);
  }

  /** Without a shutdown and without permanent errors no step drops a payment. */
  lemma CalmDropsNothing(nodes: set<NodeId>, cs: seq<Choice>)
    requires AllCalm(cs)
    ensures !SomeDrop(nodes, cs)
  {
    CalmRun(nodes, cs);
    LosesIff(nodes, cs);
  }

  lemma DrainedCounts(nodes: set<NodeId>, v: Pipeline)
    requires Inv(nodes, v) && Drained(v)
    ensures multiset(PaymentsIn(v.reported)) == multiset(v.dispatched) <==> v.lost == multiset{}
    ensures v.lost == multiset{} ==>
              v.totals.success + v.totals.failed == |v.dispatched| && v.totals.sent == Amount(v.dispatched)
  {
    forall q ensures multiset(v.dispatched)[q] == multiset(PaymentsIn(v.reported))[q] + v.lost[q] {
      assert Copies(v, q) == multiset(v.dispatched)[q];
    }
    assert multiset(v.dispatched) == multiset(PaymentsIn(v.reported)) + v.lost;
    if v.lost == multiset{} { AmountOfPermutation(PaymentsIn(v.reported), v.dispatched); }
  }

  lemma RunOne(nodes: set<NodeId>, cs: seq<Choice>, c: Choice)
    ensures Run(nodes, cs + [c]) == Step(nodes, Run(nodes, cs), c)
  {
    assert (cs + [c])[..|cs|] == cs;
  }

  /** A payment sent and being tracked. */
  lemma TrackedAlone(nodes: set<NodeId>, p: Payment) returns (cs: seq<Choice>)
    requires p.source in nodes
    ensures Run(nodes, cs) == START.(dispatched := [p], tracking := multiset{p})
  {
    cs := [];
    RunOne(nodes, cs, Dispatch(p));
    cs := cs + [Dispatch(p)];
    RunOne(nodes, cs, Send(p, Sent(0)));
    cs := cs + [Send(p, Sent(0))];
    RunOne(nodes, cs, Receive);
    cs := cs + [Receive];
  }

  /** A shutdown can lose a payment: it is sent and tracked, but its result is never reported. */
  lemma ShutdownLoses(nodes: set<NodeId>, p: Payment) returns (cs: seq<Choice>)
    requires p.source in nodes
    ensures var v := Run(nodes, cs);
            Drained(v) && v.dispatched == [p] && v.reported == [] && v.lost == multiset{p}
  {
    cs := TrackedAlone(nodes, p);
    RunOne(nodes, cs, Shutdown);
    cs := cs + [Shutdown];
    RunOne(nodes, cs, Track(p, Success));
    cs := cs + [Track(p, Success)];
  }

  /** A result that waits in the channel when the shutdown comes is lost too. */
  lemma BufferedResultLost(nodes: set<NodeId>, p: Payment) returns (cs: seq<Choice>)
    requires p.source in nodes
    ensures var v := Run(nodes, cs);
            Drained(v) && v.dispatched == [p] && v.reported == [] && v.lost == multiset{p}
  {
    cs := TrackedAlone(nodes, p);
    RunOne(nodes, cs, Track(p, Success));
    cs := cs + [Track(p, Success)];
    RunOne(nodes, cs, Shutdown);
    cs := cs + [Shutdown];
    RunOne(nodes, cs, Consume);
    cs := cs + [Consume];
    assert PaymentsIn([Report(p, Success)]) == [p];
  }

  // ---------- The pipeline always drains ----------

  /** How many steps the payments under way still take. */
  function StepsLeft(v: Pipeline): nat {
    4 * |v.sending| + 3 * |v.output| + (if v.passing.Some? then 2 else 0) + 2 * |v.tracking| + |v.results|
  }

  /** Without a shutdown, every step that does something uses up one of the steps left. */
  lemma StepUsesOne(nodes: set<NodeId>, v: Pipeline, c: Choice)
    requires Inv(nodes, v) && Unharmed(v) && Calm(c) && !c.Dispatch? && Step(nodes, v, c) != v
    ensures StepsLeft(Step(nodes, v, c)) == StepsLeft(v) - 1
  {
    if c.Receive? && v.output != [] { OutputFromNode(nodes, v); }
    CalmStepUsesOne(nodes, v, c);
  }

  lemma CalmStepUsesOne(nodes: set<NodeId>, v: Pipeline, c: Choice)
    requires c.Receive? && v.output != [] ==> v.output[0].payment.source in nodes
    requires !v.stopped && !v.gone && Calm(c) && !c.Dispatch? && Step(nodes, v, c) != v
    ensures StepsLeft(Step(nodes, v, c)) == StepsLeft(v) - 1
  {
  }

  /** With or without a shutdown, it uses up at least one. */
  lemma StepUsesSome(nodes: set<NodeId>, v: Pipeline, c: Choice)
    requires !c.Dispatch? && !c.Shutdown? && Step(nodes, v, c) != v
    ensures StepsLeft(Step(nodes, v, c)) < StepsLeft(v)
  {
  }

  /** While payments are under way, some task can take a step that does something, also after a shutdown. */
  lemma NeverStuck(nodes: set<NodeId>, v: Pipeline) returns (c: Choice)
    requires Inv(nodes, v) && !Drained(v)
    ensures Calm(c) && !c.Dispatch? && Step(nodes, v, c) != v
  {
    if v.results != [] {
      c := Consume;
    } else if v.passing.Some? {
      c := Pass;
    } else if v.tracking != multiset{} {
      var p :| p in v.tracking;
      c := Track(p, TrackPaymentFailed);
    } else if v.output != [] {
      c := Receive;
    } else {
      var p :| p in v.sending;
      c := Send(p, Unsent);
    }
  }

  lemma StepDispatchesNothing(nodes: set<NodeId>, v: Pipeline, c: Choice)
    requires !c.Dispatch?
    ensures Step(nodes, v, c).dispatched == v.dispatched
  {
  }

  /** The tasks go on from `v` to `w` by the choices `cs`, without a dispatch, a shutdown or a permanent error. */
  predicate Leads(nodes: set<NodeId>, v: Pipeline, cs: seq<Choice>, w: Pipeline)
    decreases |cs|
  {
    if cs == [] then w == v
    else Calm(cs[0]) && !cs[0].Dispatch? && Leads(nodes, Step(nodes, v, cs[0]), cs[1..], w)
  }

  /** From every state, stopped or not, the pipeline drains by its own steps. */
  lemma {:induction false} Drains(nodes: set<NodeId>, v: Pipeline) returns (cs: seq<Choice>, w: Pipeline)
    requires Inv(nodes, v)
    ensures Leads(nodes, v, cs, w) && Drained(w) && w.dispatched == v.dispatched
    decreases StepsLeft(v)
  {
    if Drained(v) {
      cs, w := [], v;
    } else {
      var c := NeverStuck(nodes, v);
      StepUsesSome(nodes, v, c);
      StepKeepsInv(nodes, v, c);
      StepDispatchesNothing(nodes, v, c);
      var rest;
      rest, w := Drains(nodes, Step(nodes, v, c));
      cs := [c] + rest;
      assert cs[1..] == rest;
    }
  }

  /** Choice `i` dispatches nothing and does something. */
  predicate Effective(nodes: set<NodeId>, cs: seq<Choice>, i: nat)
    requires i < |cs|
  {
    !cs[i].Dispatch? && Run(nodes, cs[..i + 1]) != Run(nodes, cs[..i])
  }

  /** Each choice of `cs[from..]` is calm, dispatches nothing and does something. */
  predicate Works(nodes: set<NodeId>, cs: seq<Choice>, from: nat) {
    && from <= |cs| && AllCalm(cs)
    && forall i :: from <= i < |cs| ==> Effective(nodes, cs, i)
  }

  lemma DrainedIff(v: Pipeline)
    ensures Drained(v) <==> StepsLeft(v) == 0
  {
  }

  /** Once nothing is dispatched any more, the steps that do something are limited, and the pipeline has drained
      exactly when they are used up. So every run in which tasks go on while they can ends with all payments
      reported. */
  lemma {:induction false} DrainsInTime(nodes: set<NodeId>, cs: seq<Choice>, from: nat)
    requires Works(nodes, cs, from)
    ensures StepsLeft(Run(nodes, cs)) + |cs| - from == StepsLeft(Run(nodes, cs[..from]))
    ensures Drained(Run(nodes, cs)) <==> |cs| - from == StepsLeft(Run(nodes, cs[..from]))
    decreases |cs|
  {
    DrainedIff(Run(nodes, cs));
    if |cs| == from {
      assert cs[..from] == cs;
    } else {
      WorksBefore(nodes, cs, from);
      DrainsInTime(nodes, cs[..|cs| - 1], from);
      assert cs[..|cs| - 1][..from] == cs[..from];
      LastWorks(nodes, cs, from);
    }
  }

  lemma WorksBefore(nodes: set<NodeId>, cs: seq<Choice>, from: nat)
    requires Works(nodes, cs, from) && from < |cs|
    ensures Works(nodes, cs[..|cs| - 1], from)
  {
    var init := cs[..|cs| - 1];
    forall i | from <= i < |init| ensures Effective(nodes, init, i) {
      assert Effective(nodes, cs, i);
      assert cs[..i] == init[..i] && cs[..i + 1] == init[..i + 1];
    }
  }

  lemma LastWorks(nodes: set<NodeId>, cs: seq<Choice>, from: nat)
    requires Works(nodes, cs, from) && from < |cs|
    ensures StepsLeft(Run(nodes, cs)) == StepsLeft(Run(nodes, cs[..|cs| - 1])) - 1
  {
    var init := cs[..|cs| - 1];
    assert Effective(nodes, cs, |init|);
    assert cs[..|init| + 1] == cs;
    RunKeepsInv(nodes, init);
    CalmRun(nodes, init);
    StepUsesOne(nodes, Run(nodes, init), cs[|cs| - 1]);
  }
}

/** The reports say what the nodes answered: each is the result of a tracker or the failure of a send task. */
module ReportingAnswers {
  import opened Types
  import opened Reporting
  import opened ReportingProofs

  /** What a choice makes a task answer, if it takes effect: a tracker with room to pass its result on, or a send task
      whose payment the node did not take and that has room to say so. */
  function AnswerAt(v: Pipeline, c: Choice): seq<Report> {
    match c
    case Track(p, result) =>
      if p in v.tracking && !v.stopped && |v.results| < CAPACITY then [Report(p, result)] else []
    case Send(p, answer) =>
      if p in v.sending && answer.Unsent? && !v.gone && |v.output| < CAPACITY then [Report(p, NotDispatched)] else []
    case _ => []
  }

  /** The answers of a run, in the order in which they were given. */
  function Answers(nodes: set<NodeId>, cs: seq<Choice>): seq<Report> {
    if cs == [] then []
    else Answers(nodes, cs[..|cs| - 1]) + AnswerAt(Run(nodes, cs[..|cs| - 1]), cs[|cs| - 1])
  }

  /** How often answer `r` is reported or on its way to the logger. */
  function Held(v: Pipeline, r: Report): nat {
    multiset(v.reported)[r] + multiset(v.results)[r] + (if v.passing == Some(r) then 1 else 0)
    + multiset(v.output)[Failed(r.payment, r.result)]
  }

  lemma HeadOf<T>(xs: seq<T>, y: T)
    requires xs != []
    ensures multiset(xs)[y] == multiset(xs[1..])[y] + if xs[0] == y then 1 else 0
  {
    assert xs == [xs[0]] + xs[1..];
  }

  // ---------- One step ----------

  lemma SendAnswers(nodes: set<NodeId>, v: Pipeline, p: Payment, answer: Answer, r: Report)
    requires p in v.sending && !DropsAt(v, Send(p, answer))
    ensures Held(AfterSend(v, p, answer), r) == Held(v, r) + multiset(AnswerAt(v, Send(p, answer)))[r]
  {
  }

  lemma ReceiveAnswers(nodes: set<NodeId>, v: Pipeline, r: Report)
    requires v.output != [] && v.passing.None? && v.output[0].payment.source in nodes
    ensures Held(AfterReceive(nodes, v), r) == Held(v, r)
  {
    HeadOf(v.output, Failed(r.payment, r.result));
  }

  lemma PassAnswers(v: Pipeline, r: Report)
    requires v.passing.Some? && !v.stopped
    ensures Held(AfterPass(v), r) == Held(v, r)
  {
  }

  lemma TrackAnswers(v: Pipeline, p: Payment, result: Result, r: Report)
    requires p in v.tracking && !v.stopped
    ensures Held(AfterTrack(v, p, result), r) == Held(v, r) + multiset(AnswerAt(v, Track(p, result)))[r]
  {
  }

  lemma ConsumeAnswers(v: Pipeline, r: Report)
    requires v.results != [] && !v.stopped
    ensures Held(AfterConsume(v), r) == Held(v, r)
  {
    HeadOf(v.results, r);
  }

  /** A step that drops nothing moves the answers on and adds the one it gives. */
  lemma StepAnswers(nodes: set<NodeId>, v: Pipeline, c: Choice, r: Report)
    requires !DropsAt(v, c) && (c.Receive? && v.output != [] ==> v.output[0].payment.source in nodes)
    ensures Held(Step(nodes, v, c), r) == Held(v, r) + multiset(AnswerAt(v, c))[r]
  {
    match c
    case Dispatch(_) =>
    case Send(p, answer) => if p in v.sending { SendAnswers(nodes, v, p, answer, r); }
    case Receive =>
      if v.output != [] && v.passing.None? { ReceiveAnswers(nodes, v, r); }
    case Pass => if v.passing.Some? && !v.gone { PassAnswers(v, r); }
    case Track(p, result) => if p in v.tracking { TrackAnswers(v, p, result, r); }
    case Consume => if v.results != [] { ConsumeAnswers(v, r); }
    case Shutdown =>
  }

  /** A step that drops something gives no answer and adds none. */
  lemma DropAnswers(nodes: set<NodeId>, v: Pipeline, c: Choice, r: Report)
    requires DropsAt(v, c)
    ensures Held(Step(nodes, v, c), r) <= Held(v, r) && AnswerAt(v, c) == []
  {
  }

  // ---------- Runs ----------

  lemma AnswersSnoc(nodes: set<NodeId>, cs: seq<Choice>, r: Report)
    requires cs != []
    ensures var init := cs[..|cs| - 1];
            multiset(Answers(nodes, cs))[r]
            == multiset(Answers(nodes, init))[r] + multiset(AnswerAt(Run(nodes, init), cs[|cs| - 1]))[r]
  {
  }

  /** In every run no answer is reported, or on its way, more often than it was given; and without a drop each is just
      as often. */
  lemma {:induction false} AnswersHeld(nodes: set<NodeId>, cs: seq<Choice>, r: Report)
    ensures Held(Run(nodes, cs), r) <= multiset(Answers(nodes, cs))[r]
    ensures !SomeDrop(nodes, cs) ==> Held(Run(nodes, cs), r) == multiset(Answers(nodes, cs))[r]
  {
    if cs == [] {
    } else {
      var init, c := cs[..|cs| - 1], cs[|cs| - 1];
      AnswersHeld(nodes, init, r);
      AnswersSnoc(nodes, cs, r);
      SomeDropSnoc(nodes, cs);
      LastStepAnswers(nodes, cs, r);
    }
  }

  lemma LastStepAnswers(nodes: set<NodeId>, cs: seq<Choice>, r: Report)
    requires cs != []
    ensures var init := cs[..|cs| - 1];
            var given := multiset(AnswerAt(Run(nodes, init), cs[|cs| - 1]))[r];
            && Held(Run(nodes, cs), r) <= Held(Run(nodes, init), r) + given
            && (!Drops(nodes, cs, |cs| - 1) ==> Held(Run(nodes, cs), r) == Held(Run(nodes, init), r) + given)
  {
    var v, c := Run(nodes, cs[..|cs| - 1]), cs[|cs| - 1];
    RunKeepsInv(nodes, cs[..|cs| - 1]);
    if DropsAt(v, c) {
      DropAnswers(nodes, v, c, r);
    } else {
      if v.output != [] { OutputFromNode(nodes, v); }
      StepAnswers(nodes, v, c, r);
    }
  }

  /** The report that the producer holds back until there is room for it. */
  function HeldBack(v: Pipeline): multiset<Report> {
    if v.passing.Some? then multiset{v.passing.value} else multiset{}
  }

  /** No report is made up: in every run what is reported, with what waits to be, is part of what was answered. */
  lemma ReportsAreAnswers(nodes: set<NodeId>, cs: seq<Choice>)
    ensures var v := Run(nodes, cs);
            multiset(v.reported) + multiset(v.results) + HeldBack(v) <= multiset(Answers(nodes, cs))
  {
    var v := Run(nodes, cs);
    forall r ensures (multiset(v.reported) + multiset(v.results) + HeldBack(v))[r] <= multiset(Answers(nodes, cs))[r] {
      AnswersHeld(nodes, cs, r);
    }
  }

  /** How many trackers passed on a success. */
  function SuccessfulTracks(nodes: set<NodeId>, cs: seq<Choice>): nat {
    if cs == [] then 0
    else
      SuccessfulTracks(nodes, cs[..|cs| - 1])
      + if SuccessAt(Run(nodes, cs[..|cs| - 1]), cs[|cs| - 1]) then 1 else 0
  }

  lemma {:induction false} SuccessesAppend(a: seq<Report>, b: seq<Report>)
    ensures Successes(a + b) == Successes(a) + Successes(b)
  {
    if b == [] {
      assert a + b == a;
    } else {
      assert (a + b)[..|a + b| - 1] == a + b[..|b| - 1];
      SuccessesAppend(a, b[..|b| - 1]);
    }
  }

  /** A tracker that takes effect with a success. */
  predicate SuccessAt(v: Pipeline, c: Choice) {
    c.Track? && c.result.Success? && c.p in v.tracking && !v.stopped && |v.results| < CAPACITY
  }

  lemma SuccessOfAnswer(v: Pipeline, c: Choice)
    ensures Successes(AnswerAt(v, c)) == if SuccessAt(v, c) then 1 else 0
  {
  }

  lemma {:induction false} SuccessesOfAnswers(nodes: set<NodeId>, cs: seq<Choice>)
    ensures Successes(Answers(nodes, cs)) == SuccessfulTracks(nodes, cs)
  {
    if cs == [] {
    } else {
      var init := cs[..|cs| - 1];
      SuccessesOfAnswers(nodes, init);
      SuccessesAppend(Answers(nodes, init), AnswerAt(Run(nodes, init), cs[|cs| - 1]));
      SuccessOfAnswer(Run(nodes, init), cs[|cs| - 1]);
    }
  }

  /** Successes do not depend on the order. */
  lemma {:induction false} SuccessesOfPermutation(a: seq<Report>, b: seq<Report>)
    requires multiset(a) == multiset(b)
    ensures Successes(a) == Successes(b)
    decreases |a|
  {
    if a == [] {
      assert |multiset(b)| == 0;
    } else {
      var last := a[|a| - 1];
      assert a == a[..|a| - 1] + [last];
      assert last in multiset(b);
      var k :| 0 <= k < |b| && b[k] == last;
      SuccessesWithout(b, k);
      OneOut(b, k);
      SuccessesOfPermutation(a[..|a| - 1], b[..k] + b[k + 1..]);
    }
  }

  lemma {:induction false} SuccessesWithout(b: seq<Report>, k: nat)
    requires k < |b|
    ensures Successes(b) == Successes(b[..k] + b[k + 1..]) + if b[k].result.Success? then 1 else 0
    decreases |b|
  {
    var init, rest := b[..|b| - 1], b[..k] + b[k + 1..];
    if k == |b| - 1 {
      assert rest == init;
    } else {
      SuccessesWithout(init, k);
      assert rest[..|rest| - 1] == init[..k] + init[k + 1..];
    }
  }

  /** When the pipeline has drained and nothing was dropped, the reports are exactly the answers given, and the logger
      counts as many successes as trackers passed on. */
  lemma AllAnswersReported(nodes: set<NodeId>, cs: seq<Choice>)
    requires Drained(Run(nodes, cs)) && !SomeDrop(nodes, cs)
    ensures multiset(Run(nodes, cs).reported) == multiset(Answers(nodes, cs))
    ensures Run(nodes, cs).totals.success == SuccessfulTracks(nodes, cs)
  {
    var v := Run(nodes, cs);
    forall r ensures multiset(v.reported)[r] == multiset(Answers(nodes, cs))[r] {
      AnswersHeld(nodes, cs, r);
    }
    RunKeepsInv(nodes, cs);
    SuccessesOfPermutation(v.reported, Answers(nodes, cs));
    SuccessesOfAnswers(nodes, cs);
  }
}

/** The task of a payment can always go on until it has ended, and it ends after a bounded number of its own steps. */
module TaskProgress {
  import opened Payments
  import opened Network
  import opened Invariant
  import opened Preservation

  /** How many steps a task still takes at most: two for each hop to add, then two for each hop to remove. */
  function StepsLeft(p: Payment): int {
    match p.phase
    case Adding(i) => 4 * |p.route| - 2 * i
    case Intercepting(i) => 4 * |p.route| - 2 * i - 1
    case Removing(i, _) => 2 * i + 2
    case Notifying(i, _) => 2 * i + 1
    case Ended(_, _) => 0
  }

  lemma StepsLeftBounds(p: Payment)
    requires PhaseOk(p)
    ensures 0 <= StepsLeft(p) <= 4 * |p.route| && (StepsLeft(p) == 0 <==> p.phase.Ended?)
  {
  }

  /** A step that changes anything brings the task nearer to its end. */
  lemma StepUsesOne(channels: Topology, p: Payment, c: Choice)
    requires PhaseOk(p)
    ensures var q := TaskStep(channels, p, c).1; q == p || StepsLeft(q) < StepsLeft(p)
  {
  }

  /** The step that a task which has not ended can take: any interceptors' answer will do where it waits for one. */
  function NextChoice(p: Payment, k: nat): Choice {
    match p.phase
    case Intercepting(_) => Reply(k, Proceed)
    case Notifying(_, _) => Told(k, true)
    case _ => Lock(k)
  }

  /** In every reachable state a task that has not ended can take a step, whatever the other tasks do. */
  lemma NeverStuck(base: Topology, s: State, k: nat)
    requires StartOk(base) && Reachable(base, s) && k < |s.payments| && !s.payments[k].phase.Ended?
    ensures var s' := Step(s, NextChoice(s.payments[k], k));
            k < |s'.payments| && StepsLeft(s'.payments[k]) < StepsLeft(s.payments[k])
  {
    ReachableInv(base, s);
    var p, c := s.payments[k], NextChoice(s.payments[k], k);
    assert TaskOk(base, s.channels, p);
    PhaseMoves(s.channels, p, k);
    StepUsesOne(s.channels, p, c);
  }

  lemma PhaseMoves(channels: Topology, p: Payment, k: nat)
    requires PhaseOk(p) && !p.phase.Ended?
    ensures TaskStep(channels, p, NextChoice(p, k)).1.phase != p.phase
  {
  }

  /** How often payment `k` has changed in the run. */
  ghost function OwnSteps(base: Topology, cs: seq<Choice>, k: nat): nat {
    if cs == [] then 0
    else
      var before := cs[..|cs| - 1];
      OwnSteps(base, before, k)
      + if k < |Run(base, before).payments| && k < |Run(base, cs).payments|
           && Run(base, cs).payments[k] != Run(base, before).payments[k] then 1 else 0
  }

  lemma {:induction false} NoStepsBefore(base: Topology, cs: seq<Choice>, k: nat)
    requires k >= |Run(base, cs).payments|
    ensures OwnSteps(base, cs, k) == 0
  {
    if cs == [] {
    } else {
      NoStepsBefore(base, cs[..|cs| - 1], k);
    }
  }

  lemma AnyStepUsesOne(s: State, c: Choice, k: nat)
    requires k < |s.payments| && PhaseOk(s.payments[k])
    ensures k < |Step(s, c).payments|
    ensures var p, q := s.payments[k], Step(s, c).payments[k];
            q.route == p.route && (q == p || StepsLeft(q) < StepsLeft(p))
  {
    StepUsesOne(s.channels, s.payments[k], c);
  }

  lemma LastStepUsesOne(base: Topology, cs: seq<Choice>, k: nat)
    requires StartOk(base) && cs != [] && k < |Run(base, cs[..|cs| - 1]).payments|
    ensures k < |Run(base, cs).payments|
    ensures var p, q := Run(base, cs[..|cs| - 1]).payments[k], Run(base, cs).payments[k];
            q.route == p.route && (q == p || StepsLeft(q) < StepsLeft(p))
  {
    var before := Run(base, cs[..|cs| - 1]);
    TaskPhaseOk(base, cs[..|cs| - 1], k);
    AnyStepUsesOne(before, cs[|cs| - 1], k);
  }

  lemma TaskPhaseOk(base: Topology, cs: seq<Choice>, k: nat)
    requires StartOk(base) && k < |Run(base, cs).payments|
    ensures PhaseOk(Run(base, cs).payments[k])
  {
    RunKeepsInv(base, cs);
    assert TaskOk(base, Run(base, cs).channels, Run(base, cs).payments[k]);
  }

  /** In every run a payment over `n` hops changes at most `4 * n` times, what is left being counted by its phase; so a
      task that goes on whenever it can ends, in any company. */
  lemma {:induction false} TaskEndsInTime(base: Topology, cs: seq<Choice>, k: nat)
    requires StartOk(base) && k < |Run(base, cs).payments|
    ensures var p := Run(base, cs).payments[k];
            0 <= StepsLeft(p) && OwnSteps(base, cs, k) + StepsLeft(p) <= 4 * |p.route|
  {
    TaskPhaseOk(base, cs, k);
    StepsLeftBounds(Run(base, cs).payments[k]);
    if cs == [] {
    } else {
      var before := cs[..|cs| - 1];
      if k < |Run(base, before).payments| {
        TaskEndsInTime(base, before, k);
        LastStepUsesOne(base, cs, k);
      } else {
        NoStepsBefore(base, before, k);
      }
    }
  }
}

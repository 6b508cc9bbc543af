/** The event loop and the reporting pipeline together: the end of the loop shuts the simulation down, and what has not
    been reported by then never is. */
module Simulation {
  import opened Types
  import opened Ordering
  import opened HeapRefinement
  import opened Reporting
  import opened ReportingProofs
  import E = EventLoop
  import H = HeapSchedule
  import Reproducible
  import S = Schedule
  import SP = ScheduleProofs
  import ST = ScheduleTheorems

  /** The payment that a send task is spawned for. */
  function PaymentOf(e: S.Sent): Payment {
    Payment(e.slot.source, e.destination, e.amount, e.slot.time)
  }

  function PaymentsOf(log: seq<S.Sent>): seq<Payment> {
    seq(|log|, i requires 0 <= i < |log| => PaymentOf(log[i]))
  }

  lemma StoppedStep(nodes: set<NodeId>, v: Pipeline, c: Choice)
    requires v.stopped
    ensures var v' := Step(nodes, v, c);
            v'.stopped && v'.reported == v.reported && v'.totals == v.totals && v'.dispatched == v.dispatched
  {
  }

  /** After a shutdown nothing is dispatched and nothing reported. */
  lemma {:induction false} NothingAfterShutdown(nodes: set<NodeId>, cs: seq<Choice>, later: seq<Choice>)
    requires Run(nodes, cs).stopped
    ensures var v, v' := Run(nodes, cs), Run(nodes, cs + later);
            v'.stopped && v'.reported == v.reported && v'.totals == v.totals && v'.dispatched == v.dispatched
  {
    if later == [] {
      assert cs + later == cs;
    } else {
      var init, c := later[..|later| - 1], later[|later| - 1];
      NothingAfterShutdown(nodes, cs, init);
      assert cs + later == (cs + init) + [c];
      RunOne(nodes, cs + init, c);
      StoppedStep(nodes, Run(nodes, cs + init), c);
    }
  }

  // ---------- What the loop hands over ----------

  /** The payments for which send tasks are spawned, in order. */
  function Dispatches(cs: seq<Choice>): seq<Payment> {
    if cs == [] then []
    else
      var c := cs[|cs| - 1];
      Dispatches(cs[..|cs| - 1]) + if c.Dispatch? then [c.p] else []
  }

  lemma {:induction false} DispatchedAll(nodes: set<NodeId>, cs: seq<Choice>)
    requires AllCalm(cs) && forall p :: p in Dispatches(cs) ==> p.source in nodes
    ensures Run(nodes, cs).dispatched == Dispatches(cs)
  {
    if cs == [] {
    } else {
      var init, c := cs[..|cs| - 1], cs[|cs| - 1];
      DispatchedAll(nodes, init);
      CalmRun(nodes, init);
      if c.Dispatch? {
        assert c.p in Dispatches(cs);
      } else {
        StepDispatchesNothing(nodes, Run(nodes, init), c);
      }
    }
  }

  /** The log holds payments of nodes. */
  predicate LogFromNodes(nodes: set<NodeId>, log: seq<S.Sent>) {
    forall i :: 0 <= i < |log| ==> log[i].slot.source in nodes
  }

  lemma TurnSendsFromNodes(v: H.Loop, v': H.Loop, nodes: set<NodeId>)
    requires H.Turn(v, v', nodes, false, H.Continue) && LogFromNodes(nodes, v.log)
    ensures LogFromNodes(nodes, v'.log)
  {
    var k: nat :| H.Least(v.heap, k) && (v', H.Continue) == H.HandledAt(v, nodes, false, k);
  }

  lemma {:induction false} LoopSendsFromNodes(nodes: set<NodeId>, vs: seq<H.Loop>, i: nat)
    requires H.IsLoop(nodes, vs) && vs[0].log == [] && i < |vs|
    ensures LogFromNodes(nodes, vs[i].log)
  {
    if i == 0 {
    } else {
      LoopSendsFromNodes(nodes, vs, i - 1);
      assert H.Turn(vs[i - 1], vs[i], nodes, false, H.Continue);
      TurnSendsFromNodes(vs[i - 1], vs[i], nodes);
    }
  }

  lemma {:induction false} SetUpSendsNothing(xs: Reproducible.Executors, now: nat)
    ensures H.SetUp(xs, now).log == []
  {
    if xs == [] {
    } else {
      SetUpSendsNothing(xs[..|xs| - 1], now);
    }
  }

  /** The event loop for these executors goes through the states `vs`, as `ProducePaymentEvents` does, and the pipeline
      through the choices `cs`, in which the payments of the loop's log are those for which send tasks are spawned. */
  ghost predicate Drives(nodes: set<NodeId>, executors: Reproducible.Executors, now: nat, vs: seq<H.Loop>,
                         cs: seq<Choice>) {
    && H.IsLoop(nodes, vs) && vs[0] == H.SetUp(SortByKey(executors), now)
    && AllCalm(cs) && Dispatches(cs) == PaymentsOf(vs[|vs| - 1].log)
  }

  lemma LogDispatched(nodes: set<NodeId>, executors: Reproducible.Executors, now: nat, vs: seq<H.Loop>, cs: seq<Choice>)
    requires Drives(nodes, executors, now, vs, cs)
    ensures Run(nodes, cs).dispatched == PaymentsOf(vs[|vs| - 1].log)
  {
    SetUpSendsNothing(SortByKey(executors), now);
    LoopSendsFromNodes(nodes, vs, |vs| - 1);
    var log := vs[|vs| - 1].log;
    forall p | p in PaymentsOf(log) ensures p.source in nodes {
      var i :| 0 <= i < |log| && PaymentsOf(log)[i] == p;
    }
    DispatchedAll(nodes, cs);
  }

  // ---------- The end of the loop ----------

  /** The end of the loop. It has spawned send tasks for the payments of its log and then shuts the simulation down:
      what the logger ends up with is what was reported by that time, a part of the log; and it is the whole log if and
      only if the pipeline had drained. */
  lemma EndOfLoop(nodes: set<NodeId>, executors: Reproducible.Executors, now: nat, vs: seq<H.Loop>,
                  before: seq<Choice>, later: seq<Choice>)
    requires Drives(nodes, executors, now, vs, before)
    ensures var v, v', log := Run(nodes, before), Run(nodes, before + [Shutdown] + later), vs[|vs| - 1].log;
            && v'.reported == v.reported && v'.totals == v.totals
            && multiset(PaymentsIn(v'.reported)) <= multiset(PaymentsOf(log))
            && (multiset(PaymentsIn(v'.reported)) == multiset(PaymentsOf(log)) <==> Drained(v))
            && (Drained(v) ==> v'.totals.sent == Amount(PaymentsOf(log))
                               && v'.totals.success + v'.totals.failed == |log|)
  {
    LogDispatched(nodes, executors, now, vs, before);
    ReportedSoFar(nodes, before);
    Frozen(nodes, before, later);
  }

  lemma Frozen(nodes: set<NodeId>, before: seq<Choice>, later: seq<Choice>)
    ensures var v, v' := Run(nodes, before), Run(nodes, before + [Shutdown] + later);
            v'.reported == v.reported && v'.totals == v.totals
  {
    RunOne(nodes, before, Shutdown);
    NothingAfterShutdown(nodes, before + [Shutdown], later);
  }

  lemma ReportedSoFar(nodes: set<NodeId>, cs: seq<Choice>)
    requires AllCalm(cs)
    ensures var v := Run(nodes, cs);
            && multiset(PaymentsIn(v.reported)) <= multiset(v.dispatched)
            && (multiset(PaymentsIn(v.reported)) == multiset(v.dispatched) <==> Drained(v))
            && (Drained(v) ==> v.totals.sent == Amount(v.dispatched)
                               && v.totals.success + v.totals.failed == |v.dispatched|)
  {
    RunKeepsInv(nodes, cs);
    CalmRun(nodes, cs);
    NeverTwice(nodes, Run(nodes, cs));
    AllReportedIff(nodes, Run(nodes, cs));
    if Drained(Run(nodes, cs)) { DrainedCounts(nodes, Run(nodes, cs)); }
  }

  /** When the loop has run out of events, with distinct sources and all that its end depends on, and the pipeline had
      drained by then, every payment that any source wants has been reported, with the time at which it was due. */
  lemma WholeMergeReported(nodes: set<NodeId>, executors: Reproducible.Executors, now: nat, vs: seq<H.Loop>,
                           before: seq<Choice>, later: seq<Choice>, s: NodeId, n: nat)
    requires Drives(nodes, executors, now, vs, before) && Drained(Run(nodes, before))
    requires DistinctKeys(executors) && Finite(Reproducible.KitOf(SortByKey(executors)), now, nodes)
    requires vs[|vs| - 1].heap == []
    requires s in Reproducible.KitOf(SortByKey(executors)) && S.Wanted(Reproducible.KitOf(SortByKey(executors))[s], n)
    ensures exists r :: r in Run(nodes, before + [Shutdown] + later).reported && r.payment.source == s
                        && r.payment.time == S.Due(Reproducible.KitOf(SortByKey(executors))[s], now, n)
  {
    var kit, log := Reproducible.KitOf(SortByKey(executors)), vs[|vs| - 1].log;
    LoopIsFull(nodes, executors, now, vs);
    EndOfLoop(nodes, executors, now, vs, before, later);
    LoggedIsReported(log, Run(nodes, before + [Shutdown] + later).reported, S.Slot(S.Due(kit[s], now, n), s, n));
  }

  lemma LoopIsFull(nodes: set<NodeId>, executors: Reproducible.Executors, now: nat, vs: seq<H.Loop>)
    requires H.IsLoop(nodes, vs) && vs[0] == H.SetUp(SortByKey(executors), now) && vs[|vs| - 1].heap == []
    requires DistinctKeys(executors) && Finite(Reproducible.KitOf(SortByKey(executors)), now, nodes)
    ensures FullMerge(Reproducible.KitOf(SortByKey(executors)), now, vs[|vs| - 1].log)
  {
    E.LoopRuns(executors, now, nodes, vs);
    ViewsAreFull(Reproducible.KitOf(SortByKey(executors)), Keys(SortByKey(executors)), now, vs);
  }

  lemma ViewsAreFull(kit: S.Kit, order: seq<NodeId>, now: nat, vs: seq<H.Loop>)
    requires vs != [] && ST.Runs(kit, order, now, Views(vs)) && ST.AllCounted(kit) && vs[|vs| - 1].heap == []
    ensures FullMerge(kit, now, vs[|vs| - 1].log)
  {
    assert Views(vs)[|vs| - 1] == View(vs[|vs| - 1]);
    RunIsFull(kit, order, now, Views(vs));
  }

  lemma LoggedIsReported(log: seq<S.Sent>, reported: seq<Report>, slot: S.Slot)
    requires SP.Logged(log, slot) && multiset(PaymentsIn(reported)) == multiset(PaymentsOf(log))
    ensures exists r :: r in reported && r.payment.source == slot.source && r.payment.time == slot.time
  {
    var i :| 0 <= i < |log| && log[i].slot == slot;
    var p := PaymentsOf(log)[i];
    assert p in multiset(PaymentsIn(reported));
    var j :| 0 <= j < |PaymentsIn(reported)| && PaymentsIn(reported)[j] == p;
    assert reported[j] in reported && reported[j].payment == p;
  }
}

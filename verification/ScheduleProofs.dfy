/** The event loop sends exactly the merge of the sources' own schedules, in order and on time, and ends after
    exactly as many rounds as it should. */
module ScheduleProofs {
  import opened Types
  import opened Schedule

  /** Each source is either waiting with the event it generated last, or done because its count is met. */
  ghost predicate SourceOk(kit: Kit, now: nat, v: Sched, s: NodeId)
    requires s in kit
  {
    && s in v.progress
    && var g, p := kit[s], v.progress[s];
       && p.generated == p.completed + 1
       && (g.count.Some? ==> p.completed <= g.count.value)
       && (s in v.pending ==>
            && v.pending[s].source == s
            && v.pending[s].time == Due(g, now, p.completed)
            && v.pending[s].time >= v.clock
            && v.pending[s].amount > 0)
       && (s !in v.pending ==> CountMet(kit, v, s))
  }

  /** The slot of the event that `s` is waiting with. */
  function Next(v: Sched, s: NodeId): Slot
    requires s in v.pending && s in v.progress
  {
    Slot(v.pending[s].time, s, v.progress[s].completed)
  }

  predicate LogSorted(log: seq<Sent>) {
    forall i, j :: 0 <= i < j < |log| ==> Earlier(log[i].slot, log[j].slot)
  }

  predicate Logged(log: seq<Sent>, slot: Slot) {
    exists i :: 0 <= i < |log| && log[i].slot == slot
  }

  /** The log holds the payments completed, each at the time it was due, and nothing else. */
  ghost predicate LogComplete(kit: Kit, now: nat, v: Sched) {
    forall slot :: Logged(v.log, slot) <==>
      && slot.source in kit && slot.source in v.progress
      && slot.nth < v.progress[slot.source].completed
      && slot.time == Due(kit[slot.source], now, slot.nth)
  }

  /** What was sent comes before what is pending. */
  predicate LogEarlier(v: Sched) {
    forall i, s :: 0 <= i < |v.log| && s in v.pending && s in v.progress ==> Earlier(v.log[i].slot, Next(v, s))
  }

  ghost predicate SourcesOk(kit: Kit, now: nat, v: Sched) {
    && (forall s :: s in v.pending || s in v.progress ==> s in kit)
    && forall s :: s in kit ==> SourceOk(kit, now, v, s)
  }

  ghost predicate Inv(kit: Kit, now: nat, v: Sched) {
    && SourcesOk(kit, now, v)
    && LogSorted(v.log) && LogComplete(kit, now, v) && LogEarlier(v)
  }

  // ---------- Setting up ----------

  /** `order` lists the sources of the kit, each once. */
  predicate Lists(order: seq<NodeId>, kit: Kit) {
    && (forall i :: 0 <= i < |order| ==> order[i] in kit)
    && (forall s :: s in kit ==> s in order)
    && (forall i, j :: 0 <= i < j < |order| ==> order[i] != order[j])
  }

  /** The first event of a source. */
  ghost predicate Started(kit: Kit, now: nat, v: Sched, s: NodeId) {
    && s in kit && s in v.progress && s in v.pending
    && v.progress[s] == Progress(0, 1)
    && v.pending[s].source == s
    && v.pending[s].time == Due(kit[s], now, 0)
    && v.pending[s].amount > 0
  }

  lemma {:induction false} SetupKeys(kit: Kit, order: seq<NodeId>, now: nat)
    requires forall i :: 0 <= i < |order| ==> order[i] in kit
    ensures var v := Setup(kit, order, now);
            && v.clock == now && v.log == []
            && forall s :: (s in v.pending <==> s in order) && (s in v.progress <==> s in order)
  {
    if order == [] {
    } else {
      SetupKeys(kit, order[..|order| - 1], now);
      assert order == order[..|order| - 1] + [order[|order| - 1]];
    }
  }

  lemma {:induction false} SetupGives(kit: Kit, order: seq<NodeId>, now: nat, i: nat)
    requires NonZero(kit) && i < |order|
    requires forall i :: 0 <= i < |order| ==> order[i] in kit
    requires forall i, j :: 0 <= i < j < |order| ==> order[i] != order[j]
    ensures Started(kit, now, Setup(kit, order, now), order[i])
  {
    var init, s := order[..|order| - 1], order[|order| - 1];
    StartOne(kit, now, Setup(kit, init, now), s);
    if i < |init| {
      SetupGives(kit, init, now, i);
      assert init[i] == order[i];
    }
  }

  lemma StartOne(kit: Kit, now: nat, v: Sched, s: NodeId)
    requires NonZero(kit) && s in kit
    ensures var v' := Generate(kit, WithSource(v, s), s, now);
            && Started(kit, now, v', s)
            && v'.clock == v.clock && v'.log == v.log
            && v'.pending == v.pending[s := v'.pending[s]]
            && v'.progress == v.progress[s := Progress(0, 1)]
  {
  }

  lemma SetupSource(kit: Kit, order: seq<NodeId>, now: nat, s: NodeId)
    requires NonZero(kit) && Lists(order, kit) && s in kit
    ensures var v := Setup(kit, order, now);
            v.clock == now && SourceOk(kit, now, v, s) && v.progress[s].completed == 0
  {
    SetupKeys(kit, order, now);
    var i :| 0 <= i < |order| && order[i] == s;
    SetupGives(kit, order, now, i);
  }

  lemma SetupInv(kit: Kit, order: seq<NodeId>, now: nat)
    requires NonZero(kit) && Lists(order, kit)
    ensures Inv(kit, now, Setup(kit, order, now))
  {
    SetupKeys(kit, order, now);
    var v := Setup(kit, order, now);
    forall s | s in v.progress || s in v.pending ensures s in kit {
      var i :| 0 <= i < |order| && order[i] == s;
    }
    forall s | s in kit ensures SourceOk(kit, now, v, s) && v.progress[s].completed == 0 {
      SetupSource(kit, order, now, s);
    }
  }

  // ---------- Rounds ----------

  lemma DropKeepsInv(kit: Kit, now: nat, v: Sched, s: NodeId)
    requires Inv(kit, now, v) && IsFront(v.pending, s) && CountMet(kit, v, s)
    ensures Inv(kit, now, RoundAt(kit, v, s))
  {
    var v' := RoundAt(kit, v, s);
    forall r | r in kit ensures SourceOk(kit, now, v', r) {
      assert SourceOk(kit, now, v, r);
    }
    assert v'.log == v.log && v'.progress == v.progress;
    forall i, r | 0 <= i < |v'.log| && r in v'.pending && r in v'.progress
      ensures Earlier(v'.log[i].slot, Next(v', r)) {
      assert Next(v', r) == Next(v, r);
    }
  }

  /** What a round that sends does, with clock and delays worked out. */
  lemma SendEffect(kit: Kit, now: nat, v: Sched, s: NodeId)
    requires NonZero(kit) && s in kit && SourceOk(kit, now, v, s) && s in v.pending && !CountMet(kit, v, s)
    ensures var v', n := RoundAt(kit, v, s), v.progress[s].completed;
            && v'.clock == v.pending[s].time
            && v'.log == v.log + [Sent(Next(v, s), v.pending[s].destination, v.pending[s].amount)]
            && v'.progress == v.progress[s := Progress(n + 1, n + 2)]
            && s in v'.pending && v'.pending == v.pending[s := v'.pending[s]]
            && v'.pending[s].source == s
            && v'.pending[s].time == Due(kit[s], now, n + 1)
            && v'.pending[s].amount > 0
  {
    var p, e := v.progress[s], v.pending[s];
    var counted := v.(pending := v.pending - {s}, progress := v.progress[s := Progress(p.completed + 1, p.generated)],
                      clock := e.time);
    var next := Generate(kit, counted, s, e.time);
    assert next.pending == v.pending[s := next.pending[s]];
  }

  lemma SendKeepsSources(kit: Kit, now: nat, v: Sched, s: NodeId)
    requires NonZero(kit) && SourcesOk(kit, now, v) && IsFront(v.pending, s) && !CountMet(kit, v, s)
    ensures SourcesOk(kit, now, RoundAt(kit, v, s))
  {
    assert SourceOk(kit, now, v, s);
    SendEffect(kit, now, v, s);
    var v' := RoundAt(kit, v, s);
    forall r | r in kit ensures SourceOk(kit, now, v', r) {
      SendKeepsSource(kit, now, v, s, r);
    }
  }

  lemma SendKeepsSource(kit: Kit, now: nat, v: Sched, s: NodeId, r: NodeId)
    requires NonZero(kit) && s in kit && SourceOk(kit, now, v, s)
    requires IsFront(v.pending, s) && !CountMet(kit, v, s)
    requires r in kit && SourceOk(kit, now, v, r)
    ensures SourceOk(kit, now, RoundAt(kit, v, s), r)
  {
    SendEffect(kit, now, v, s);
    if r != s { UntouchedSource(kit, now, v, RoundAt(kit, v, s), r); }
  }

  lemma UntouchedSource(kit: Kit, now: nat, v: Sched, v': Sched, r: NodeId)
    requires r in kit && SourceOk(kit, now, v, r)
    requires r in v'.progress && v'.progress[r] == v.progress[r]
    requires (r in v.pending <==> r in v'.pending) && (r in v.pending ==> v'.pending[r] == v.pending[r])
    requires r in v.pending ==> v'.clock <= v.pending[r].time
    ensures SourceOk(kit, now, v', r)
  {
  }

  lemma SendKeepsOrder(kit: Kit, now: nat, v: Sched, s: NodeId)
    requires NonZero(kit) && SourcesOk(kit, now, v) && IsFront(v.pending, s) && !CountMet(kit, v, s)
    requires LogSorted(v.log) && LogEarlier(v)
    ensures LogSorted(RoundAt(kit, v, s).log) && LogEarlier(RoundAt(kit, v, s))
  {
    assert SourceOk(kit, now, v, s);
    SendEffect(kit, now, v, s);
    var v' := RoundAt(kit, v, s);
    forall r | r in v'.pending && r in v'.progress ensures Earlier(Next(v, s), Next(v', r)) {
      assert SourceOk(kit, now, v, r);
    }
    forall i, r | 0 <= i < |v'.log| && r in v'.pending && r in v'.progress
      ensures Earlier(v'.log[i].slot, Next(v', r)) {
      assert Earlier(Next(v, s), Next(v', r));
      assert i < |v.log| ==> Earlier(v.log[i].slot, Next(v, s));
    }
  }

  lemma SendKeepsComplete(kit: Kit, now: nat, v: Sched, s: NodeId)
    requires NonZero(kit) && SourcesOk(kit, now, v) && IsFront(v.pending, s) && !CountMet(kit, v, s)
    requires LogComplete(kit, now, v)
    ensures LogComplete(kit, now, RoundAt(kit, v, s))
  {
    assert SourceOk(kit, now, v, s);
    SendEffect(kit, now, v, s);
    var v' := RoundAt(kit, v, s);
    forall slot ensures Logged(v'.log, slot) <==> Logged(v.log, slot) || slot == Next(v, s) {
      LoggedAppend(v.log, v'.log[|v.log|], slot);
    }
  }

  lemma LoggedAppend(log: seq<Sent>, e: Sent, slot: Slot)
    ensures Logged(log + [e], slot) <==> Logged(log, slot) || slot == e.slot
  {
    if Logged(log, slot) {
      var i :| 0 <= i < |log| && log[i].slot == slot;
      assert (log + [e])[i].slot == slot;
    }
    assert (log + [e])[|log|] == e;
  }

  lemma RoundKeepsInv(kit: Kit, now: nat, v: Sched, v': Sched)
    requires NonZero(kit) && Inv(kit, now, v) && Round(kit, v, v')
    ensures Inv(kit, now, v')
  {
    var s :| IsFront(v.pending, s) && s in kit && s in v.progress && v' == RoundAt(kit, v, s);
    if CountMet(kit, v, s) {
      DropKeepsInv(kit, now, v, s);
    } else {
      SendKeepsSources(kit, now, v, s);
      SendKeepsOrder(kit, now, v, s);
      SendKeepsComplete(kit, now, v, s);
    }
  }

  lemma StepOfRun(kit: Kit, vs: seq<Sched>, j: nat)
    requires IsRun(kit, vs) && 0 < j < |vs|
    ensures Round(kit, vs[j - 1], vs[j])
  {
    assert Round(kit, vs[j - 1], vs[j]);
  }

  lemma StepKeepsInv(kit: Kit, now: nat, vs: seq<Sched>, j: nat)
    requires NonZero(kit) && IsRun(kit, vs) && 0 < j < |vs| && Inv(kit, now, vs[j - 1])
    ensures Inv(kit, now, vs[j])
  {
    var v, v' := vs[j - 1], vs[j];
    assert Round(kit, v, v') by { StepOfRun(kit, vs, j); }
    RoundKeepsInv(kit, now, v, v');
  }

  lemma {:induction false} RunKeepsInv(kit: Kit, now: nat, vs: seq<Sched>, i: nat)
    requires NonZero(kit) && IsRun(kit, vs) && Inv(kit, now, vs[0]) && i < |vs|
    ensures Inv(kit, now, vs[i])
  {
    if i == 0 {
    } else {
      RunKeepsInv(kit, now, vs, i - 1);
      StepKeepsInv(kit, now, vs, i);
    }
  }
}

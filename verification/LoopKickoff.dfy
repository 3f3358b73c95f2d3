/**
Kick-off safety over whole runs: an idle loop starts work only on an armed
condition that fired, excluded work is never remembered as ready, and each
external event is consumed once.
 */
module LoopKickoff {
  import opened Wrappers
  import opened RunState
  import opened Selection
  import opened Kickoff
  import opened LoopModel
  import opened LoopTrace
  import opened LoopBookkeeping
  import opened LoopSignals
  import opened LoopInvocations

  // ------------------------------------------------------- every start is founded

  /** The state in which an iteration's pass plans, if it gets that far. */
  function PlanningState(cfg: Config, s: Loop, step: Iter): Loop
  {
    var top := Tick(s, step.dtTop);
    PlanningIn(cfg, Supervise(cfg, top, step.supervise), top.clock, step.pass)
  }

  function PlanningIn(cfg: Config, s: Loop, top: nat, pass: PassIn): Loop
  {
    Tick(Tick(Tick(BeginPass(cfg, s, top), pass.dtBudget), pass.dt)
         .(signal := Deliver(s.signal, pass.sends, pass.closes), events := Arrive(s.events, pass.arrivals)),
         pass.dtAfter)
  }

  /** One row was added: its task was ready and not excluded, and an idle loop had a reason to start. */
  ghost predicate IsFounded(cfg: Config, at: Loop, snapshot: BoardSnapshot, before: seq<Row>, after: seq<Row>)
  {
    var now := NowSecs(cfg, at.clock);
    && |after| == |before| + 1
    && after[|before|].task in TasksOf(snapshot.ready) - Excluded(cfg, at, now)
    && (at.slots == [] ==> KicksOff(cfg.kickoff, Observe(cfg, at, now, snapshot)))
  }

  lemma PlanIsFounded(cfg: Config, s: Loop, plan: PlanIn)
    requires s.phase.Going? && |PlanAndSpawn(cfg, s, plan).store.rows| != |s.store.rows|
    ensures IsFounded(cfg, s, plan.snapshot, s.store.rows, PlanAndSpawn(cfg, s, plan).store.rows)
  {
    var now := NowSecs(cfg, s.clock);
    var gated := Gated(cfg, s, plan.snapshot);
    var excluded := Excluded(cfg, s, now);
    var snapshot := plan.snapshot.(ready := Retain(plan.snapshot.ready, excluded));
    var decision := CampaignDecision(snapshot, plan.consulted);
    var recorded := gated.(decisions := gated.decisions + [decision],
                           events := DrainEvents(Arrive(gated.events, plan.arrivals), Peeked(cfg, s)));
    SelectionAvoidsExcluded(plan.snapshot, excluded, plan.consulted);
    assert Proceeds(cfg, s, now, plan.snapshot) && decision.Selected?;
    SpawnEffect(cfg, recorded, decision, plan.start);
    assert PlanAndSpawn(cfg, s, plan).store.rows[|s.store.rows|].task == decision.task;
  }

  lemma PassIsFounded(cfg: Config, s: Loop, top: nat, pass: PassIn)
    requires s.phase.Going? && |Pass(cfg, s, top, pass).store.rows| != |s.store.rows|
    ensures pass.result.PollOk?
    ensures IsFounded(cfg, PlanningIn(cfg, s, top, pass), pass.result.plan.snapshot, s.store.rows,
                      Pass(cfg, s, top, pass).store.rows)
  {
    var later := PlanningIn(cfg, s, top, pass);
    assert pass.result.PollOk?;
    assert Pass(cfg, s, top, pass) == PlanAndSpawn(cfg, later, pass.result.plan);
    PlanIsFounded(cfg, later, pass.result.plan);
  }

  lemma GuardsFounded(cfg: Config, s: Loop, top: nat, step: Iter)
    requires s.phase.Going? && |Guards(cfg, s, top, step).store.rows| != |s.store.rows|
    ensures s.drain.stop.None? && step.pass.result.PollOk?
    ensures IsFounded(cfg, PlanningIn(cfg, s, top, step.pass), step.pass.result.plan.snapshot, s.store.rows,
                      Guards(cfg, s, top, step).store.rows)
  {
    if s.drain.stop.Some? { DrainStands(cfg, s, top, step); }
    assert Guards(cfg, s, top, step) == Pass(cfg, s, top, step.pass);
    PassIsFounded(cfg, s, top, step.pass);
  }

  /**
  An iteration starts at most one row, only while no stop is declared, for a
  ready task no exclusion covers; with no slot in flight it does so only when
  an armed condition fired.
   */
  lemma StartIsFounded(cfg: Config, s: Loop, step: Iter)
    requires |Iterate(cfg, s, step).store.rows| != |s.store.rows|
    ensures s.drain.stop.None? && step.pass.result.PollOk?
    ensures IsFounded(cfg, PlanningState(cfg, s, step), step.pass.result.plan.snapshot, s.store.rows,
                      Iterate(cfg, s, step).store.rows)
  {
    var top := Tick(s, step.dtTop);
    var trace := SuperviseIsTrace(cfg, top, step.supervise);
    TraceFrame(cfg, top, trace);
    var supervised := Supervise(cfg, top, step.supervise);
    assert supervised.phase.Going?;
    var guarded := Guards(cfg, supervised, top.clock, step);
    assert Iterate(cfg, s, step).store == guarded.store;
    GuardsFounded(cfg, supervised, top.clock, step);
  }

  lemma DisarmedNeverKicksOff(settings: KickoffSettings, observation: KickoffObservation)
    requires AllDisarmed(settings)
    ensures !KicksOff(settings, observation)
  {
  }

  lemma DisarmedIterate(cfg: Config, s: Loop, step: Iter)
    requires AllDisarmed(cfg.kickoff) && s.slots == []
    ensures var t := Iterate(cfg, s, step); |t.store.rows| == |s.store.rows| && t.slots == []
  {
    var top := Tick(s, step.dtTop);
    if s.phase.Going? {
      var trace := SuperviseIsTrace(cfg, top, step.supervise);
      TraceFrame(cfg, top, trace);
      var supervised := Supervise(cfg, top, step.supervise);
      if supervised.phase.Going? { DisarmedGuards(cfg, supervised, top.clock, step); }
    }
  }

  lemma DisarmedGuards(cfg: Config, s: Loop, top: nat, step: Iter)
    requires AllDisarmed(cfg.kickoff) && s.slots == [] && s.phase.Going?
    ensures var t := Guards(cfg, s, top, step); |t.store.rows| == |s.store.rows| && t.slots == []
  {
    if s.drain.stop.Some? {
      DrainStands(cfg, s, top, step);
    } else {
      DisarmedPass(cfg, s, top, step.pass);
    }
  }

  lemma DisarmedPass(cfg: Config, s: Loop, top: nat, pass: PassIn)
    requires AllDisarmed(cfg.kickoff) && s.slots == [] && s.phase.Going?
    ensures var t := Pass(cfg, s, top, pass); |t.store.rows| == |s.store.rows| && t.slots == []
  {
    var later := PlanningIn(cfg, s, top, pass);
    if pass.result.PollOk? {
      DisarmedNeverKicksOff(cfg.kickoff, Observe(cfg, later, NowSecs(cfg, later.clock), pass.result.plan.snapshot));
      assert PlanAndSpawn(cfg, later, pass.result.plan).store == s.store;
    }
  }

  /** With every condition disarmed no run ever starts a row, whatever the board shows. */
  lemma {:induction false} DisarmedNeverStarts(cfg: Config, base: Loop, script: seq<Iter>)
    requires AllDisarmed(cfg.kickoff) && base.slots == []
    ensures var t := Run(cfg, base, script); |t.store.rows| == |base.store.rows| && t.slots == []
  {
    if script != [] {
      DisarmedNeverStarts(cfg, base, script[..|script| - 1]);
      DisarmedIterate(cfg, Run(cfg, base, script[..|script| - 1]), script[|script| - 1]);
    }
  }

  // ----------------------------------------------------------------- what is held back

  /** A retry entry holds its task back: the attempts are used up, or its backoff is not over. */
  ghost predicate HoldsBack(cfg: Config, retry: Retry, now: nat)
  {
    || (cfg.maxTaskAttempts != 0 && cfg.maxTaskAttempts <= retry.attempts)
    || (cfg.taskRetryBackoff != 0 && exists until :: retry.backoffUntil == Some(until) && now < until)
  }

  /**
  A task is excluded exactly when a worker has it, this invocation already has
  a row for it, or its retry entry holds it back; so work whose budget is left
  and whose backoff is over is never kept out.
   */
  lemma ExcludedExactly(cfg: Config, s: Loop, now: nat, task: string)
    ensures task in Excluded(cfg, s, now) <==>
            || (exists k :: 0 <= k < |s.slots| && s.slots[k].task == task)
            || (exists i :: 0 <= i < |s.store.rows| && s.store.rows[i].invocation == cfg.invocation
                            && s.store.rows[i].task == task)
            || (task in s.store.retry && HoldsBack(cfg, s.store.retry[task], now))
  {
  }

  /** Each planning pass, proceeding or not, counts every task that only its retry entry holds back. */
  lemma SkipsAreCounted(cfg: Config, s: Loop, plan: PlanIn) returns (skips: set<string>)
    requires s.phase.Going?
    ensures forall task :: task in skips <==>
              && task in s.store.retry && HoldsBack(cfg, s.store.retry[task], NowSecs(cfg, s.clock))
              && task !in BusyTasks(cfg, s)
    ensures PlanAndSpawn(cfg, s, plan).counters.taskBudgetSkips == s.counters.taskBudgetSkips + |skips|
  {
    skips := GuardSkips(cfg, s, NowSecs(cfg, s.clock));
    var gated := Gated(cfg, s, plan.snapshot);
    if Proceeds(cfg, s, NowSecs(cfg, s.clock), plan.snapshot) {
      PlanSkipsNothing(cfg, gated, Excluded(cfg, s, NowSecs(cfg, s.clock)), Peeked(cfg, s), plan);
    }
  }

  lemma SpawnSkipsNothing(cfg: Config, s: Loop, decision: Decision, start: StartIn)
    requires decision.Selected? && s.decisions != []
    ensures Spawn(cfg, s, decision, start).counters.taskBudgetSkips == s.counters.taskBudgetSkips
  {
  }

  lemma PlanSkipsNothing(cfg: Config, s: Loop, excluded: set<string>, peeked: set<nat>, plan: PlanIn)
    ensures Plan(cfg, s, excluded, peeked, plan).counters.taskBudgetSkips == s.counters.taskBudgetSkips
  {
    var snapshot := plan.snapshot.(ready := Retain(plan.snapshot.ready, excluded));
    var decision := CampaignDecision(snapshot, plan.consulted);
    var recorded := s.(decisions := s.decisions + [decision],
                       events := DrainEvents(Arrive(s.events, plan.arrivals), peeked));
    if decision.Selected? { SpawnSkipsNothing(cfg, recorded, decision, plan.start); }
  }

  // -------------------------------------------------------- what the gate remembers

  lemma SpawnRemembers(cfg: Config, s: Loop, decision: Decision, start: StartIn)
    requires decision.Selected? && s.decisions != []
    ensures var remembered := Spawn(cfg, s, decision, start).gate.previousReady;
            remembered == s.gate.previousReady || remembered == {decision.task}
  {
    if start.SpawnFailed? {
      var started := s.(store := s.store.Start(Request(cfg, s, decision)));
      SettleFrame(cfg, started, |s.store.rows|, decision.task, Failed, SpawnMessage, false, 0, NowSecs(cfg, s.clock));
    }
  }

  lemma PlanRemembers(cfg: Config, s: Loop, excluded: set<string>, peeked: set<nat>, plan: PlanIn)
    requires s.gate.previousReady <= TasksOf(plan.snapshot.ready) - excluded
    ensures Plan(cfg, s, excluded, peeked, plan).gate.previousReady <= TasksOf(plan.snapshot.ready) - excluded
  {
    SelectionAvoidsExcluded(plan.snapshot, excluded, plan.consulted);
    var decision := CampaignDecision(plan.snapshot.(ready := Retain(plan.snapshot.ready, excluded)), plan.consulted);
    var recorded := s.(decisions := s.decisions + [decision],
                       events := DrainEvents(Arrive(s.events, plan.arrivals), peeked));
    if decision.Selected? {
      SpawnRemembers(cfg, recorded, decision, plan.start);
      assert decision.task in TasksOf(plan.snapshot.ready);
    }
  }

  /** No pass, planned or skipped, remembers a task it excluded as ready. */
  lemma ExcludedIsNotRemembered(cfg: Config, s: Loop, plan: PlanIn)
    ensures PlanAndSpawn(cfg, s, plan).gate.previousReady
              <= TasksOf(plan.snapshot.ready) - Excluded(cfg, s, NowSecs(cfg, s.clock))
  {
    var gated := Gated(cfg, s, plan.snapshot);
    PlanRemembers(cfg, gated, Excluded(cfg, s, NowSecs(cfg, s.clock)), Peeked(cfg, s), plan);
  }

  /**
  So a task held back by one pass kicks off the first later pass that finds it
  ready and free, if new work is an armed condition.
   */
  lemma HeldBackWorkKicksOff(cfg: Config, s: Loop, plan: PlanIn, later: Loop, snapshot: BoardSnapshot, task: string)
    requires cfg.kickoff.newEligibleWork
    requires task in Excluded(cfg, s, NowSecs(cfg, s.clock))
    requires later.gate.previousReady == PlanAndSpawn(cfg, s, plan).gate.previousReady
    requires task in TasksOf(snapshot.ready) - Excluded(cfg, later, NowSecs(cfg, later.clock))
    ensures Proceeds(cfg, later, NowSecs(cfg, later.clock), snapshot)
  {
    ExcludedIsNotRemembered(cfg, s, plan);
    var observation := Observe(cfg, later, NowSecs(cfg, later.clock), snapshot);
    assert task in observation.readyIds && task !in observation.previousReadyIds;
    assert Fires(cfg.kickoff, observation, NewEligibleWork);
  }

  // ------------------------------------------------------------------ external events

  function AllDrained(drained: seq<set<nat>>): set<nat>
  {
    if drained == [] then {} else AllDrained(drained[..|drained| - 1]) + drained[|drained| - 1]
  }

  /** Every event that arrived is pending or was drained, never both, and no two drains share one. */
  ghost predicate EventsAreOnce(e: EventQueue)
  {
    && e.pending + AllDrained(e.drained) == Numbers(0, e.arrived)
    && e.pending !! AllDrained(e.drained)
    && forall i, j :: 0 <= i < j < |e.drained| ==> e.drained[i] !! e.drained[j]
  }

  lemma {:induction false} DrainedCovers(drained: seq<set<nat>>, i: nat)
    requires i < |drained|
    ensures drained[i] <= AllDrained(drained)
  {
    if i < |drained| - 1 { DrainedCovers(drained[..|drained| - 1], i); }
  }

  lemma ArriveOnce(e: EventQueue, n: nat)
    requires EventsAreOnce(e)
    ensures EventsAreOnce(Arrive(e, n))
  {
    assert Numbers(0, e.arrived + n) == Numbers(0, e.arrived) + Numbers(e.arrived, n);
  }

  lemma DrainOnce(e: EventQueue, ids: set<nat>)
    requires EventsAreOnce(e) && ids <= e.pending
    ensures EventsAreOnce(DrainEvents(e, ids))
  {
    var t := DrainEvents(e, ids);
    if ids != {} {
      assert t.drained[..|e.drained|] == e.drained;
      forall i | 0 <= i < |e.drained| ensures e.drained[i] !! ids {
        DrainedCovers(e.drained, i);
      }
    }
  }

  /** What a pass that reached planning did to the queue. */
  lemma PlanDrains(cfg: Config, s: Loop, plan: PlanIn)
    requires s.phase.Going?
    ensures var t := PlanAndSpawn(cfg, s, plan).events;
            if Proceeds(cfg, s, NowSecs(cfg, s.clock), plan.snapshot)
            then t == DrainEvents(Arrive(s.events, plan.arrivals), Peeked(cfg, s)) else t == s.events
  {
    var now := NowSecs(cfg, s.clock);
    var gated := Gated(cfg, s, plan.snapshot);
    var snapshot := plan.snapshot.(ready := Retain(plan.snapshot.ready, Excluded(cfg, s, now)));
    var decision := CampaignDecision(snapshot, plan.consulted);
    var recorded := gated.(decisions := gated.decisions + [decision],
                           events := DrainEvents(Arrive(gated.events, plan.arrivals), Peeked(cfg, s)));
    if decision.Selected? { SpawnEffect(cfg, recorded, decision, plan.start); }
  }

  /**
  A planned pass consumes exactly what it peeked, which is everything pending
  for an idle loop that listens and nothing for any other; later arrivals stay.
   */
  lemma LateArrivalsStay(cfg: Config, s: Loop, plan: PlanIn)
    requires s.phase.Going? && EventsAreOnce(s.events)
    ensures var t := PlanAndSpawn(cfg, s, plan).events;
            && EventsAreOnce(t)
            && (forall e :: e in s.events.pending ==>
                  (e !in t.pending <==>
                     && cfg.kickoff.externalEvent && s.slots == []
                     && Proceeds(cfg, s, NowSecs(cfg, s.clock), plan.snapshot)))
            && (Proceeds(cfg, s, NowSecs(cfg, s.clock), plan.snapshot) ==>
                  && t.pending !! Peeked(cfg, s)
                  && Numbers(s.events.arrived, plan.arrivals) <= t.pending)
            && (!Proceeds(cfg, s, NowSecs(cfg, s.clock), plan.snapshot) ==> t == s.events)
  {
    PlanDrains(cfg, s, plan);
    ArriveOnce(s.events, plan.arrivals);
    DrainOnce(Arrive(s.events, plan.arrivals), Peeked(cfg, s));
    assert s.events.pending <= Numbers(0, s.events.arrived);
  }

  lemma PassEventsOnce(cfg: Config, s: Loop, top: nat, pass: PassIn)
    requires s.phase.Going? && EventsAreOnce(s.events)
    ensures EventsAreOnce(Pass(cfg, s, top, pass).events)
  {
    var t, later := Pass(cfg, s, top, pass), PlanningIn(cfg, s, top, pass);
    ArriveOnce(s.events, pass.arrivals);
    if t.events != s.events && t.events != Arrive(s.events, pass.arrivals) {
      assert pass.result.PollOk?;
      assert t == PlanAndSpawn(cfg, later, pass.result.plan);
      LateArrivalsStay(cfg, later, pass.result.plan);
    }
  }

  lemma IterateEventsOnce(cfg: Config, s: Loop, step: Iter)
    requires EventsAreOnce(s.events)
    ensures EventsAreOnce(Iterate(cfg, s, step).events)
  {
    if s.phase.Going? {
      var top := Tick(s, step.dtTop);
      var trace := SuperviseIsTrace(cfg, top, step.supervise);
      TraceFrame(cfg, top, trace);
      var supervised := Supervise(cfg, top, step.supervise);
      if supervised.phase.Going? { GuardsEventsOnce(cfg, supervised, top.clock, step); }
    }
  }

  lemma GuardsEventsOnce(cfg: Config, s: Loop, top: nat, step: Iter)
    requires EventsAreOnce(s.events) && s.phase.Going?
    ensures EventsAreOnce(Guards(cfg, s, top, step).events)
  {
    if s.drain.stop.Some? {
      var trace := DrainIsTrace(cfg, s, step.drain);
      TraceFrame(cfg, s, trace);
    } else {
      PassEventsOnce(cfg, s, top, step.pass);
    }
  }

  lemma {:induction false} RunEventsOnce(cfg: Config, base: Loop, script: seq<Iter>)
    requires EventsAreOnce(base.events)
    ensures EventsAreOnce(Run(cfg, base, script).events)
  {
    if script != [] {
      RunEventsOnce(cfg, base, script[..|script| - 1]);
      IterateEventsOnce(cfg, Run(cfg, base, script[..|script| - 1]), script[|script| - 1]);
    }
  }

  lemma {:induction false} SweepLeavesEvents(cfg: Config, s: Loop, results: seq<Finish>)
    ensures SweepAll(cfg, s, results).events == s.events
    decreases |s.slots|
  {
    if s.slots != [] {
      if results == [] { SweepLeavesEvents(cfg, SweepOne(cfg, s, Finish(Cancelled, 0)), []); }
      else { SweepLeavesEvents(cfg, SweepOne(cfg, s, results[0]), results[1..]); }
    }
  }

  /** Over every chain of invocations each external event is consumed by at most one planned pass. */
  lemma {:induction false} ChainEventsOnce(cfg: Config, invs: seq<Invocation>)
    ensures EventsAreOnce(PlayAll(cfg, EMPTY, invs).events)
  {
    if invs != [] {
      var d, inv := PlayAll(cfg, EMPTY, invs[..|invs| - 1]), invs[|invs| - 1];
      ChainEventsOnce(cfg, invs[..|invs| - 1]);
      var c := ConfigOf(cfg, inv);
      RunEventsOnce(c, Begin(d, inv), inv.script);
      SweepLeavesEvents(c, KillWhere(c, Run(c, Begin(d, inv), inv.script), Everything, Drained), inv.swept);
    }
  }
}

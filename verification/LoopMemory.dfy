/**
What the kick-off gate remembers from one planning pass to the next, and which
passes it therefore lets proceed.
 */
module LoopMemory {
  import opened Wrappers
  import opened RunState
  import opened Selection
  import opened Kickoff
  import opened LoopModel
  import opened LoopTrace
  import opened LoopBookkeeping
  import opened LoopSignals
  import opened LoopReaping
  import opened LoopStops
  import opened LoopKickoff

  // ------------------------------------------------------- between two planning passes

  /** The board of the last pass is remembered as it was, and a release since then exactly when a slot went. */
  ghost predicate SameMemory(s: Loop, t: Loop)
  {
    && t.gate.previousReady == s.gate.previousReady && t.gate.previousBlocked == s.gate.previousBlocked
    && t.gate.lastPassDay == s.gate.lastPassDay && |t.slots| <= |s.slots|
    && (t.gate.slotReleased <==> s.gate.slotReleased || |t.slots| < |s.slots|)
  }

  lemma MicroRemembers(cfg: Config, base: Loop, s: Loop, m: Micro)
    requires Bookkept(cfg, base, s)
    ensures SameMemory(s, Exec(cfg, s, m))
  {
    if s.phase.Going? && m.ReapSlot? && m.i < |s.slots| && CanReturn(s.slots[m.i], m.finish) {
      assert SlotMatches(|base.store.rows|, s, s.slots[m.i]);
      ReapEffect(cfg, s, m.i, m.finish);
    }
  }

  lemma {:induction false} TraceRemembers(cfg: Config, base: Loop, s: Loop, trace: seq<Micro>)
    requires Bookkept(cfg, base, s)
    ensures SameMemory(s, ExecAll(cfg, s, trace))
    decreases |trace|
  {
    if trace != [] {
      MicroRemembers(cfg, base, s, trace[0]);
      MicroKeeps(cfg, base, s, trace[0]);
      TraceRemembers(cfg, base, Exec(cfg, s, trace[0]), trace[1..]);
    }
  }

  /** A poll that records no decision touches neither the memory nor the slots. */
  lemma AfterPollRemembers(cfg: Config, s: Loop, pass: PassIn)
    requires s.phase.Going?
    ensures var t := AfterPoll(cfg, s, pass);
            if PollPlans(cfg, s, pass) then t == PlanAndSpawn(cfg, Tick(s, pass.dtAfter), pass.result.plan)
            else t.decisions == s.decisions && t.slots == s.slots && SameMemory(s, t)
  {
  }

  lemma PassRemembers(cfg: Config, s: Loop, top: nat, pass: PassIn)
    requires s.phase.Going?
    ensures var t := Pass(cfg, s, top, pass);
            || (pass.result.PollOk? && t == PlanAndSpawn(cfg, PlanningIn(cfg, s, top, pass), pass.result.plan))
            || (t.decisions == s.decisions && SameMemory(s, t))
  {
    if !PassGated(cfg, s, top) {
      var begun := Tick(BeginPass(cfg, s, top), pass.dtBudget);
      var polled := Tick(begun, pass.dt)
                    .(signal := Deliver(s.signal, pass.sends, pass.closes), events := Arrive(s.events, pass.arrivals));
      AfterPollRemembers(cfg, polled, pass);
    }
  }

  /** Planning records one decision; it is the gate's no-op exactly when the pass does not proceed. */
  lemma PlanDecides(cfg: Config, s: Loop, plan: PlanIn)
    requires s.phase.Going?
    ensures var t := PlanAndSpawn(cfg, s, plan);
            && |t.decisions| == |s.decisions| + 1
            && (t.decisions[|s.decisions|] == NoOp(KickoffGate) <==>
                  !Proceeds(cfg, s, NowSecs(cfg, s.clock), plan.snapshot))
  {
    var now := NowSecs(cfg, s.clock);
    var gated := Gated(cfg, s, plan.snapshot);
    var snapshot := plan.snapshot.(ready := Retain(plan.snapshot.ready, Excluded(cfg, s, now)));
    var decision := CampaignDecision(snapshot, plan.consulted);
    DecisionIsEligible(snapshot, plan.consulted);
    var recorded := gated.(decisions := gated.decisions + [decision],
                           events := DrainEvents(Arrive(gated.events, plan.arrivals), Peeked(cfg, s)));
    if decision.Selected? { SpawnEffect(cfg, recorded, decision, plan.start); }
  }

  /** A guard table that records a decision planned on the polled board. */
  lemma GuardsRemember(cfg: Config, base: Loop, s: Loop, top: nat, step: Iter)
    requires Bookkept(cfg, base, s) && s.phase.Going?
    ensures var t := Guards(cfg, s, top, step);
            || (&& s.drain.stop.None? && step.pass.result.PollOk?
                && t == PlanAndSpawn(cfg, PlanningIn(cfg, s, top, step.pass), step.pass.result.plan))
            || (t.decisions == s.decisions && SameMemory(s, t))
  {
    if s.drain.stop.Some? {
      var trace := DrainIsTrace(cfg, s, step.drain);
      TraceRemembers(cfg, base, s, trace);
      TraceFrame(cfg, s, trace);
      DrainEnds(cfg, s, top, step);
      DrainKeepsGate(cfg, s, top, step);
    } else if top >= cfg.runBudget || s.store.DailySpend(NowSecs(cfg, top)) >= cfg.spendCap || CyclesAreUp(cfg, s) {
    } else {
      assert Guards(cfg, s, top, step) == Pass(cfg, s, top, step.pass);
      PassRemembers(cfg, s, top, step.pass);
    }
  }

  lemma DrainKeepsGate(cfg: Config, s: Loop, top: nat, step: Iter)
    requires s.drain.stop.Some?
    ensures Guards(cfg, s, top, step).gate == DrainSweep(cfg, s, step.drain).gate
  {
  }

  /** The iteration planned: its pass got as far as a decision. */
  ghost predicate Planned(cfg: Config, s: Loop, step: Iter, t: Loop)
  {
    && step.pass.result.PollOk?
    && var g := PlanAndSpawn(cfg, PlanningState(cfg, s, step), step.pass.result.plan);
       t.gate == g.gate && t.store == g.store && t.slots == g.slots && t.decisions == g.decisions
  }

  lemma SameMemoryTrans(s: Loop, t: Loop, u: Loop)
    requires SameMemory(s, t) && SameMemory(t, u)
    ensures SameMemory(s, u)
  {
  }

  lemma WaitRemembers(cfg: Config, s: Loop, step: WaitIn)
    ensures var t := Wait(cfg, s, step);
            t.gate == s.gate && t.slots == s.slots && t.store == s.store && t.decisions == s.decisions
  {
  }

  lemma FoundRemembers(cfg: Config, base: Loop, s: Loop, step: Iter, u: Loop)
    requires Bookkept(cfg, base, s) && s.phase.Going? && u == Found(cfg, s, step)
    ensures SameMemory(s, u)
  {
    var top := Tick(s, step.dtTop);
    TickIsBookkept(cfg, base, s, step.dtTop);
    var trace := SuperviseIsTrace(cfg, top, step.supervise);
    TraceRemembers(cfg, base, top, trace);
    SameMemoryTrans(s, top, u);
  }

  /** An iteration plans, or it keeps the memory and records nothing. */
  lemma IterateRemembers(cfg: Config, base: Loop, s: Loop, step: Iter)
    requires Bookkept(cfg, base, s)
    ensures var t := Iterate(cfg, s, step);
            (s.phase.Going? && Planned(cfg, s, step, t)) || (t.decisions == s.decisions && SameMemory(s, t))
  {
    if s.phase.Going? {
      var u := Found(cfg, s, step);
      FoundIsFramed(cfg, base, s, step, u);
      FoundRemembers(cfg, base, s, step, u);
      var g := Guards(cfg, u, TopOf(s, step), step);
      IterateFromFound(cfg, s, step, u, g);
      GuardsRemember(cfg, base, u, TopOf(s, step), step);
      TailRemembers(cfg, s, step, u, g, Iterate(cfg, s, step));
    }
  }

  /** From supervision on. */
  lemma TailRemembers(cfg: Config, s: Loop, step: Iter, u: Loop, g: Loop, t: Loop)
    requires SameMemory(s, u) && u.decisions == s.decisions && u == Found(cfg, s, step)
    requires t == if g.phase.Going? then Wait(cfg, g, step.wait) else g
    requires || (&& step.pass.result.PollOk?
                 && g == PlanAndSpawn(cfg, PlanningIn(cfg, u, TopOf(s, step), step.pass), step.pass.result.plan))
             || (g.decisions == u.decisions && SameMemory(u, g))
    ensures Planned(cfg, s, step, t) || (t.decisions == s.decisions && SameMemory(s, t))
  {
    WaitRemembers(cfg, g, step.wait);
    if g.decisions == u.decisions && SameMemory(u, g) { SameMemoryTrans(s, u, g); }
  }

  lemma {:induction false} RunRemembers(cfg: Config, base: Loop, s: Loop, script: seq<Iter>)
    requires Bookkept(cfg, base, s)
    ensures var t := Run(cfg, s, script);
            && Bookkept(cfg, base, t) && |s.decisions| <= |t.decisions|
            && (|t.decisions| == |s.decisions| ==> SameMemory(s, t))
  {
    if script != [] {
      var init := script[..|script| - 1];
      var m, step := Run(cfg, s, init), script[|script| - 1];
      RunRemembers(cfg, base, s, init);
      IterateKeeps(cfg, base, m, step);
      IterateRemembers(cfg, base, m, step);
      if m.phase.Going? && Planned(cfg, m, step, Iterate(cfg, m, step)) {
        PlannedDecides(cfg, base, m, step);
      } else if |m.decisions| == |s.decisions| {
        SameMemoryTrans(s, m, Iterate(cfg, m, step));
      }
    }
  }

  // ------------------------------------------------------------- what a planning pass leaves

  /** The spawn failed: the row of the pass is already over. */
  predicate FailedToSpawn(s: Loop, t: Loop)
  {
    |t.store.rows| == |s.store.rows| + 1 && IsTerminal(t.store.rows[|s.store.rows|].status)
  }

  /** The free ready tasks of a board. */
  function FreeTasks(cfg: Config, at: Loop, board: BoardSnapshot): set<string>
  {
    TasksOf(board.ready) - Excluded(cfg, at, NowSecs(cfg, at.clock))
  }

  lemma SpawnLeaves(cfg: Config, s: Loop, decision: Decision, start: StartIn)
    requires decision.Selected? && s.decisions != [] && s.phase.Going?
    ensures var t := Spawn(cfg, s, decision, start);
            && t.gate.previousBlocked == s.gate.previousBlocked && t.gate.lastPassDay == s.gate.lastPassDay
            && t.gate.slotReleased == s.gate.slotReleased
            && |t.store.rows| == |s.store.rows| + 1 && t.store.rows[|s.store.rows|].task == decision.task
            && t.gate.previousReady == if FailedToSpawn(s, t) then {decision.task} else s.gate.previousReady
  {
    SpawnEffect(cfg, s, decision, start);
    if start.SpawnFailed? {
      var started := s.(store := s.store.Start(Request(cfg, s, decision)));
      SettleFrame(cfg, started, |s.store.rows|, decision.task, Failed, SpawnMessage, false, 0, NowSecs(cfg, s.clock));
    }
  }

  /** After planning: this board's blocked tasks, this day, no release, and the free ready tasks or the one tried. */
  lemma PlanLeaves(cfg: Config, s: Loop, plan: PlanIn)
    requires s.phase.Going?
    ensures var t := PlanAndSpawn(cfg, s, plan);
            && t.gate.previousBlocked == TasksOf(plan.snapshot.blocked) && !t.gate.slotReleased
            && t.gate.lastPassDay == Some(DayStart(NowSecs(cfg, s.clock)))
            && t.gate.previousReady == if FailedToSpawn(s, t) then {t.store.rows[|s.store.rows|].task}
                                       else FreeTasks(cfg, s, plan.snapshot)
  {
    var now := NowSecs(cfg, s.clock);
    if Proceeds(cfg, s, now, plan.snapshot) {
      var gated := Gated(cfg, s, plan.snapshot);
      var snapshot := plan.snapshot.(ready := Retain(plan.snapshot.ready, Excluded(cfg, s, now)));
      var decision := CampaignDecision(snapshot, plan.consulted);
      var recorded := gated.(decisions := gated.decisions + [decision],
                             events := DrainEvents(Arrive(gated.events, plan.arrivals), Peeked(cfg, s)));
      if decision.Selected? { SpawnLeaves(cfg, recorded, decision, plan.start); }
    }
  }

  /** The board a planning iteration planned on. */
  function BoardOfPass(step: Iter): BoardSnapshot
    requires step.pass.result.PollOk?
  {
    step.pass.result.plan.snapshot
  }

  lemma PlanningIsFound(cfg: Config, base: Loop, s: Loop, step: Iter)
    requires Bookkept(cfg, base, s) && s.phase.Going?
    ensures var p, u := PlanningState(cfg, s, step), Found(cfg, s, step);
            && p.phase.Going? && p.decisions == s.decisions && p.slots == u.slots && p.store == u.store
            && |p.store.rows| == |s.store.rows| && SameMemory(s, p) && s.clock <= p.clock
  {
    var u := Found(cfg, s, step);
    FoundIsFramed(cfg, base, s, step, u);
    FoundRemembers(cfg, base, s, step, u);
    var top := Tick(s, step.dtTop);
    var trace := SuperviseIsTrace(cfg, top, step.supervise);
    TraceFrame(cfg, top, trace);
  }

  lemma PlannedDecides(cfg: Config, base: Loop, s: Loop, step: Iter)
    requires Bookkept(cfg, base, s) && s.phase.Going? && Planned(cfg, s, step, Iterate(cfg, s, step))
    ensures var t, p := Iterate(cfg, s, step), PlanningState(cfg, s, step);
            && |t.decisions| == |s.decisions| + 1
            && (t.decisions[|s.decisions|] == NoOp(KickoffGate) <==>
                  !Proceeds(cfg, p, NowSecs(cfg, p.clock), BoardOfPass(step)))
  {
    PlanningIsFound(cfg, base, s, step);
    PlanDecides(cfg, PlanningState(cfg, s, step), step.pass.result.plan);
  }

  lemma PlannedLeaves(cfg: Config, base: Loop, s: Loop, step: Iter)
    requires Bookkept(cfg, base, s) && s.phase.Going? && Planned(cfg, s, step, Iterate(cfg, s, step))
    ensures var t, p := Iterate(cfg, s, step), PlanningState(cfg, s, step);
            && t.gate.previousBlocked == TasksOf(BoardOfPass(step).blocked) && !t.gate.slotReleased
            && t.gate.lastPassDay == Some(DayStart(NowSecs(cfg, p.clock)))
            && t.gate.previousReady == ShownBy(cfg, s, step, t)
  {
    PlanningIsFound(cfg, base, s, step);
    PlanLeaves(cfg, PlanningState(cfg, s, step), step.pass.result.plan);
  }

  /** What the next pass does not take for new work: the free ready tasks, or only the one whose spawn failed. */
  function ShownBy(cfg: Config, s: Loop, step: Iter, t: Loop): set<string>
    requires step.pass.result.PollOk?
  {
    if FailedToSpawn(s, t) then {t.store.rows[|s.store.rows|].task}
    else FreeTasks(cfg, PlanningState(cfg, s, step), BoardOfPass(step))
  }

  // --------------------------------------------------------------------------- the theorem

  /** The UTC day of a second. */
  function DayOf(secs: nat): nat { secs / SECS_PER_DAY }

  lemma DaysDiffer(a: nat, b: nat)
    ensures DayStart(a) == DayStart(b) <==> DayOf(a) == DayOf(b)
  {
    assert DayStart(a) == SECS_PER_DAY * DayOf(a) && DayStart(b) == SECS_PER_DAY * DayOf(b);
  }

  /**
  A pass in state `p` has a reason to go on: work in flight, or an armed
  condition. `shown` and `blocked` are what the last planning pass showed,
  `released` says that a slot went since then, `newDay` that its UTC day is over.
   */
  ghost predicate HasReason(cfg: Config, p: Loop, board: BoardSnapshot, shown: set<string>, blocked: set<string>,
                            released: bool, newDay: bool)
  {
    var free := FreeTasks(cfg, p, board);
    || p.slots != []
    || (cfg.kickoff.newEligibleWork && exists task :: task in free && task !in shown)
    || (cfg.kickoff.unblockedPromotion && exists task :: task in free && task in blocked)
    || (cfg.kickoff.slotReleased && released)
    || (cfg.kickoff.budgetWindowReset && newDay)
    || (cfg.kickoff.externalEvent && p.events.pending != {})
  }

  /** A pass was remembered, and not on the day of this one. */
  predicate IsNewDay(cfg: Config, p: Loop)
  {
    p.gate.lastPassDay.Some? && p.gate.lastPassDay.value != DayStart(NowSecs(cfg, p.clock))
  }

  lemma ProceedsExactly(cfg: Config, p: Loop, board: BoardSnapshot)
    ensures Proceeds(cfg, p, NowSecs(cfg, p.clock), board) <==>
            HasReason(cfg, p, board, p.gate.previousReady, p.gate.previousBlocked, p.gate.slotReleased,
                      IsNewDay(cfg, p))
  {
    FiringIsReason(cfg.kickoff, Observe(cfg, p, NowSecs(cfg, p.clock), board));
  }

  lemma FiringIsReason(settings: KickoffSettings, o: KickoffObservation)
    ensures KicksOff(settings, o) <==>
            || (settings.newEligibleWork && exists id :: id in o.readyIds && id !in o.previousReadyIds)
            || (settings.unblockedPromotion && exists id :: id in o.readyIds && id in o.previousBlockedIds)
            || (settings.slotReleased && o.slotReleased)
            || (settings.budgetWindowReset && o.budgetWindowReset)
            || (settings.externalEvent && o.externalEvents != {})
  {
    assert Fires(settings, o, NewEligibleWork) <==>
           settings.newEligibleWork && exists id :: id in o.readyIds && id !in o.previousReadyIds;
    assert Fires(settings, o, UnblockedPromotion) <==>
           settings.unblockedPromotion && exists id :: id in o.readyIds && id in o.previousBlockedIds;
    assert Fires(settings, o, SlotReleased) <==> settings.slotReleased && o.slotReleased;
    assert Fires(settings, o, BudgetWindowReset) <==> settings.budgetWindowReset && o.budgetWindowReset;
    assert Fires(settings, o, ExternalEvent) <==> settings.externalEvent && o.externalEvents != {};
  }

  /**
  Two planning iterations of a run with none between them. The second records
  the gate's no-op if and only if it has no reason to go on: nothing in flight,
  and no armed condition among a free ready task the first did not show, a free
  ready task that was blocked on the first one's board, a slot that went since
  the first, a new UTC day, and a pending event. After a failed spawn the first
  counts as having shown the attempted task alone.
   */
  lemma NextPassExactly(cfg: Config, base: Loop, script: seq<Iter>, first: Iter, between: seq<Iter>, next: Iter)
    requires IsStart(base)
    requires var s := Run(cfg, base, script);
             var t := Iterate(cfg, s, first);
             var u := Run(cfg, t, between);
             && |t.decisions| > |s.decisions| && |u.decisions| == |t.decisions|
             && |Iterate(cfg, u, next).decisions| > |u.decisions|
    ensures first.pass.result.PollOk? && next.pass.result.PollOk?
    ensures var s := Run(cfg, base, script);
            var t := Iterate(cfg, s, first);
            var u := Run(cfg, t, between);
            var v, p := Iterate(cfg, u, next), PlanningState(cfg, u, next);
            && |v.decisions| == |u.decisions| + 1
            && (v.decisions[|u.decisions|] != NoOp(KickoffGate) <==>
                  HasReason(cfg, p, BoardOfPass(next), ShownBy(cfg, s, first, t), TasksOf(BoardOfPass(first).blocked),
                            |p.slots| < |t.slots|, DaysPass(cfg, PlanningState(cfg, s, first), p)))
  {
    var s := Run(cfg, base, script);
    RunIsBookkept(cfg, base, script);
    var t := Iterate(cfg, s, first);
    IterateRemembers(cfg, base, s, first);
    PlannedLeaves(cfg, base, s, first);
    IterateKeeps(cfg, base, s, first);
    RunRemembers(cfg, base, t, between);
    var u := Run(cfg, t, between);
    NextFrom(cfg, base, t, u, next);
    DaysDiffer(NowSecs(cfg, PlanningState(cfg, s, first).clock), NowSecs(cfg, PlanningState(cfg, u, next).clock));
  }

  /** The two states are on different UTC days. */
  predicate DaysPass(cfg: Config, s: Loop, t: Loop) { DayOf(NowSecs(cfg, s.clock)) != DayOf(NowSecs(cfg, t.clock)) }

  /** The first planning iteration of a run has the memory the run began with. */
  lemma FirstPassExactly(cfg: Config, base: Loop, before: seq<Iter>, next: Iter)
    requires IsStart(base)
    requires var u := Run(cfg, base, before);
             |u.decisions| == |base.decisions| && |Iterate(cfg, u, next).decisions| > |u.decisions|
    ensures next.pass.result.PollOk?
    ensures var u := Run(cfg, base, before);
            var v, p := Iterate(cfg, u, next), PlanningState(cfg, u, next);
            && |v.decisions| == |u.decisions| + 1 && p.slots == []
            && (v.decisions[|u.decisions|] != NoOp(KickoffGate) <==>
                  HasReason(cfg, p, BoardOfPass(next), base.gate.previousReady, base.gate.previousBlocked,
                            base.gate.slotReleased, IsNewDay(cfg, p)))
            && p.gate.lastPassDay == base.gate.lastPassDay
  {
    StartIsBookkept(cfg, base);
    RunRemembers(cfg, base, base, before);
    NextFrom(cfg, base, base, Run(cfg, base, before), next);
  }

  /** The second of the two, from the state the first one left. */
  lemma NextFrom(cfg: Config, base: Loop, t: Loop, u: Loop, next: Iter)
    requires Bookkept(cfg, base, u) && SameMemory(t, u) && |Iterate(cfg, u, next).decisions| > |u.decisions|
    ensures next.pass.result.PollOk?
    ensures var v, p := Iterate(cfg, u, next), PlanningState(cfg, u, next);
            && |v.decisions| == |u.decisions| + 1 && SameMemory(t, p)
            && (v.decisions[|u.decisions|] != NoOp(KickoffGate) <==>
                  HasReason(cfg, p, BoardOfPass(next), t.gate.previousReady, t.gate.previousBlocked,
                            t.gate.slotReleased || |p.slots| < |t.slots|, IsNewDay(cfg, p)))
  {
    IterateRemembers(cfg, base, u, next);
    PlannedDecides(cfg, base, u, next);
    PlanningIsFound(cfg, base, u, next);
    var p := PlanningState(cfg, u, next);
    SameMemoryTrans(t, u, p);
    ProceedsExactly(cfg, p, BoardOfPass(next));
  }
}

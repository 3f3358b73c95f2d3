/**
Why a loop stops: every stop reason has its cause, every cause its stop in
arbitration order, and every abort names the stop it served.
 */
module LoopStops {
  import opened Wrappers
  import opened RunState
  import opened LoopModel
  import opened LoopTrace
  import opened LoopBookkeeping
  import opened LoopSignals
  import opened LoopArbitration
  import opened LoopReaping
  import opened LoopPacing

  // ------------------------------------------------------- what an iteration reads

  /** The clock reading at the top of an iteration, against which the guards decide. */
  function TopOf(s: Loop, step: Iter): nat { Tick(s, step.dtTop).clock }

  /** What the guards find: the state after supervision. */
  function Found(cfg: Config, s: Loop, step: Iter): Loop { Supervise(cfg, Tick(s, step.dtTop), step.supervise) }

  predicate BudgetIsUp(cfg: Config, s: Loop, step: Iter) { TopOf(s, step) >= cfg.runBudget }

  /** The spend recorded for the day of the reading has reached the cap. */
  predicate SpendIsUp(cfg: Config, s: Loop, step: Iter)
  {
    Total(SpendOn(DayStart(NowSecs(cfg, TopOf(s, step)))), Found(cfg, s, step).store.rows) >= cfg.spendCap
  }

  predicate CyclesAreUp(cfg: Config, s: Loop)
  {
    cfg.maxCycles.Some? && s.counters.cycles >= cfg.maxCycles.value
  }

  /** What an iteration without a due guard may still declare: a signal it saw, or the budget its poll ran into. */
  ghost predicate MayStillStop(cfg: Config, s: Loop, t: Loop)
  {
    || t.drain.stop.None?
    || (t.drain.stop == Some(Shutdown) && t.signal.applied != [])
    || (t.drain.stop == Some(RunBudgetExhausted) && t.clock >= cfg.runBudget
        && t.counters.cycles == s.counters.cycles + 1 && t.decisions == s.decisions)
  }

  /**
  What an iteration that began without a stop declares, in arbitration order:
  the run budget, then the spend cap, then the cycle bound; and with none of
  them due, at most a shutdown or the budget its poll ran into.
   */
  ghost predicate DeclaresDue(cfg: Config, s: Loop, step: Iter, t: Loop)
  {
    if BudgetIsUp(cfg, s, step) then t.drain.stop == Some(RunBudgetExhausted)
    else if SpendIsUp(cfg, s, step) then t.drain.stop == Some(SpendSoftCap)
    else if CyclesAreUp(cfg, s) then t.drain.stop == Some(CycleBudget)
    else MayStillStop(cfg, s, t)
  }

  // ---------------------------------------------------------------- one iteration

  /** The state in which the poll has returned. */
  function PolledIn(cfg: Config, s: Loop, top: nat, pass: PassIn): Loop
  {
    Tick(Tick(BeginPass(cfg, s, top), pass.dtBudget), pass.dt)
    .(signal := Deliver(s.signal, pass.sends, pass.closes), events := Arrive(s.events, pass.arrivals))
  }

  predicate HasUnseen(c: Channel) { c.sends > c.cloneSeen }

  /** The signal arm was ready and taken. */
  predicate SignalWins(cfg: Config, s: Loop, top: nat, pass: PassIn)
  {
    pass.signalFirst && HasUnseen(PolledIn(cfg, s, top, pass).signal)
  }

  /** The budget arm was ready and taken: the budget ran out while the poll was under way. */
  predicate BudgetWins(cfg: Config, s: Loop, top: nat, pass: PassIn)
  {
    && !SignalWins(cfg, s, top, pass) && pass.budgetFirst
    && s.clock + pass.dtBudget <= cfg.runBudget <= PolledIn(cfg, s, top, pass).clock
  }

  /** What a pass may declare, and that it then leaves the whole shutdown budget from this moment. */
  ghost predicate MayDeclare(cfg: Config, s: Loop, t: Loop)
  {
    MayStillStop(cfg, s, t) && (t.drain.stop.Some? ==> t.drain.deadline == At(t.clock + cfg.shutdownBudget))
  }

  lemma PassMayStop(cfg: Config, s: Loop, top: nat, pass: PassIn)
    requires s.phase.Going? && s.drain.stop.None?
    ensures MayDeclare(cfg, s, Pass(cfg, s, top, pass))
  {
    if PassGated(cfg, s, top) {
      assert Pass(cfg, s, top, pass) == s;
    } else if SignalWins(cfg, s, top, pass) || BudgetWins(cfg, s, top, pass) {
      ArmMayStop(cfg, s, top, pass);
    } else {
      BoardMayStop(cfg, s, top, pass);
    }
  }

  lemma ArmMayStop(cfg: Config, s: Loop, top: nat, pass: PassIn)
    requires s.phase.Going? && s.drain.stop.None? && !PassGated(cfg, s, top)
    requires SignalWins(cfg, s, top, pass) || BudgetWins(cfg, s, top, pass)
    ensures MayDeclare(cfg, s, Pass(cfg, s, top, pass))
  {
  }

  lemma BoardMayStop(cfg: Config, s: Loop, top: nat, pass: PassIn)
    requires s.phase.Going? && s.drain.stop.None? && !PassGated(cfg, s, top)
    requires !SignalWins(cfg, s, top, pass) && !BudgetWins(cfg, s, top, pass)
    ensures MayDeclare(cfg, s, Pass(cfg, s, top, pass))
  {
    assert Pass(cfg, s, top, pass) == AfterPoll(cfg, PolledIn(cfg, s, top, pass), pass);
    AfterPollMayStop(cfg, PolledIn(cfg, s, top, pass), pass);
  }

  lemma AfterPollMayStop(cfg: Config, s: Loop, pass: PassIn)
    requires s.phase.Going? && s.drain.stop.None?
    ensures var t := AfterPoll(cfg, s, pass);
            || t.drain.stop.None?
            || (t.drain.stop == Some(Shutdown) && t.signal.applied != [])
            || (t.drain.stop == Some(RunBudgetExhausted) && t.clock >= cfg.runBudget
                && t.counters == s.counters && t.decisions == s.decisions)
    ensures var t := AfterPoll(cfg, s, pass);
            t.drain.stop.Some? ==> t.drain.deadline == At(t.clock + cfg.shutdownBudget)
  {
    if PollPlans(cfg, s, pass) { PlanDeclaresNothing(cfg, s, pass); }
  }

  lemma PlanDeclaresNothing(cfg: Config, s: Loop, pass: PassIn)
    requires s.phase.Going? && s.drain.stop.None? && PollPlans(cfg, s, pass)
    ensures AfterPoll(cfg, s, pass).drain.stop.None?
  {
    assert AfterPoll(cfg, s, pass) == PlanAndSpawn(cfg, Tick(s, pass.dtAfter), pass.result.plan);
    PlanSlots(cfg, Tick(s, pass.dtAfter), pass.result.plan);
  }

  lemma GuardsDeclare(cfg: Config, s: Loop, top: nat, step: Iter)
    requires s.phase.Going? && s.drain.stop.None?
    ensures var t := Guards(cfg, s, top, step);
            if top >= cfg.runBudget
            then t.drain.stop == Some(RunBudgetExhausted) && t.drain.deadline == At(top + cfg.shutdownBudget)
            else if Total(SpendOn(DayStart(NowSecs(cfg, top))), s.store.rows) >= cfg.spendCap
            then t.drain.stop == Some(SpendSoftCap) && t.drain.deadline.Unbounded?
            else if CyclesAreUp(cfg, s)
            then t.drain.stop == Some(CycleBudget) && t.drain.deadline == At(top + cfg.shutdownBudget)
            else MayDeclare(cfg, s, t)
  {
    if top < cfg.runBudget && s.store.DailySpend(NowSecs(cfg, top)) < cfg.spendCap && !CyclesAreUp(cfg, s) {
      assert Guards(cfg, s, top, step) == Pass(cfg, s, top, step.pass);
      PassMayStop(cfg, s, top, step.pass);
    }
  }

  // ------------------------------------------------------------------- the poll race

  /** The poll itself returned a board. */
  predicate BoardReturns(cfg: Config, s: Loop, top: nat, pass: PassIn)
  {
    !SignalWins(cfg, s, top, pass) && !BudgetWins(cfg, s, top, pass) && pass.result.PollOk?
  }

  lemma ReturnedBoard(cfg: Config, s: Loop, pass: PassIn)
    requires s.phase.Going? && s.drain.stop.None?
    ensures var t := AfterPoll(cfg, s, pass);
            && (|t.decisions| > |s.decisions| <==> PollPlans(cfg, s, pass))
            && (t.drain.stop == Some(RunBudgetExhausted) <==> pass.result.PollOk? && s.clock >= cfg.runBudget)
            && (t.drain.stop == Some(Shutdown) <==>
                  && pass.result.PollOk? && s.clock < cfg.runBudget && !s.signal.closed && HasUnseen(s.signal))
  {
    if PollPlans(cfg, s, pass) {
      PlanDeclaresNothing(cfg, s, pass);
      PlanRecords(cfg, Tick(s, pass.dtAfter), pass.result.plan);
    }
  }

  lemma PlanRecords(cfg: Config, s: Loop, plan: PlanIn)
    requires s.phase.Going?
    ensures |PlanAndSpawn(cfg, s, plan).decisions| == |s.decisions| + 1
  {
    var now := NowSecs(cfg, s.clock);
    var gated := Gated(cfg, s, plan.snapshot);
    var snapshot := plan.snapshot.(ready := Retain(plan.snapshot.ready, Excluded(cfg, s, now)));
    var decision := Selection.CampaignDecision(snapshot, plan.consulted);
    var recorded := gated.(decisions := gated.decisions + [decision],
                           events := DrainEvents(Arrive(gated.events, plan.arrivals), Peeked(cfg, s)));
    if decision.Selected? { SpawnEffect(cfg, recorded, decision, plan.start); }
  }

  /**
  How a pass that polls ends. It plans exactly when the poll returned a board
  before the run budget, with no signal unseen on an open channel. It declares
  a shutdown exactly for a signal that won the race, or one unseen when the
  board came back in time; and the run budget exactly when that won the race,
  or the board came back too late.
   */
  lemma PassEndsExactly(cfg: Config, s: Loop, top: nat, pass: PassIn)
    requires s.phase.Going? && s.drain.stop.None? && !PassGated(cfg, s, top)
    ensures var t, p := Pass(cfg, s, top, pass), PolledIn(cfg, s, top, pass);
            var board := BoardReturns(cfg, s, top, pass);
            && (|t.decisions| > |s.decisions| <==>
                  board && p.clock < cfg.runBudget && (p.signal.closed || !HasUnseen(p.signal)))
            && (t.drain.stop == Some(Shutdown) <==>
                  || SignalWins(cfg, s, top, pass)
                  || (board && p.clock < cfg.runBudget && !p.signal.closed && HasUnseen(p.signal)))
            && (t.drain.stop == Some(RunBudgetExhausted) <==>
                  BudgetWins(cfg, s, top, pass) || (board && p.clock >= cfg.runBudget))
  {
    var t, p := Pass(cfg, s, top, pass), PolledIn(cfg, s, top, pass);
    if !SignalWins(cfg, s, top, pass) && !BudgetWins(cfg, s, top, pass) {
      assert t == AfterPoll(cfg, p, pass);
      ReturnedBoard(cfg, p, pass);
    }
  }

  /** A shutdown out of a pass is one applied signal at this moment, and no send is left for the wait to apply again. */
  lemma PassAppliesOnce(cfg: Config, s: Loop, top: nat, pass: PassIn)
    requires s.phase.Going? && s.drain.stop.None? && !PassGated(cfg, s, top)
    requires Pass(cfg, s, top, pass).drain.stop == Some(Shutdown)
    ensures var t, p := Pass(cfg, s, top, pass), PolledIn(cfg, s, top, pass);
            && t.signal.mainSeen == t.signal.sends == p.signal.sends && t.signal.closed == p.signal.closed
            && t.signal.cloneSeen == (if SignalWins(cfg, s, top, pass) then p.signal.sends else s.signal.cloneSeen)
            && t.signal.applied == s.signal.applied + [Applied(t.clock, false)]
            && t.clock == p.clock + pass.dtAfter
  {
    var t, p := Pass(cfg, s, top, pass), PolledIn(cfg, s, top, pass);
    if !SignalWins(cfg, s, top, pass) && !BudgetWins(cfg, s, top, pass) {
      assert t == AfterPoll(cfg, p, pass);
      ReturnedBoard(cfg, p, pass);
    }
  }

  /** The wait declares nothing but a shutdown it saw, and keeps what is declared. */
  lemma WaitMayStop(cfg: Config, s: Loop, step: WaitIn)
    ensures var t := Wait(cfg, s, step);
            && (s.drain.stop.Some? ==> t.drain.stop == s.drain.stop)
            && (s.drain.stop.None? ==>
                  t.drain.stop.None? || (t.drain.stop == Some(Shutdown) && t.signal.applied != []))
            && |s.signal.applied| <= |t.signal.applied| && s.clock <= t.clock
            && t.counters == s.counters && t.decisions == s.decisions
  {
  }

  /** From supervision on. */
  lemma TailDeclares(cfg: Config, s: Loop, step: Iter, u: Loop, g: Loop, t: Loop)
    requires s.phase.Going? && u == Found(cfg, s, step) && u.phase.Going? && u.drain.stop.None?
    requires u.counters.cycles == s.counters.cycles && u.decisions == s.decisions
    requires g == Guards(cfg, u, TopOf(s, step), step) && t == if g.phase.Going? then Wait(cfg, g, step.wait) else g
    ensures DeclaresDue(cfg, s, step, t)
  {
    GuardsDeclare(cfg, u, TopOf(s, step), step);
    WaitMayStop(cfg, g, step.wait);
  }

  lemma IterateDeclares(cfg: Config, base: Loop, s: Loop, step: Iter)
    requires Bookkept(cfg, base, s) && s.phase.Going? && s.drain.stop.None?
    ensures DeclaresDue(cfg, s, step, Iterate(cfg, s, step))
  {
    var u := Found(cfg, s, step);
    FoundIsFramed(cfg, base, s, step, u);
    var g := Guards(cfg, u, TopOf(s, step), step);
    IterateFromFound(cfg, s, step, u, g);
    TailDeclares(cfg, s, step, u, g, Iterate(cfg, s, step));
  }

  /** Supervision never ends a run, and leaves stop, signals, polls and decisions alone. */
  lemma FoundIsFramed(cfg: Config, base: Loop, s: Loop, step: Iter, u: Loop)
    requires Bookkept(cfg, base, s) && s.phase.Going? && u == Found(cfg, s, step)
    ensures u.phase.Going? && Bookkept(cfg, base, u) && u.drain == s.drain && u.signal == s.signal
    ensures u.counters.cycles == s.counters.cycles && u.decisions == s.decisions && TopOf(s, step) <= u.clock
  {
    var top := Tick(s, step.dtTop);
    TickIsBookkept(cfg, base, s, step.dtTop);
    SupervisedIsBookkept(cfg, base, top, step.supervise);
    var trace := SuperviseIsTrace(cfg, top, step.supervise);
    TraceFrame(cfg, top, trace);
  }

  lemma IterateFromFound(cfg: Config, s: Loop, step: Iter, u: Loop, g: Loop)
    requires s.phase.Going? && u == Supervise(cfg, Tick(s, step.dtTop), step.supervise) && u.phase.Going?
    requires g == Guards(cfg, u, Tick(s, step.dtTop).clock, step)
    ensures Iterate(cfg, s, step) == if g.phase.Going? then Wait(cfg, g, step.wait) else g
  {
  }

  // ---------------------------------------------------------------------- whole runs

  /** What a declared stop says about the state it stands in. */
  ghost predicate IsCaused(cfg: Config, s: Loop)
  {
    && (s.drain.stop == Some(RunBudgetExhausted) ==> s.clock >= cfg.runBudget)
    && (s.drain.stop == Some(CycleBudget) ==> cfg.maxCycles.Some? && s.counters.cycles >= cfg.maxCycles.value)
    && (s.drain.stop == Some(Shutdown) ==> s.signal.applied != [])
    && s.drain.stop != Some(GuardrailsExhausted)
  }

  lemma StoppedStaysCaused(cfg: Config, s: Loop, step: Iter)
    requires IsCaused(cfg, s) && s.drain.stop.Some?
    ensures IsCaused(cfg, Iterate(cfg, s, step)) && Iterate(cfg, s, step).drain.stop == s.drain.stop
  {
    StopIsFinal(cfg, s, step);
    IterateGrows(cfg, s, step);
  }

  /** The clock, the poll count and the applied signals never go back. */
  lemma IterateGrows(cfg: Config, s: Loop, step: Iter)
    ensures var t := Iterate(cfg, s, step);
            s.clock + step.dtTop <= t.clock || t == s
    ensures var t := Iterate(cfg, s, step);
            s.clock <= t.clock && s.counters.cycles <= t.counters.cycles && |s.signal.applied| <= |t.signal.applied|
  {
    IteratePaces(cfg, s, step);
    if s.phase.Going? {
      var top := Tick(s, step.dtTop);
      var trace := SuperviseIsTrace(cfg, top, step.supervise);
      TraceFrame(cfg, top, trace);
      var u := Supervise(cfg, top, step.supervise);
      if u.phase.Going? { GuardsGrow(cfg, u, top.clock, step); }
    }
  }

  lemma GuardsGrow(cfg: Config, s: Loop, top: nat, step: Iter)
    requires s.phase.Going?
    ensures var t := Guards(cfg, s, top, step); s.clock <= t.clock && |s.signal.applied| <= |t.signal.applied|
  {
    if s.drain.stop.Some? {
      var trace := DrainIsTrace(cfg, s, step.drain);
      TraceFrame(cfg, s, trace);
    } else {
      PassGrows(cfg, s, top, step.pass);
    }
  }

  lemma PassGrows(cfg: Config, s: Loop, top: nat, pass: PassIn)
    requires s.phase.Going?
    ensures var t := Pass(cfg, s, top, pass); s.clock <= t.clock && |s.signal.applied| <= |t.signal.applied|
  {
    if !PassGated(cfg, s, top) {
      var polled := Tick(Tick(BeginPass(cfg, s, top), pass.dtBudget), pass.dt)
                    .(signal := Deliver(s.signal, pass.sends, pass.closes), events := Arrive(s.events, pass.arrivals));
      AfterPollGrows(cfg, polled, pass);
    }
  }

  lemma AfterPollGrows(cfg: Config, s: Loop, pass: PassIn)
    requires s.phase.Going?
    ensures var t := AfterPoll(cfg, s, pass); s.clock <= t.clock && |s.signal.applied| <= |t.signal.applied|
  {
    if PollPlans(cfg, s, pass) {
      assert AfterPoll(cfg, s, pass) == PlanAndSpawn(cfg, Tick(s, pass.dtAfter), pass.result.plan);
      PlanSlots(cfg, Tick(s, pass.dtAfter), pass.result.plan);
    }
  }

  lemma DeclaredIsCaused(cfg: Config, s: Loop, step: Iter)
    requires s.phase.Going? && s.drain.stop.None? && DeclaresDue(cfg, s, step, Iterate(cfg, s, step))
    ensures IsCaused(cfg, Iterate(cfg, s, step))
  {
    IterateGrows(cfg, s, step);
  }

  lemma {:induction false} RunIsCaused(cfg: Config, base: Loop, script: seq<Iter>)
    requires IsStart(base)
    ensures IsCaused(cfg, Run(cfg, base, script))
  {
    if script != [] {
      var init := script[..|script| - 1];
      var s, step := Run(cfg, base, init), script[|script| - 1];
      RunIsCaused(cfg, base, init);
      if s.drain.stop.Some? {
        StoppedStaysCaused(cfg, s, step);
      } else if s.phase.Going? {
        RunIsBookkept(cfg, base, init);
        IterateDeclares(cfg, base, s, step);
        DeclaredIsCaused(cfg, s, step);
      }
    }
  }

  /**
  Over every run: the run-budget stop stands only with the budget used up, the
  cycle stop only with exactly the bound of polls made, a shutdown only with an
  applied signal, and no other guard stops this loop.
   */
  lemma StopsHaveCauses(cfg: Config, base: Loop, script: seq<Iter>)
    requires IsStart(base)
    ensures HasCause(cfg, Run(cfg, base, script))
  {
    RunIsCaused(cfg, base, script);
    if cfg.maxCycles.Some? { CyclesAreBounded(cfg, base, script); }
    CauseIsExact(cfg, Run(cfg, base, script));
  }

  ghost predicate HasCause(cfg: Config, s: Loop)
  {
    && (s.drain.stop == Some(RunBudgetExhausted) ==> s.clock >= cfg.runBudget)
    && (s.drain.stop == Some(CycleBudget) ==> cfg.maxCycles == Some(s.counters.cycles))
    && (s.drain.stop == Some(Shutdown) ==> s.signal.applied != [])
    && s.drain.stop != Some(GuardrailsExhausted)
  }

  lemma CauseIsExact(cfg: Config, s: Loop)
    requires IsCaused(cfg, s) && (cfg.maxCycles.Some? ==> s.counters.cycles <= cfg.maxCycles.value)
    ensures HasCause(cfg, s)
  {
  }

  /** Iteration `k` of the run began without a stop and declared one, which was due. */
  ghost predicate DeclaredAt(cfg: Config, base: Loop, script: seq<Iter>, k: nat)
  {
    && k < |script|
    && var s, t := Run(cfg, base, script[..k]), Run(cfg, base, script[..k + 1]);
       s.phase.Going? && s.drain.stop.None? && t.drain.stop.Some? && DeclaresDue(cfg, s, script[k], t)
  }

  lemma LastDeclares(cfg: Config, base: Loop, script: seq<Iter>)
    requires IsStart(base) && script != [] && Run(cfg, base, script).drain.stop.Some?
    requires Run(cfg, base, script[..|script| - 1]).drain.stop.None?
    ensures DeclaredAt(cfg, base, script, |script| - 1)
  {
    var last := |script| - 1;
    assert script[..last + 1] == script;
    RunIsBookkept(cfg, base, script[..last]);
    var s := Run(cfg, base, script[..last]);
    assert s.phase.Going?;
    IterateDeclares(cfg, base, s, script[last]);
  }

  lemma StaysDeclared(cfg: Config, base: Loop, script: seq<Iter>, init: seq<Iter>, k: nat)
    requires init <= script && DeclaredAt(cfg, base, init, k)
    ensures DeclaredAt(cfg, base, script, k) && script[..k + 1] == init[..k + 1]
  {
    assert init[..k] == script[..k] && init[..k + 1] == script[..k + 1];
  }

  lemma LastKeepsStop(cfg: Config, base: Loop, script: seq<Iter>)
    requires script != [] && Run(cfg, base, script[..|script| - 1]).drain.stop.Some?
    ensures Run(cfg, base, script).drain.stop == Run(cfg, base, script[..|script| - 1]).drain.stop
  {
    StopIsFinal(cfg, Run(cfg, base, script[..|script| - 1]), script[|script| - 1]);
  }

  /** Every stop of a run was declared by one iteration that began without one, and was due in it. */
  lemma {:induction false} StopWasDeclared(cfg: Config, base: Loop, script: seq<Iter>) returns (k: nat)
    requires IsStart(base) && Run(cfg, base, script).drain.stop.Some?
    ensures DeclaredAt(cfg, base, script, k)
    ensures Run(cfg, base, script[..k + 1]).drain.stop == Run(cfg, base, script).drain.stop
  {
    var last := |script| - 1;
    var init := script[..last];
    if Run(cfg, base, init).drain.stop.Some? {
      k := StopWasDeclared(cfg, base, init);
      LastKeepsStop(cfg, base, script);
      StaysDeclared(cfg, base, script, init, k);
    } else {
      k := last;
      assert script[..last + 1] == script;
      LastDeclares(cfg, base, script);
    }
  }

  /** So a spend stop means that its iteration read a day's spend at or above the cap, in time. */
  lemma SpendStopRead(cfg: Config, base: Loop, script: seq<Iter>) returns (k: nat)
    requires IsStart(base) && Run(cfg, base, script).drain.stop == Some(SpendSoftCap)
    ensures DeclaredAt(cfg, base, script, k)
    ensures SpendIsUp(cfg, Run(cfg, base, script[..k]), script[k])
    ensures !BudgetIsUp(cfg, Run(cfg, base, script[..k]), script[k])
  {
    k := StopWasDeclared(cfg, base, script);
    SpendIsDue(cfg, Run(cfg, base, script[..k]), script[k], Run(cfg, base, script[..k + 1]));
  }

  lemma SpendIsDue(cfg: Config, s: Loop, step: Iter, t: Loop)
    requires DeclaresDue(cfg, s, step, t) && t.drain.stop == Some(SpendSoftCap)
    ensures SpendIsUp(cfg, s, step) && !BudgetIsUp(cfg, s, step)
  {
  }

  // ------------------------------------------------------------- what an abort names

  /** The reason is the run's stop, or a shutdown that preempted its drain. */
  ghost predicate NamesStop(s: Loop, reason: StopReason)
  {
    && s.drain.stop.Some?
    && (reason == s.drain.stop.value || (reason == Shutdown && s.signal.applied != []))
  }

  ghost predicate IntentIsNamed(s: Loop, intent: Option<Intent>)
  {
    intent.Some? && intent.value.Drain? ==> NamesStop(s, intent.value.reason)
  }

  /** Drain reason, slots and own rows name the stop. */
  ghost predicate AbortsAreNamed(b: nat, s: Loop)
  {
    && (s.drain.reason.Some? ==> NamesStop(s, s.drain.reason.value))
    && (forall k :: 0 <= k < |s.slots| ==> IntentIsNamed(s, s.slots[k].intent))
    && (forall i: nat :: OwnRow(b, s, i) && s.store.rows[i].detail.DrainAbort? ==>
          NamesStop(s, s.store.rows[i].detail.reason))
  }

  lemma ReapNames(cfg: Config, b: nat, s: Loop, i: nat, finish: Finish)
    requires AbortsAreNamed(b, s) && s.phase.Going? && i < |s.slots| && s.store.IsRunning(s.slots[i].run)
    ensures AbortsAreNamed(b, ReapAt(cfg, s, i, finish))
  {
    ReapEffect(cfg, s, i, finish);
    var t := ReapAt(cfg, s, i, finish);
    forall k | 0 <= k < |t.slots| ensures IntentIsNamed(t, t.slots[k].intent) {
      var from := if k < i then k else k + 1;
      assert t.slots[k] == s.slots[from] && IntentIsNamed(s, s.slots[from].intent);
    }
    forall j: nat | OwnRow(b, t, j) && t.store.rows[j].detail.DrainAbort?
      ensures NamesStop(t, t.store.rows[j].detail.reason)
    {
      if j == s.slots[i].run { assert IntentIsNamed(s, s.slots[i].intent); } else { assert OwnRow(b, s, j); }
    }
  }

  lemma KillNames(cfg: Config, b: nat, s: Loop, rule: KillRule, intent: Intent)
    requires AbortsAreNamed(b, s) && IntentIsNamed(s, Some(intent))
    ensures AbortsAreNamed(b, KillWhere(cfg, s, rule, intent))
  {
    var t := KillWhere(cfg, s, rule, intent);
    forall k | 0 <= k < |t.slots| ensures IntentIsNamed(t, t.slots[k].intent) {
      assert IntentIsNamed(s, s.slots[k].intent);
    }
    forall j: nat | OwnRow(b, t, j) && t.store.rows[j].detail.DrainAbort?
      ensures NamesStop(t, t.store.rows[j].detail.reason)
    {
      assert OwnRow(b, s, j);
    }
  }

  lemma BeatNames(cfg: Config, b: nat, s: Loop, j: nat, beat: nat)
    requires AbortsAreNamed(b, s) && s.phase.Going? && j < |s.slots|
    ensures AbortsAreNamed(b, BeatAt(cfg, s, j, beat))
  {
    var t := BeatAt(cfg, s, j, beat);
    forall k | 0 <= k < |t.slots| ensures IntentIsNamed(t, t.slots[k].intent) {
      assert IntentIsNamed(s, s.slots[k].intent);
    }
    forall i: nat | OwnRow(b, t, i) && t.store.rows[i].detail.DrainAbort?
      ensures NamesStop(t, t.store.rows[i].detail.reason)
    {
      assert OwnRow(b, s, i);
    }
  }

  lemma MicroNames(cfg: Config, base: Loop, s: Loop, m: Micro)
    requires Bookkept(cfg, base, s) && AbortsAreNamed(|base.store.rows|, s)
    requires m.Kill? ==> IntentIsNamed(s, Some(m.intent))
    ensures AbortsAreNamed(|base.store.rows|, Exec(cfg, s, m))
  {
    var b := |base.store.rows|;
    if s.phase.Going? {
      match m
      case ReapSlot(i, finish) =>
        if i < |s.slots| {
          BookkeptSlotsRun(cfg, base, s);
          ReapNames(cfg, b, s, i, finish);
        }
      case BeatSlot(j, beat) => if j < |s.slots| { BeatNames(cfg, b, s, j, beat); }
      case Kill(rule, intent) => KillNames(cfg, b, s, rule, intent);
      case Advance(dt) => SameNames(b, s, Tick(s, dt));
    }
  }

  lemma SameNames(b: nat, s: Loop, t: Loop)
    requires AbortsAreNamed(b, s) && t.store.rows == s.store.rows && t.slots == s.slots
    requires t.drain.stop == s.drain.stop && t.drain.reason == s.drain.reason
    requires |s.signal.applied| <= |t.signal.applied|
    ensures AbortsAreNamed(b, t)
  {
    forall k | 0 <= k < |t.slots| ensures IntentIsNamed(t, t.slots[k].intent) {
      assert IntentIsNamed(s, s.slots[k].intent);
    }
    forall i: nat | OwnRow(b, t, i) && t.store.rows[i].detail.DrainAbort?
      ensures NamesStop(t, t.store.rows[i].detail.reason)
    {
      assert OwnRow(b, s, i);
    }
  }

  lemma {:induction false} TraceNames(cfg: Config, base: Loop, s: Loop, trace: seq<Micro>, intents: set<Intent>)
    requires Bookkept(cfg, base, s) && AbortsAreNamed(|base.store.rows|, s) && KillsOnly(trace, intents)
    requires forall intent :: intent in intents ==> IntentIsNamed(s, Some(intent))
    ensures AbortsAreNamed(|base.store.rows|, ExecAll(cfg, s, trace))
    decreases |trace|
  {
    if trace != [] {
      var t := Exec(cfg, s, trace[0]);
      MicroNames(cfg, base, s, trace[0]);
      MicroKeeps(cfg, base, s, trace[0]);
      MicroFrame(cfg, s, trace[0]);
      forall intent | intent in intents ensures IntentIsNamed(t, Some(intent)) {
        assert IntentIsNamed(s, Some(intent));
      }
      TraceNames(cfg, base, t, trace[1..], intents);
    }
  }

  /** A stop declared where none stood finds no abort to name. */
  lemma DeclaredNames(b: nat, s: Loop, t: Loop)
    requires AbortsAreNamed(b, s) && s.drain.stop.None? && t.store.rows == s.store.rows && t.slots == s.slots
    requires t.drain.reason == t.drain.stop
    ensures AbortsAreNamed(b, t)
  {
    forall k | 0 <= k < |s.slots| ensures s.slots[k].intent.None? || !s.slots[k].intent.value.Drain? {
      assert IntentIsNamed(s, s.slots[k].intent);
    }
    forall i: nat | OwnRow(b, t, i) ensures !t.store.rows[i].detail.DrainAbort? {
      assert OwnRow(b, s, i);
    }
  }

  /** A planned row bears no abort. */
  lemma PlannedRowIsPlain(cfg: Config, s: Loop, plan: PlanIn)
    requires s.phase.Going?
    ensures var before, after := s.store.rows, PlanAndSpawn(cfg, s, plan).store.rows;
            || after == before
            || (|after| == |before| + 1 && after[..|before|] == before && !after[|before|].detail.DrainAbort?)
  {
    var now := NowSecs(cfg, s.clock);
    if Proceeds(cfg, s, now, plan.snapshot) {
      var gated := Gated(cfg, s, plan.snapshot);
      var snapshot := plan.snapshot.(ready := Retain(plan.snapshot.ready, Excluded(cfg, s, now)));
      var decision := Selection.CampaignDecision(snapshot, plan.consulted);
      var recorded := gated.(decisions := gated.decisions + [decision],
                             events := DrainEvents(Arrive(gated.events, plan.arrivals), Peeked(cfg, s)));
      if decision.Selected? { SpawnEffect(cfg, recorded, decision, plan.start); }
    }
  }

  lemma PlanNames(cfg: Config, b: nat, s: Loop, plan: PlanIn)
    requires AbortsAreNamed(b, s) && s.phase.Going?
    ensures AbortsAreNamed(b, PlanAndSpawn(cfg, s, plan))
  {
    PlanSlots(cfg, s, plan);
    PlannedRowIsPlain(cfg, s, plan);
    AppendedNames(b, s, PlanAndSpawn(cfg, s, plan));
  }

  lemma AppendedNames(b: nat, s: Loop, t: Loop)
    requires AbortsAreNamed(b, s) && t.drain == s.drain && t.signal == s.signal
    requires || t.store.rows == s.store.rows
             || (|t.store.rows| == |s.store.rows| + 1 && t.store.rows[..|s.store.rows|] == s.store.rows
                 && !t.store.rows[|s.store.rows|].detail.DrainAbort?)
    requires t.slots == s.slots || (t.slots != [] && t.slots == s.slots + [t.slots[|t.slots| - 1]]
                                    && t.slots[|t.slots| - 1].intent.None?)
    ensures AbortsAreNamed(b, t)
  {
    forall k | 0 <= k < |t.slots| ensures IntentIsNamed(t, t.slots[k].intent) {
      if k < |s.slots| { assert IntentIsNamed(s, s.slots[k].intent); }
    }
    forall i: nat | OwnRow(b, t, i) && t.store.rows[i].detail.DrainAbort?
      ensures NamesStop(t, t.store.rows[i].detail.reason)
    {
      assert i < |s.store.rows| && t.store.rows[i] == t.store.rows[..|s.store.rows|][i] && OwnRow(b, s, i);
    }
  }

  lemma AfterPollNames(cfg: Config, b: nat, s: Loop, pass: PassIn)
    requires AbortsAreNamed(b, s) && s.phase.Going? && s.drain.stop.None?
    ensures AbortsAreNamed(b, AfterPoll(cfg, s, pass))
  {
    var later, t := Tick(s, pass.dtAfter), AfterPoll(cfg, s, pass);
    SameNames(b, s, later);
    if PollPlans(cfg, s, pass) {
      assert t == PlanAndSpawn(cfg, later, pass.result.plan);
      PlanNames(cfg, b, later, pass.result.plan);
    } else if pass.result.PollError? {
      SameNames(b, s, t);
    } else {
      DeclaredNames(b, s, t);
    }
  }

  lemma PassNames(cfg: Config, b: nat, s: Loop, top: nat, pass: PassIn)
    requires AbortsAreNamed(b, s) && s.phase.Going? && s.drain.stop.None?
    ensures AbortsAreNamed(b, Pass(cfg, s, top, pass))
  {
    if !PassGated(cfg, s, top) {
      var begun := Tick(BeginPass(cfg, s, top), pass.dtBudget);
      var polled := Tick(begun, pass.dt)
                    .(signal := Deliver(s.signal, pass.sends, pass.closes), events := Arrive(s.events, pass.arrivals));
      var t := Pass(cfg, s, top, pass);
      SameNames(b, s, polled);
      if (pass.signalFirst && polled.signal.sends > polled.signal.cloneSeen)
         || (pass.budgetFirst && begun.clock <= cfg.runBudget <= polled.clock) {
        DeclaredNames(b, s, t);
      } else {
        assert t == AfterPoll(cfg, polled, pass);
        AfterPollNames(cfg, b, polled, pass);
      }
    }
  }

  lemma DrainNames(cfg: Config, base: Loop, s: Loop, top: nat, step: Iter)
    requires Bookkept(cfg, base, s) && AbortsAreNamed(|base.store.rows|, s) && s.phase.Going? && s.drain.stop.Some?
    ensures AbortsAreNamed(|base.store.rows|, Guards(cfg, s, top, step))
  {
    var trace := DrainIsTrace(cfg, s, step.drain);
    TraceNames(cfg, base, s, trace, {DrainIntent(s)});
    DrainEndsNamed(cfg, s, top, step);
    SameNames(|base.store.rows|, DrainSweep(cfg, s, step.drain), Guards(cfg, s, top, step));
  }

  lemma DrainEndsNamed(cfg: Config, s: Loop, top: nat, step: Iter)
    requires s.drain.stop.Some?
    ensures var swept, t := DrainSweep(cfg, s, step.drain), Guards(cfg, s, top, step);
            && t.store == swept.store && t.slots == swept.slots && t.signal == swept.signal
            && t.drain.stop == swept.drain.stop && t.drain.reason == swept.drain.reason
  {
  }

  lemma GuardsName(cfg: Config, base: Loop, s: Loop, top: nat, step: Iter)
    requires Bookkept(cfg, base, s) && AbortsAreNamed(|base.store.rows|, s) && s.phase.Going?
    ensures AbortsAreNamed(|base.store.rows|, Guards(cfg, s, top, step))
  {
    var t := Guards(cfg, s, top, step);
    if s.drain.stop.Some? {
      DrainNames(cfg, base, s, top, step);
    } else if top >= cfg.runBudget || s.store.DailySpend(NowSecs(cfg, top)) >= cfg.spendCap || CyclesAreUp(cfg, s) {
      DeclaredNames(|base.store.rows|, s, t);
    } else {
      assert t == Pass(cfg, s, top, step.pass);
      PassNames(cfg, |base.store.rows|, s, top, step.pass);
    }
  }

  lemma WaitNames(cfg: Config, b: nat, s: Loop, step: WaitIn)
    requires AbortsAreNamed(b, s)
    ensures AbortsAreNamed(b, Wait(cfg, s, step))
  {
    var t := Wait(cfg, s, step);
    if s.drain.stop.None? {
      if t.drain.stop.None? { SameNames(b, s, t); } else { DeclaredNames(b, s, t); }
    } else {
      SameNames(b, s, t.(drain := s.drain));
      PreemptedNames(b, t.(drain := s.drain), t);
    }
  }

  /** A shutdown may take over the drain reason. */
  lemma PreemptedNames(b: nat, s: Loop, t: Loop)
    requires AbortsAreNamed(b, s) && t == s.(drain := t.drain) && t.drain.stop == s.drain.stop && t.drain.stop.Some?
    requires t.drain.reason == s.drain.reason || (t.drain.reason == Some(Shutdown) && t.signal.applied != [])
    ensures AbortsAreNamed(b, t)
  {
    forall k | 0 <= k < |t.slots| ensures IntentIsNamed(t, t.slots[k].intent) {
      assert IntentIsNamed(s, s.slots[k].intent);
    }
    forall i: nat | OwnRow(b, t, i) && t.store.rows[i].detail.DrainAbort?
      ensures NamesStop(t, t.store.rows[i].detail.reason)
    {
      assert OwnRow(b, s, i);
    }
  }

  lemma IterateNames(cfg: Config, base: Loop, s: Loop, step: Iter)
    requires Bookkept(cfg, base, s) && AbortsAreNamed(|base.store.rows|, s)
    ensures AbortsAreNamed(|base.store.rows|, Iterate(cfg, s, step))
  {
    if s.phase.Going? {
      var b, top := |base.store.rows|, Tick(s, step.dtTop);
      SameNames(b, s, top);
      TickIsBookkept(cfg, base, s, step.dtTop);
      var trace := SuperviseIsTrace(cfg, top, step.supervise);
      TraceNames(cfg, base, top, trace, {Stall, WorkerTimeout});
      var u := Found(cfg, s, step);
      FoundIsFramed(cfg, base, s, step, u);
      var g := Guards(cfg, u, TopOf(s, step), step);
      GuardsName(cfg, base, u, TopOf(s, step), step);
      IterateFromFound(cfg, s, step, u, g);
      WaitNames(cfg, b, g, step.wait);
    }
  }

  /**
  Over every run: a worker that is being drained, and a row recorded as a drain
  abort, names the run's stop reason, or a shutdown that a signal really asked for.
   */
  lemma {:induction false} AbortsNameTheStop(cfg: Config, base: Loop, script: seq<Iter>)
    requires IsStart(base)
    ensures AbortsAreNamed(|base.store.rows|, Run(cfg, base, script))
  {
    if script != [] {
      var init := script[..|script| - 1];
      AbortsNameTheStop(cfg, base, init);
      RunIsBookkept(cfg, base, init);
      IterateNames(cfg, base, Run(cfg, base, init), script[|script| - 1]);
    }
  }

  /** What a drain of a run tells its workers: a shutdown once a signal was applied, and the stop reason before. */
  lemma DrainTellsTheReason(cfg: Config, base: Loop, script: seq<Iter>)
    requires IsStart(base) && Run(cfg, base, script).drain.stop.Some?
    ensures var s := Run(cfg, base, script);
            DrainIntent(s) == Drain(if s.signal.applied != [] then Shutdown else s.drain.stop.value)
  {
    RunSignalled(cfg, base, script);
    AbortsNameTheStop(cfg, base, script);
    IntentTells(cfg, base.signal.mainSeen, |base.store.rows|, Run(cfg, base, script));
  }

  lemma IntentTells(cfg: Config, seen: nat, b: nat, s: Loop)
    requires Signalled(cfg, seen, s) && AbortsAreNamed(b, s) && s.drain.stop.Some?
    ensures DrainIntent(s) == Drain(if s.signal.applied != [] then Shutdown else s.drain.stop.value)
  {
  }

  /**
  A drain step waits for its deadline: before it, with a worker left, only the
  clock moves; and at it the grace window restarts exactly when a worker is left.
   */
  lemma DrainStepExactly(cfg: Config, s: Loop, step: DrainIn)
    requires s.phase.Going?
    ensures var t, now := DrainStep(cfg, s, step), s.clock + step.dt;
            && (s.slots != [] && (s.drain.deadline.Unbounded? || now < s.drain.deadline.time) ==> t == s.(clock := now))
            && (s.slots == [] || (s.drain.deadline.At? && s.drain.deadline.time <= now) ==>
                  t.drain == if t.phase.Going? && t.slots != []
                             then s.drain.(deadline := At(now + cfg.shutdownBudget)) else s.drain)
  {
    var now := Tick(s, step.dt);
    var killed := KillWhere(cfg, now, Everything, DrainIntent(now));
    var trace := ReapIsTrace(cfg, killed, 0, step.reaped);
    TraceFrame(cfg, killed, trace);
  }

  /** A signal that preempts another drain never gives it more time, and is the earlier of the two deadlines. */
  lemma PreemptionNeverExtends(cfg: Config, s: Loop)
    requires s.drain.stop.Some? && s.drain.stop != Some(Shutdown)
    ensures var t, grace := ApplySignal(cfg, s), s.clock + cfg.shutdownBudget;
            && t.drain.deadline.At? && t.drain.deadline.time <= grace
            && (s.drain.deadline.At? ==> t.drain.deadline.time <= s.drain.deadline.time)
            && (t.drain.deadline == s.drain.deadline || t.drain.deadline == At(grace))
  {
  }

  /** A drain step at its deadline writes exactly that into every slot that had no intent. */
  lemma DrainStepTells(cfg: Config, s: Loop, step: DrainIn, slot: Slot)
    requires SlotsRun(s) && s.phase.Going? && (s.slots == [] || Reached(s.drain.deadline, s.clock + step.dt))
    requires slot in DrainStep(cfg, s, step).slots
    ensures exists k :: 0 <= k < |s.slots| && slot.run == s.slots[k].run
                        && slot.intent == if s.slots[k].intent.Some? then s.slots[k].intent else Some(DrainIntent(s))
  {
    var now := Tick(s, step.dt);
    var killed := KillWhere(cfg, now, Everything, DrainIntent(now));
    ReapFilters(cfg, killed, 0, step.reaped);
    assert slot in killed.slots;
    var k :| 0 <= k < |killed.slots| && killed.slots[k] == slot;
    assert slot.run == s.slots[k].run;
  }
}

/**
The loop runner as an object. Every method updates the fields the way the
supervisor does, step by step, and is proved to move the abstract state
exactly as the machine in `LoopModel` says, so that everything proved about
runs of the machine holds of the object.
 */
module LoopRunner {
  import opened Wrappers
  import opened RunState
  import opened Selection
  import opened Kickoff
  import opened LoopModel
  import LoopBookkeeping
  import LoopExit
  import LoopStops
  import LoopSignals

  /** Why a guard holds a task back. */
  datatype SkipReason = AttemptBudget | Backoff

  class Runner {
    const cfg: Config
    const runs: LoopRunStore
    var decisions: seq<Decision>
    var slots: seq<Slot>
    var counters: Counters
    var gate: Gate
    var events: EventQueue
    var drain: DrainState
    var signal: Channel
    var clock: nat
    var phase: Phase

    ghost function View(): Loop
      reads this, runs
    {
      Loop(runs.View(), decisions, slots, counters, gate, events, drain, signal, clock, phase)
    }

    constructor (cfg: Config, runs: LoopRunStore, decisions: seq<Decision>, events: EventQueue,
                 previousDay: Option<nat>, unseen: nat)
      ensures this.cfg == cfg && this.runs == runs
      ensures View() == InitialLoop(runs.View(), decisions, events, previousDay, unseen)
    {
      this.cfg, this.runs, this.decisions, this.events := cfg, runs, decisions, events;
      slots, counters := [], NO_COUNTS;
      gate := Gate(0, 0, 0, {}, {}, false, previousDay);
      drain := DrainState(None, None, Unbounded);
      signal := Channel(unseen, false, 0, 0, false, []);
      clock, phase := 0, Going;
    }

    // ------------------------------------------------------------ supervision

    /** Marks and aborts, in slot order, every slot the rule hits. */
    method KillWhere(rule: KillRule, intent: Intent)
      modifies this`slots
      ensures View() == LoopModel.KillWhere(cfg, old(View()), rule, intent)
    {
      ghost var before := slots;
      for i := 0 to |slots|
        invariant |slots| == |before|
        invariant forall k :: 0 <= k < i ==> slots[k] == Killed(cfg, rule, intent, before[k], clock)
        invariant forall k :: i <= k < |slots| ==> slots[k] == before[k]
      {
        var slot := slots[i];
        var hit := match rule
          case Stale => SaturatingSub(clock, slot.lastBeat) >= cfg.stallTimeout
          case Overdue => SaturatingSub(clock, slot.started) >= cfg.workerTimeout
          case Everything => true;
        if slot.intent.None? && hit {
          slots := slots[i := slot.(intent := Some(intent), aborted := true)];
        }
      }
      assert slots == LoopModel.KillWhere(cfg, old(View()), rule, intent).slots;
    }

    /** The retry bookkeeping of one outcome; returns the status to write, `Stuck` when the budget is used up. */
    method RecordTaskOutcome(task: string, status: RunStatus, noProgress: bool, now: nat) returns (written: RunStatus)
      modifies runs
      ensures runs.View() == RecordOutcome(cfg, old(runs.View()), task, status, noProgress, now)
      ensures written == FinalStatus(cfg, runs.View(), task, status)
    {
      written := status;
      if status.Completed? {
        runs.RecordTaskSuccess(task);
      } else if status.Failed? || status.Stalled? || status.TimedOut? {
        var until := if cfg.taskRetryBackoff == 0 then None else Some(now + BackoffSecs(cfg));
        runs.RecordTaskFailure(task, noProgress, until);
        if cfg.maxTaskAttempts > 0 && task in runs.retry && runs.retry[task].attempts >= cfg.maxTaskAttempts {
          written := Stuck;
        }
      }
    }

    /** Records an outcome, finishes the row and counts it; a rejected write is fatal. */
    method SettleRun(run: nat, task: string, status: RunStatus, detail: Detail, noProgress: bool, spend: nat, now: nat)
      requires IsTerminal(status)
      modifies this`counters, this`phase, runs
      ensures View() == Settle(cfg, old(View()), run, task, status, detail, noProgress, spend, now)
    {
      var written := RecordTaskOutcome(task, status, noProgress, now);
      FinishRun(run, written, detail, spend, now);
    }

    method FinishRun(run: nat, written: RunStatus, detail: Detail, spend: nat, now: nat)
      requires IsTerminal(written)
      modifies this`counters, this`phase, runs
      ensures View() == if old(View()).store.IsRunning(run)
                        then old(View()).(store := old(View()).store.Finish(run, written, now, spend, detail),
                                          counters := Note(old(View()).counters, written))
                        else old(View()).(phase := Fatal(StoreRejected))
    {
      var ok := runs.Finish(run, written, now, spend, detail);
      if ok { counters := Note(counters, written); } else { phase := Fatal(StoreRejected); }
    }

    /** A natural result stands; a cancellation is attributed to the slot's intent. */
    method ReadOutcome(outcome: WorkerOutcome, intent: Option<Intent>) returns (status: RunStatus, detail: Detail)
      ensures (status, detail) == Arbitrate(outcome, intent) && IsTerminal(status)
      ensures outcome.Ran? ==> (status.Completed? <==> outcome.completed)
    {
      match outcome {
        case Ran(completed, _, _) =>
          status, detail := Failed, TypedFailure;
          if completed { status, detail := Completed, NaturalCompletion; }
        case Unusable => status, detail := Failed, LoopUnusable;
        case Panicked => status, detail := Failed, WorkerPanicked;
        case Cancelled =>
          match intent {
            case Some(Stall) => status, detail := Stalled, StallTimeout;
            case Some(WorkerTimeout) => status, detail := TimedOut, WorkerTimeoutKill;
            case Some(Drain(reason)) => status, detail := AbortedShutdown, DrainAbort(reason);
            case Some(Drained) => status, detail := AbortedShutdown, UnattributedDrainAbort;
            case None => status, detail := Failed, AbortedWithoutIntent;
          }
      }
    }

    /** Takes the slot out, reads its handle's result and settles the run. */
    method ReapOne(i: nat, finish: Finish)
      requires i < |slots| && phase.Going?
      modifies this, runs
      ensures View() == ReapAt(cfg, old(View()), i, finish)
    {
      var slot := slots[i];
      slots := slots[..i] + slots[i + 1..];
      clock := clock + finish.dt;
      ghost var taken := old(View()).(slots := WithoutSlot(old(slots), i), clock := clock);
      assert View() == taken;
      var status, detail := ReadOutcome(finish.outcome, slot.intent);
      SettleRun(slot.run, slot.task, status, detail, NoProgress(finish.outcome), SpendOf(finish.outcome),
                NowSecs(cfg, clock));
      assert View() == Settle(cfg, taken, slot.run, slot.task, status, detail, NoProgress(finish.outcome),
                              SpendOf(finish.outcome), NowSecs(cfg, taken.clock));
      if phase.Going? { gate := gate.(slotReleased := true); }
    }

    /** Walks the slots once; a reaped slot's successor moves into its place. */
    method ReapFinished(finished: map<nat, Finish>)
      requires phase.Going?
      modifies this, runs
      ensures View() == Reap(cfg, old(View()), finished)
    {
      var i := 0;
      while phase.Going? && i < |slots|
        invariant ReapFrom(cfg, View(), i, finished) == Reap(cfg, old(View()), finished)
        decreases |slots| - i
      {
        if IsFinished(slots[i], finished) {
          ReapOne(i, finished[slots[i].run]);
        } else {
          i := i + 1;
        }
      }
    }

    /** Takes every fresh beat and persists it; a beat for a row that is not running is fatal. */
    method ObserveBeats(beats: map<nat, nat>)
      requires phase.Going?
      modifies this`slots, this`phase, runs
      ensures View() == BeatFrom(cfg, old(View()), 0, beats)
    {
      var i := 0;
      while phase.Going? && i < |slots|
        invariant i <= |slots|
        invariant BeatFrom(cfg, View(), i, beats) == BeatFrom(cfg, old(View()), 0, beats)
        decreases |slots| - i
      {
        var slot := slots[i];
        if slot.run in beats {
          slots := slots[i := slot.(lastBeat := clock)];
          var ok := runs.Heartbeat(slot.run, beats[slot.run], NowSecs(cfg, clock));
          if !ok { phase := Fatal(StoreRejected); }
        }
        i := i + 1;
      }
    }

    /** The stall sweep, then the worker-timeout sweep, each at its own reading of the clock. */
    method SweepOverdue(step: SuperviseIn)
      modifies this`slots, this`clock
      ensures View() == KillSweeps(cfg, old(View()), step)
    {
      clock := clock + step.dtStall;
      KillWhere(Stale, Stall);
      clock := clock + step.dtTimeout;
      KillWhere(Overdue, WorkerTimeout);
    }

    method Supervise(step: SuperviseIn)
      requires phase.Going?
      modifies this, runs
      ensures View() == LoopModel.Supervise(cfg, old(View()), step)
    {
      ReapFinished(step.before);
      if !phase.Going? { return; }
      clock := clock + step.dtBeats;
      ObserveBeats(step.beats);
      if !phase.Going? { return; }
      SweepOverdue(step);
      ReapFinished(step.after);
    }

    method DrainStep(step: DrainIn)
      requires phase.Going?
      modifies this, runs
      ensures View() == LoopModel.DrainStep(cfg, old(View()), step)
    {
      clock := clock + step.dt;
      var elapsed := clock;
      if slots == [] || (drain.deadline.At? && elapsed >= drain.deadline.time) {
        KillWhere(Everything, if drain.reason.Some? then Drain(drain.reason.value) else Drained);
        ReapFinished(step.reaped);
        if phase.Going? && slots != [] { drain := drain.(deadline := At(elapsed + cfg.shutdownBudget)); }
      }
    }

    // ---------------------------------------------------------------- signals

    method ApplySignal()
      modifies this`drain, this`signal
      ensures View() == LoopModel.ApplySignal(cfg, old(View()))
      ensures drain.stop == if old(drain.stop).Some? then old(drain.stop) else Some(Shutdown)
      ensures drain.deadline.At? && drain.deadline.time <= clock + cfg.shutdownBudget
      ensures signal.mainSeen == signal.sends && |signal.applied| == |old(signal.applied)| + 1
    {
      var grace := clock + cfg.shutdownBudget;
      var second := false;
      match drain.stop {
        case Some(Shutdown) =>
          drain := drain.(deadline := At(clock));
          second := true;
        case Some(_) =>
          if drain.reason.Some? { drain := drain.(reason := Some(Shutdown)); }
          if !(drain.deadline.At? && drain.deadline.time <= grace) { drain := drain.(deadline := At(grace)); }
        case None =>
          drain := DrainState(Some(Shutdown), Some(Shutdown), At(grace));
      }
      signal := signal.(mainSeen := signal.sends, applied := signal.applied + [Applied(clock, second)]);
    }

    method WaitTick(step: WaitIn)
      modifies this
      ensures View() == Wait(cfg, old(View()), step)
      ensures clock == old(clock) + step.dt && slots == old(slots)
      ensures old(drain.stop).Some? ==> drain.stop == old(drain.stop)
      ensures old(drain.stop).None? && drain.stop.Some? ==> drain.stop == Some(Shutdown) && signal.applied != []
    {
      clock := clock + step.dt;
      signal := Deliver(signal, step.sends, step.closes);
      if !signal.sourceGone && step.channelFirst {
        if signal.sends > signal.mainSeen { ApplySignal(); }
        else if signal.closed { signal := signal.(sourceGone := true); }
      }
    }

    // --------------------------------------------------------------- planning

    /** The budget is named before the backoff. */
    function ReasonFor(retry: Retry): SkipReason { if OverBudget(cfg, retry) then AttemptBudget else Backoff }

    /** In-flight and already-run tasks, then tasks a cross-invocation guard holds back, each with its reason. */
    method ExcludedTasks(now: nat) returns (excluded: set<string>, skips: map<string, SkipReason>)
      ensures excluded == Excluded(cfg, View(), now) && skips.Keys == GuardSkips(cfg, View(), now)
      ensures forall task :: task in skips ==> task in runs.retry && skips[task] == ReasonFor(runs.retry[task])
    {
      var busy := BusyLoop();
      skips := HeldBack(runs.retry, busy, now);
      excluded := busy + skips.Keys;
    }

    /** Reads every retry entry once and keeps the tasks over budget or inside a backoff window. */
    method HeldBack(retry: map<string, Retry>, busy: set<string>, now: nat) returns (skips: map<string, SkipReason>)
      ensures forall task :: task in skips <==>
                task in retry && task !in busy && (OverBudget(cfg, retry[task]) || InBackoff(cfg, retry[task], now))
      ensures forall task :: task in skips ==> task in retry && skips[task] == ReasonFor(retry[task])
    {
      skips := map[];
      var left := retry.Keys;
      while left != {}
        invariant left <= retry.Keys
        invariant forall task :: task in skips <==>
                    && task in retry && task !in left && task !in busy
                    && (OverBudget(cfg, retry[task]) || InBackoff(cfg, retry[task], now))
        invariant forall task :: task in skips ==> task in retry && skips[task] == ReasonFor(retry[task])
        decreases |left|
      {
        var task :| task in left;
        left := left - {task};
        if task !in busy {
          if OverBudget(cfg, retry[task]) {
            skips := skips[task := AttemptBudget];
          } else if InBackoff(cfg, retry[task], now) {
            skips := skips[task := Backoff];
          }
        }
      }
    }

    method BusyLoop() returns (busy: set<string>)
      ensures busy == BusyTasks(cfg, View())
    {
      busy := {};
      for i := 0 to |slots|
        invariant busy == set k | 0 <= k < i :: slots[k].task
      {
        busy := busy + {slots[i].task};
      }
      ghost var inFlight := busy;
      for i := 0 to |runs.rows|
        invariant busy == inFlight
                          + set k | 0 <= k < i && runs.rows[k].invocation == cfg.invocation :: runs.rows[k].task
      {
        if runs.rows[i].invocation == cfg.invocation { busy := busy + {runs.rows[i].task}; }
      }
    }

    /** Schedules the next pass after one that spawned nothing. */
    method PaceNoSpawn()
      modifies this`gate
      ensures View() == Pace(cfg, old(View()))
    {
      var delay := BackoffDelay(cfg, gate.backoffIndex);
      gate := gate.(nextPass := clock + delay, backoffIndex := gate.backoffIndex + 1);
    }

    /** Compares the board with the last one, remembers this one, and decides whether to plan. */
    method KickoffGate(snapshot: BoardSnapshot, excluded: set<string>) returns (proceeds: bool, peeked: set<nat>)
      requires excluded == Excluded(cfg, View(), NowSecs(cfg, clock))
      modifies this`gate
      ensures View() == old(View()).(gate := Remember(cfg, old(View()), NowSecs(cfg, clock), snapshot))
      ensures proceeds == Proceeds(cfg, old(View()), NowSecs(cfg, clock), snapshot)
      ensures peeked == Peeked(cfg, old(View()))
      ensures gate.previousReady == TasksOf(snapshot.ready) - excluded
      ensures gate.previousBlocked == TasksOf(snapshot.blocked)
      ensures !gate.slotReleased && gate.lastPassDay == Some(DayStart(NowSecs(cfg, clock)))
    {
      var now := NowSecs(cfg, clock);
      var inFlight := slots != [];
      peeked := if cfg.kickoff.externalEvent && !inFlight then events.pending else {};
      var day := DayStart(now);
      var reset := gate.lastPassDay.Some? && gate.lastPassDay.value != day;
      var ready := TasksOf(snapshot.ready) - excluded;
      var observation := KickoffObservation(ready, gate.previousReady, gate.previousBlocked, gate.slotReleased,
                                            reset, peeked);
      var fired := Evaluate(cfg.kickoff, observation);
      gate := gate.(previousReady := ready, previousBlocked := TasksOf(snapshot.blocked), slotReleased := false,
                    lastPassDay := Some(day));
      proceeds := inFlight || fired != [];
    }

    /** A spawn failure is a task outcome: its row is settled and only the attempted task stays remembered. */
    method FailSpawn(run: nat, task: string, dt: nat)
      modifies this, runs
      ensures View() == var settled := Settle(cfg, old(View()), run, task, Failed, SpawnMessage, false, 0,
                                              NowSecs(cfg, old(clock)));
                        if !settled.phase.Going? then settled
                        else Pace(cfg, Tick(settled.(gate := settled.gate.(previousReady := {task})), dt))
    {
      SettleRun(run, task, Failed, SpawnMessage, false, 0, NowSecs(cfg, clock));
      if phase.Going? {
        gate := gate.(previousReady := {task});
        clock := clock + dt;
        PaceNoSpawn();
      }
    }

    /** The selected task gets its row, then its worker. */
    method SpawnSelected(decision: Decision, start: StartIn)
      requires decision.Selected? && decisions != [] && phase.Going?
      modifies this, runs
      ensures View() == Spawn(cfg, old(View()), decision, start)
    {
      var now := NowSecs(cfg, clock);
      var run := runs.Start(StartRun(cfg.invocation, |decisions| - 1, decision.task, decision.item.repo,
                                     decision.item.number, now));
      match start {
        case Started =>
          slots := slots + [Slot(run, decision.task, clock, clock, None, false)];
          counters := counters.(spawns := counters.spawns + 1);
          gate := gate.(backoffIndex := 0, nextPass := clock);
        case SpawnFailed(dt) =>
          FailSpawn(run, decision.task, dt);
        case StarterError =>
          phase := Fatal(StarterFailed);
      }
    }

    /** Keeps the ready items no exclusion covers, in order. */
    method RetainReady(items: seq<ReadyItem>, excluded: set<string>) returns (kept: seq<ReadyItem>)
      ensures kept == Retain(items, excluded)
    {
      kept := [];
      for i := 0 to |items|
        invariant kept == Retain(items[..i], excluded)
      {
        if ItemTask(items[i]) !in excluded { kept := kept + [items[i]]; }
        assert items[..i + 1][..i] == items[..i];
      }
      assert items[..|items|] == items;
    }

    /** The gate let the pass through: plan, record, drain what was peeked, spawn or pace. */
    method PlanPass(excluded: set<string>, peeked: set<nat>, plan: PlanIn)
      requires phase.Going?
      modifies this, runs
      ensures View() == Plan(cfg, old(View()), excluded, peeked, plan)
    {
      var ready := RetainReady(plan.snapshot.ready, excluded);
      var decision := CampaignDecision(plan.snapshot.(ready := ready), plan.consulted);
      decisions := decisions + [decision];
      events := DrainEvents(Arrive(events, plan.arrivals), peeked);
      if decision.Selected? { SpawnSelected(decision, plan.start); } else { PaceNoSpawn(); }
    }

    /** The kickoff gate held the pass back: one decision record and the pace of a pass that spawned nothing. */
    method SkipPass()
      modifies this`decisions, this`gate
      ensures View() == RecordKickoffSkip(cfg, old(View()))
    {
      decisions := decisions + [NoOp(NoOpReason.KickoffGate)];
      PaceNoSpawn();
    }

    method PlanAndSpawn(plan: PlanIn)
      requires phase.Going?
      modifies this, runs
      ensures View() == LoopModel.PlanAndSpawn(cfg, old(View()), plan)
    {
      var excluded, skips := ExcludedTasks(NowSecs(cfg, clock));
      var proceeds, peeked := KickoffGate(plan.snapshot, excluded);
      counters := counters.(taskBudgetSkips := counters.taskBudgetSkips + |skips.Keys|);
      assert View() == Gated(cfg, old(View()), plan.snapshot);
      if proceeds {
        PlanPass(excluded, peeked, plan);
      } else {
        SkipPass();
      }
    }

    // ----------------------------------------------------------------- passes

    method DeclareStop(reason: StopReason, deadline: Deadline)
      modifies this`drain
      ensures View() == Declare(old(View()), reason, deadline)
    {
      drain := DrainState(Some(reason), Some(reason), deadline);
    }

    /** Declares the shutdown a pass observed and advances the main receiver with it. */
    method DeclareShutdown(marksClone: bool)
      modifies this`drain, this`signal
      ensures View() == ShutdownFromPass(cfg, old(View()), marksClone)
    {
      if marksClone { signal := signal.(cloneSeen := signal.sends); }
      DeclareStop(Shutdown, At(clock + cfg.shutdownBudget));
      signal := signal.(mainSeen := signal.sends, applied := signal.applied + [Applied(clock, false)]);
    }

    method CountPollFailure()
      modifies this`counters, this`gate
      ensures var failures := old(counters).pollFailures + 1;
              View() == Pace(cfg, old(View()).(counters := old(counters).(pollFailures := failures)))
    {
      counters := counters.(pollFailures := counters.pollFailures + 1);
      PaceNoSpawn();
    }

    method FinishPoll(pass: PassIn)
      requires phase.Going?
      modifies this, runs
      ensures View() == AfterPoll(cfg, old(View()), pass)
    {
      var polledAt := clock;
      clock := clock + pass.dtAfter;
      ghost var later := Tick(old(View()), pass.dtAfter);
      assert View() == later;
      if pass.result.PollError? {
        CountPollFailure();
      } else if polledAt >= cfg.runBudget {
        DeclareStop(RunBudgetExhausted, At(clock + cfg.shutdownBudget));
      } else if !signal.closed && signal.sends > signal.cloneSeen {
        DeclareShutdown(false);
      } else {
        assert AfterPoll(cfg, old(View()), pass) == LoopModel.PlanAndSpawn(cfg, later, pass.result.plan);
        PlanAndSpawn(pass.result.plan);
      }
    }

    /** Counts the poll and arms the next poll window. */
    method OpenPoll(top: nat, pass: PassIn) returns (begun: nat)
      modifies this
      ensures begun == Tick(BeginPass(cfg, old(View()), top), pass.dtBudget).clock
      ensures View() == Tick(Tick(BeginPass(cfg, old(View()), top), pass.dtBudget), pass.dt)
                        .(signal := Deliver(old(signal), pass.sends, pass.closes),
                          events := Arrive(old(events), pass.arrivals))
    {
      var interval := if cfg.minPollInterval.Some? then cfg.minPollInterval.value else 0;
      counters := counters.(cycles := counters.cycles + 1);
      gate := gate.(nextPoll := Max(gate.nextPoll, top) + interval);
      clock := clock + pass.dtBudget;
      begun := clock;
      clock := clock + pass.dt;
      signal := Deliver(signal, pass.sends, pass.closes);
      events := Arrive(events, pass.arrivals);
    }

    method Pass(top: nat, pass: PassIn)
      requires phase.Going?
      modifies this, runs
      ensures View() == LoopModel.Pass(cfg, old(View()), top, pass)
    {
      if |slots| >= cfg.maxWorkers || top < gate.nextPass || top < gate.nextPoll { return; }
      var begun := OpenPoll(top, pass);
      if pass.signalFirst && signal.sends > signal.cloneSeen {
        clock := clock + pass.dtAfter;
        DeclareShutdown(true);
      } else if pass.budgetFirst && begun <= cfg.runBudget <= clock {
        clock := clock + pass.dtAfter;
        DeclareStop(RunBudgetExhausted, At(clock + cfg.shutdownBudget));
      } else {
        FinishPoll(pass);
      }
    }

    // --------------------------------------------------------------- the loop

    /** The guard table of one iteration, in arbitration order. */
    method CheckGuards(top: nat, step: Iter)
      requires phase.Going?
      modifies this, runs
      ensures View() == Guards(cfg, old(View()), top, step)
      ensures old(drain.stop).Some? ==> drain.stop == old(drain.stop) && |runs.rows| == |old(runs.rows)|
      ensures phase.Exited? ==> slots == [] && drain.stop.Some?
      ensures old(drain.stop).None? && top >= cfg.runBudget ==> drain.stop == Some(RunBudgetExhausted)
      ensures old(drain.stop).None? && drain.stop == Some(RunBudgetExhausted) ==>
                top >= cfg.runBudget || clock >= cfg.runBudget
      ensures old(drain.stop).None? && drain.stop == Some(SpendSoftCap) ==>
                top < cfg.runBudget && old(runs.View()).DailySpend(NowSecs(cfg, top)) >= cfg.spendCap
      ensures old(drain.stop).None? && drain.stop == Some(CycleBudget) ==>
                top < cfg.runBudget && cfg.maxCycles.Some? && old(counters).cycles >= cfg.maxCycles.value
    {
      LoopExit.GuardsExit(cfg, View(), top, step);
      if drain.stop.None? { LoopStops.GuardsDeclare(cfg, View(), top, step); }
      if drain.stop.Some? {
        LoopSignals.DrainStands(cfg, View(), top, step);
        DrainStep(step.drain);
        if phase.Going? && slots == [] { phase := Exited; }
      } else if top >= cfg.runBudget {
        DeclareStop(RunBudgetExhausted, At(top + cfg.shutdownBudget));
      } else {
        var daily := runs.DailySpend(NowSecs(cfg, top));
        if daily >= cfg.spendCap {
          DeclareStop(SpendSoftCap, Unbounded);
        } else if cfg.maxCycles.Some? && counters.cycles >= cfg.maxCycles.value {
          DeclareStop(CycleBudget, At(top + cfg.shutdownBudget));
        } else {
          Pass(top, step.pass);
        }
      }
    }

    method Iteration(step: Iter)
      requires phase.Going?
      modifies this, runs
      ensures View() == Iterate(cfg, old(View()), step)
    {
      clock := clock + step.dtTop;
      var top := clock;
      Supervise(step.supervise);
      if !phase.Going? { return; }
      CheckGuards(top, step);
      if !phase.Going? { return; }
      WaitTick(step.wait);
    }

    /** Runs the script until the loop ends, then sweeps the slots of a fatal exit. */
    method Run(script: seq<Iter>, results: seq<Finish>)
      requires phase.Going?
      modifies this, runs
      ensures View() == FatalSweep(cfg, LoopModel.Run(cfg, old(View()), script), results)
      ensures LoopBookkeeping.IsStart(old(View())) && phase.Exited? ==>
                && slots == [] && |old(runs.rows)| <= |runs.rows|
                && forall i :: |old(runs.rows)| <= i < |runs.rows| ==> IsTerminal(runs.rows[i].status)
    {
      for i := 0 to |script|
        invariant View() == LoopModel.Run(cfg, old(View()), script[..i])
      {
        assert script[..i + 1][..i] == script[..i];
        if phase.Going? { Iteration(script[i]); }
      }
      assert script[..|script|] == script;
      if phase.Fatal? {
        SweepStranded(results);
        SweepStaysFatal(LoopModel.Run(cfg, old(View()), script), results);
      } else if phase.Exited? && LoopBookkeeping.IsStart(old(View())) {
        LoopExit.CleanExit(cfg, old(View()), script);
      }
    }

    lemma SweepStaysFatal(s: Loop, results: seq<Finish>)
      requires s.phase.Fatal?
      ensures FatalSweep(cfg, s, results).phase.Fatal?
    {
      SweepAllStaysFatal(LoopModel.KillWhere(cfg, s, Everything, Drained), results);
    }

    lemma {:induction false} SweepAllStaysFatal(s: Loop, results: seq<Finish>)
      requires s.phase.Fatal?
      ensures SweepAll(cfg, s, results).phase.Fatal?
      decreases |s.slots|
    {
      if s.slots != [] {
        if results == [] { SweepAllStaysFatal(SweepOne(cfg, s, Finish(Cancelled, 0)), []); }
        else { SweepAllStaysFatal(SweepOne(cfg, s, results[0]), results[1..]); }
      }
    }

    /** Awaits the oldest stranded handle, drops its result and records the abort. */
    method SweepOldest(dropped: Finish)
      requires slots != []
      modifies this, runs
      ensures View() == SweepOne(cfg, old(View()), dropped)
    {
      clock := clock + dropped.dt;
      var ok := runs.Finish(slots[0].run, AbortedShutdown, NowSecs(cfg, clock), 0, UnattributedDrainAbort);
      counters := counters.(abortedOnStop := counters.abortedOnStop + 1);
      slots := slots[1..];
    }

    /** Aborts every in-flight slot and sweeps them in order. */
    method SweepStranded(results: seq<Finish>)
      requires phase.Fatal?
      modifies this, runs
      ensures View() == FatalSweep(cfg, old(View()), results)
    {
      KillWhere(Everything, Drained);
      ghost var killed := View();
      var rest := results;
      while slots != []
        invariant SweepAll(cfg, View(), rest) == SweepAll(cfg, killed, results)
        decreases |slots|
      {
        if rest == [] {
          SweepOldest(Finish(Cancelled, 0));
        } else {
          SweepOldest(rest[0]);
          rest := rest[1..];
        }
      }
    }
  }
}

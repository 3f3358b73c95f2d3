/**
The durable guards over one run: every step of the loop keeps the retry
budget, the backoff windows and the daily spend bound.
 */
module LoopGuards {
  import opened Wrappers
  import opened RunState
  import opened Selection
  import opened LoopModel
  import opened LoopTrace
  import opened LoopBookkeeping
  import opened RetryBudget
  import opened SpendCap

  /** Every task in flight has an attempt left. */
  ghost predicate SlotsHaveBudget(m: nat, s: Loop)
  {
    forall i :: 0 <= i < |s.slots| ==> s.store.Attempts(s.slots[i].task) < m
  }

  /** The guards, with `most` the largest spend one run records. */
  ghost predicate Guarded(cfg: Config, most: nat, base: Loop, s: Loop)
  {
    && |base.store.rows| <= |s.store.rows|
    && RunningIsFree(s.store)
    && PacingHolds(BackoffSecs(cfg), s.store, NowSecs(cfg, s.clock))
    && (cfg.maxTaskAttempts > 0 ==>
          BudgetHolds(cfg.maxTaskAttempts, s.store) && SlotsHaveBudget(cfg.maxTaskAttempts, s))
    && SpendHolds(cfg.spendCap, cfg.maxWorkers, most, |base.store.rows|, s.store.rows)
  }

  // ------------------------------------------------------- environment bounds

  ghost predicate Affordable(most: nat, finishes: set<Finish>)
  {
    forall finish :: finish in finishes ==> SpendOf(finish.outcome) <= most
  }

  /** No run of the iteration records more than `most`. */
  ghost predicate StepIsAffordable(most: nat, step: Iter)
  {
    && Affordable(most, step.supervise.before.Values + step.supervise.after.Values)
    && Affordable(most, step.drain.reaped.Values)
  }

  ghost predicate ScriptIsAffordable(most: nat, script: seq<Iter>)
  {
    forall i :: 0 <= i < |script| ==> StepIsAffordable(most, script[i])
  }

  // ---------------------------------------------------------------- small steps

  lemma NowIsMonotone(cfg: Config, a: nat, b: nat)
    requires a <= b
    ensures NowSecs(cfg, a) <= NowSecs(cfg, b)
  {
  }

  /** The store and the slots' tasks are untouched; the clock may have moved. */
  lemma SameSlotsGuarded(cfg: Config, most: nat, base: Loop, s: Loop, t: Loop)
    requires Guarded(cfg, most, base, s) && t.store == s.store && s.clock <= t.clock
    requires |t.slots| == |s.slots| && forall k :: 0 <= k < |s.slots| ==> t.slots[k].task == s.slots[k].task
    ensures Guarded(cfg, most, base, t)
  {
    NowIsMonotone(cfg, s.clock, t.clock);
    var now, later := NowSecs(cfg, s.clock), NowSecs(cfg, t.clock);
    forall i: nat | i < |s.store.rows| ensures PastBy(s.store.rows[i], later) {
      assert PastBy(s.store.rows[i], now);
    }
    SameGuardsKeepPacing(BackoffSecs(cfg), s.store, t.store, now, later);
  }

  /** An own row is its task's last, because later rows are own rows with other tasks. */
  lemma OwnRowIsLast(cfg: Config, b: nat, s: Loop, i: nat)
    requires RowsAreOwn(cfg, b, s) && OwnRow(b, s, i)
    ensures IsLastOfTask(s.store.rows, i)
  {
    forall j | i < j < |s.store.rows| ensures s.store.rows[j].task != s.store.rows[i].task {
      assert OwnRow(b, s, j);
    }
  }

  lemma ReapStore(cfg: Config, s: Loop, i: nat, finish: Finish)
    requires s.phase.Going? && i < |s.slots| && s.store.IsRunning(s.slots[i].run)
    ensures var slot := s.slots[i];
            var (status, detail) := Arbitrate(finish.outcome, slot.intent);
            && IsTerminal(status) && !status.Stuck?
            && ReapAt(cfg, s, i, finish).store
               == Settled(cfg, s.store, slot.run, slot.task, status, detail, NoProgress(finish.outcome),
                          SpendOf(finish.outcome), NowSecs(cfg, s.clock + finish.dt))
  {
  }

  /** What settling one own running row does to the three guards. */
  lemma SettleGuards(cfg: Config, most: nat, b: nat, store: Store, run: nat, task: string, status: RunStatus,
                     detail: Detail, noProgress: bool, spend: nat, now: nat)
    requires b <= run && CanSettle(store, run, task) && IsTerminal(status) && !status.Stuck? && spend <= most
    requires RunningIsFree(store) && PacingHolds(BackoffSecs(cfg), store, now)
    requires cfg.maxTaskAttempts > 0 ==>
               BudgetHolds(cfg.maxTaskAttempts, store) && store.Attempts(task) < cfg.maxTaskAttempts
    requires SpendHolds(cfg.spendCap, cfg.maxWorkers, most, b, store.rows)
    ensures var t := Settled(cfg, store, run, task, status, detail, noProgress, spend, now);
            && RunningIsFree(t) && PacingHolds(BackoffSecs(cfg), t, now) && |t.rows| == |store.rows|
            && (cfg.maxTaskAttempts > 0 ==> BudgetHolds(cfg.maxTaskAttempts, t))
            && SpendHolds(cfg.spendCap, cfg.maxWorkers, most, b, t.rows)
            && (forall other :: other != task ==> t.Attempts(other) == store.Attempts(other))
  {
    SettledEffect(cfg, store, run, task, status, detail, noProgress, spend, now);
    SettleKeepsPacing(cfg, store, run, task, status, detail, noProgress, spend, now);
    if cfg.maxTaskAttempts > 0 { SettleKeepsBudget(cfg, store, run, task, status, detail, noProgress, spend, now); }
    FinishKeepsSpend(cfg.spendCap, cfg.maxWorkers, most, b, store.rows, run,
                     SettledRow(cfg, store, run, task, status, detail, noProgress, spend, now));
  }

  lemma SlotCanSettle(cfg: Config, base: Loop, s: Loop, i: nat)
    requires Bookkept(cfg, base, s) && i < |s.slots|
    ensures |base.store.rows| <= s.slots[i].run && CanSettle(s.store, s.slots[i].run, s.slots[i].task)
  {
    assert SlotMatches(|base.store.rows|, s, s.slots[i]);
    OwnRowIsLast(cfg, |base.store.rows|, s, s.slots[i].run);
  }

  /** The store half of a reap. */
  lemma ReapStoreGuarded(cfg: Config, most: nat, base: Loop, s: Loop, i: nat, finish: Finish)
    requires s.phase.Going? && i < |s.slots| && SpendOf(finish.outcome) <= most
    requires |base.store.rows| <= s.slots[i].run && CanSettle(s.store, s.slots[i].run, s.slots[i].task)
    requires Guarded(cfg, most, base, Tick(s, finish.dt))
    ensures Guarded(cfg, most, base, ReapAt(cfg, s, i, finish).(slots := []))
  {
    var slot := s.slots[i];
    var (status, detail) := Arbitrate(finish.outcome, slot.intent);
    var b, now := |base.store.rows|, NowSecs(cfg, s.clock + finish.dt);
    ReapStore(cfg, s, i, finish);
    ReapEffect(cfg, s, i, finish);
    SettleGuards(cfg, most, b, s.store, slot.run, slot.task, status, detail, NoProgress(finish.outcome),
                 SpendOf(finish.outcome), now);
    var settled := Settled(cfg, s.store, slot.run, slot.task, status, detail, NoProgress(finish.outcome),
                           SpendOf(finish.outcome), now);
    StoreGuards(cfg, most, base, ReapAt(cfg, s, i, finish).(slots := []), settled);
  }

  /** A loop without slots is guarded when its store is. */
  lemma StoreGuards(cfg: Config, most: nat, base: Loop, t: Loop, store: Store)
    requires t.store == store && t.slots == [] && |base.store.rows| <= |store.rows| && RunningIsFree(store)
    requires PacingHolds(BackoffSecs(cfg), store, NowSecs(cfg, t.clock))
    requires cfg.maxTaskAttempts > 0 ==> BudgetHolds(cfg.maxTaskAttempts, store)
    requires SpendHolds(cfg.spendCap, cfg.maxWorkers, most, |base.store.rows|, store.rows)
    ensures Guarded(cfg, most, base, t)
  {
  }

  lemma ReapGuarded(cfg: Config, most: nat, base: Loop, s: Loop, i: nat, finish: Finish)
    requires Bookkept(cfg, base, s) && Guarded(cfg, most, base, s) && s.phase.Going? && i < |s.slots|
    requires SpendOf(finish.outcome) <= most
    ensures Guarded(cfg, most, base, ReapAt(cfg, s, i, finish))
  {
    SlotCanSettle(cfg, base, s, i);
    SameSlotsGuarded(cfg, most, base, s, Tick(s, finish.dt));
    ReapStoreGuarded(cfg, most, base, s, i, finish);
    RemainingHaveBudget(cfg, base, s, i, finish);
  }

  /** The other slots' tasks are different, so their attempt totals stand. */
  lemma RemainingHaveBudget(cfg: Config, base: Loop, s: Loop, i: nat, finish: Finish)
    requires Bookkept(cfg, base, s) && s.phase.Going? && i < |s.slots|
    requires cfg.maxTaskAttempts > 0 ==> SlotsHaveBudget(cfg.maxTaskAttempts, s)
    ensures cfg.maxTaskAttempts > 0 ==> SlotsHaveBudget(cfg.maxTaskAttempts, ReapAt(cfg, s, i, finish))
  {
    SlotCanSettle(cfg, base, s, i);
    ReapedOthers(cfg, s, i, finish);
    var t := ReapAt(cfg, s, i, finish);
    if cfg.maxTaskAttempts > 0 {
      forall k | 0 <= k < |t.slots| ensures t.store.Attempts(t.slots[k].task) < cfg.maxTaskAttempts {
        var from := if k < i then k else k + 1;
        assert t.slots[k] == s.slots[from];
        TasksDiffer(cfg, base, s, i, from);
      }
    }
  }

  lemma TasksDiffer(cfg: Config, base: Loop, s: Loop, i: nat, k: nat)
    requires Bookkept(cfg, base, s) && i < |s.slots| && k < |s.slots| && i != k
    ensures s.slots[i].task != s.slots[k].task
  {
    var b := |base.store.rows|;
    assert SlotMatches(b, s, s.slots[i]) && SlotMatches(b, s, s.slots[k]);
  }

  /** A reap moves the attempt total of its own task only. */
  lemma ReapedOthers(cfg: Config, s: Loop, i: nat, finish: Finish)
    requires s.phase.Going? && i < |s.slots| && CanSettle(s.store, s.slots[i].run, s.slots[i].task)
    ensures var t := ReapAt(cfg, s, i, finish);
            && t.slots == WithoutSlot(s.slots, i)
            && forall task :: task != s.slots[i].task ==> t.store.Attempts(task) == s.store.Attempts(task)
  {
    var slot := s.slots[i];
    var (status, detail) := Arbitrate(finish.outcome, slot.intent);
    ReapStore(cfg, s, i, finish);
    ReapEffect(cfg, s, i, finish);
    SettledEffect(cfg, s.store, slot.run, slot.task, status, detail, NoProgress(finish.outcome),
                  SpendOf(finish.outcome), NowSecs(cfg, s.clock + finish.dt));
  }

  lemma BeatGuarded(cfg: Config, most: nat, base: Loop, s: Loop, i: nat, beat: nat)
    requires Bookkept(cfg, base, s) && Guarded(cfg, most, base, s) && s.phase.Going? && i < |s.slots|
    ensures Guarded(cfg, most, base, BeatAt(cfg, s, i, beat))
  {
    assert SlotMatches(|base.store.rows|, s, s.slots[i]);
    BeatRowGuarded(cfg, most, base, s, i, beat);
  }

  lemma BeatRowGuarded(cfg: Config, most: nat, base: Loop, s: Loop, i: nat, beat: nat)
    requires Guarded(cfg, most, base, s) && s.phase.Going? && i < |s.slots|
    requires |base.store.rows| <= s.slots[i].run && s.store.IsRunning(s.slots[i].run)
    ensures Guarded(cfg, most, base, BeatAt(cfg, s, i, beat))
  {
    var b := |base.store.rows|;
    var t := BeatAt(cfg, s, i, beat);
    var run := s.slots[i].run;
    var now := NowSecs(cfg, s.clock);
    forall k: nat | k < |t.store.rows| ensures PastBy(t.store.rows[k], now) { assert PastBy(s.store.rows[k], now); }
    SameGuardsKeepPacing(BackoffSecs(cfg), s.store, t.store, now, now);
    if cfg.maxTaskAttempts > 0 { SameGuardsKeepBudget(cfg.maxTaskAttempts, s.store, t.store); }
    BeatKeepsSpend(cfg.spendCap, cfg.maxWorkers, most, b, s.store.rows, run, t.store.rows[run]);
  }

  lemma MicroGuarded(cfg: Config, most: nat, base: Loop, s: Loop, m: Micro)
    requires Bookkept(cfg, base, s) && Guarded(cfg, most, base, s)
    requires m.ReapSlot? ==> SpendOf(m.finish.outcome) <= most
    ensures Guarded(cfg, most, base, Exec(cfg, s, m))
  {
    if s.phase.Going? {
      match m
      case ReapSlot(i, finish) =>
        if i < |s.slots| && CanReturn(s.slots[i], finish) { ReapGuarded(cfg, most, base, s, i, finish); }
      case BeatSlot(j, beat) => if j < |s.slots| { BeatGuarded(cfg, most, base, s, j, beat); }
      case Kill(rule, intent) =>
        assert Exec(cfg, s, m) == KillWhere(cfg, s, rule, intent);
        SameSlotsGuarded(cfg, most, base, s, KillWhere(cfg, s, rule, intent));
      case Advance(dt) => SameSlotsGuarded(cfg, most, base, s, Tick(s, dt));
    }
  }

  lemma {:induction false} TraceGuarded(cfg: Config, most: nat, base: Loop, s: Loop, trace: seq<Micro>,
                                        finishes: set<Finish>)
    requires Bookkept(cfg, base, s) && Guarded(cfg, most, base, s)
    requires ReapsOnly(trace, finishes) && Affordable(most, finishes)
    ensures Guarded(cfg, most, base, ExecAll(cfg, s, trace))
    decreases |trace|
  {
    if trace != [] {
      MicroGuarded(cfg, most, base, s, trace[0]);
      MicroKeeps(cfg, base, s, trace[0]);
      TraceGuarded(cfg, most, base, Exec(cfg, s, trace[0]), trace[1..], finishes);
    }
  }

  // ------------------------------------------------------------------ planning

  /** A task outside the exclusions has an attempt left and an expired window. */
  lemma NotExcludedCanStart(cfg: Config, s: Loop, now: nat, task: string)
    requires task !in Excluded(cfg, s, now)
    ensures CanStart(cfg, s.store, task, now)
    ensures cfg.maxTaskAttempts > 0 ==> s.store.Attempts(task) < cfg.maxTaskAttempts
  {
  }

  /** What a new running row does to the three guards. */
  lemma StartGuards(cfg: Config, most: nat, b: nat, store: Store, request: StartRun)
    requires b <= |store.rows| && CanStart(cfg, store, request.task, request.startedAt)
    requires RunningIsFree(store) && PacingHolds(BackoffSecs(cfg), store, request.startedAt)
    requires cfg.maxTaskAttempts > 0 ==>
               BudgetHolds(cfg.maxTaskAttempts, store) && store.Attempts(request.task) < cfg.maxTaskAttempts
    requires SpendHolds(cfg.spendCap, cfg.maxWorkers, most, b, store.rows)
    requires Total(SpendOn(DayStart(request.startedAt)), store.rows) < cfg.spendCap
    requires Total(OfStatus(Running), store.rows[b..]) < cfg.maxWorkers
    ensures var t := store.Start(request);
            && RunningIsFree(t) && PacingHolds(BackoffSecs(cfg), t, request.startedAt)
            && (cfg.maxTaskAttempts > 0 ==> BudgetHolds(cfg.maxTaskAttempts, t))
            && SpendHolds(cfg.spendCap, cfg.maxWorkers, most, b, t.rows)
            && t.retry == store.retry
  {
    StartKeepsPacing(cfg, store, request);
    if cfg.maxTaskAttempts > 0 { StartKeepsBudget(cfg, store, request); }
    RunningOnBelow(store.rows[b..], DayStart(request.startedAt));
    StartKeepsSpend(cfg.spendCap, cfg.maxWorkers, most, b, store.rows, NewRow(request));
  }

  lemma SpawnGuarded(cfg: Config, most: nat, base: Loop, s: Loop, decision: Decision, start: StartIn)
    requires decision.Selected? && s.decisions != [] && s.phase.Going?
    requires Guarded(cfg, most, base, s) && CountersCountRows(|base.store.rows|, s) && |s.slots| < cfg.maxWorkers
    requires CanStart(cfg, s.store, decision.task, NowSecs(cfg, s.clock))
    requires cfg.maxTaskAttempts > 0 ==> s.store.Attempts(decision.task) < cfg.maxTaskAttempts
    requires forall i :: 0 <= i < |s.slots| ==> s.slots[i].task != decision.task
    requires Total(SpendOn(DayStart(NowSecs(cfg, s.clock))), s.store.rows) < cfg.spendCap
    ensures Guarded(cfg, most, base, Spawn(cfg, s, decision, start))
  {
    StartGuards(cfg, most, |base.store.rows|, s.store, Request(cfg, s, decision));
    if start.SpawnFailed? { SpawnFailedGuarded(cfg, most, base, s, decision, start); }
    else { SpawnStartedGuarded(cfg, most, base, s, decision, start); }
  }

  /** The row of the selected task is written and all guards still hold. */
  ghost predicate StartIsGuarded(cfg: Config, most: nat, base: Loop, s: Loop, decision: Decision)
    requires decision.Selected? && s.decisions != []
  {
    var started := s.store.Start(Request(cfg, s, decision));
    && |base.store.rows| <= |s.store.rows| && RunningIsFree(started)
    && PacingHolds(BackoffSecs(cfg), started, NowSecs(cfg, s.clock))
    && (cfg.maxTaskAttempts > 0 ==>
          && BudgetHolds(cfg.maxTaskAttempts, started) && started.Attempts(decision.task) < cfg.maxTaskAttempts
          && SlotsHaveBudget(cfg.maxTaskAttempts, s))
    && SpendHolds(cfg.spendCap, cfg.maxWorkers, most, |base.store.rows|, started.rows)
  }

  lemma SpawnStartedGuarded(cfg: Config, most: nat, base: Loop, s: Loop, decision: Decision, start: StartIn)
    requires decision.Selected? && s.decisions != [] && s.phase.Going? && !start.SpawnFailed?
    requires StartIsGuarded(cfg, most, base, s, decision)
    ensures Guarded(cfg, most, base, Spawn(cfg, s, decision, start))
  {
    var t := Spawn(cfg, s, decision, start);
    assert t.store == s.store.Start(Request(cfg, s, decision)) && t.clock == s.clock;
  }

  lemma SpawnFailedGuarded(cfg: Config, most: nat, base: Loop, s: Loop, decision: Decision, start: StartIn)
    requires decision.Selected? && s.decisions != [] && s.phase.Going? && start.SpawnFailed?
    requires StartIsGuarded(cfg, most, base, s, decision)
    requires forall i :: 0 <= i < |s.slots| ==> s.slots[i].task != decision.task
    ensures Guarded(cfg, most, base, Spawn(cfg, s, decision, start))
  {
    var b, run, now := |base.store.rows|, |s.store.rows|, NowSecs(cfg, s.clock);
    var started := s.store.Start(Request(cfg, s, decision));
    assert started.rows[run] == NewRow(Request(cfg, s, decision));
    SettleGuards(cfg, most, b, started, run, decision.task, Failed, SpawnMessage, false, 0, now);
    SettledEffect(cfg, started, run, decision.task, Failed, SpawnMessage, false, 0, now);
    var settled := s.(store := Settled(cfg, started, run, decision.task, Failed, SpawnMessage, false, 0, now));
    assert Guarded(cfg, most, base, settled);
    var t := Spawn(cfg, s, decision, start);
    assert t.store == settled.store && t.slots == s.slots;
    SameSlotsGuarded(cfg, most, base, settled, t);
  }

  lemma PlanGuarded(cfg: Config, most: nat, base: Loop, s: Loop, excluded: set<string>, peeked: set<nat>, plan: PlanIn)
    requires Ledgered(cfg, base, s) && Guarded(cfg, most, base, s) && s.phase.Going? && |s.slots| < cfg.maxWorkers
    requires excluded == Excluded(cfg, s, NowSecs(cfg, s.clock))
    requires Total(SpendOn(DayStart(NowSecs(cfg, s.clock))), s.store.rows) < cfg.spendCap
    ensures Guarded(cfg, most, base, Plan(cfg, s, excluded, peeked, plan))
  {
    var snapshot := plan.snapshot.(ready := Retain(plan.snapshot.ready, excluded));
    var decision := CampaignDecision(snapshot, plan.consulted);
    var recorded := s.(decisions := s.decisions + [decision],
                       events := DrainEvents(Arrive(s.events, plan.arrivals), peeked));
    SameSlotsGuarded(cfg, most, base, s, recorded);
    if decision.Selected? {
      SelectionAvoidsExcluded(plan.snapshot, excluded, plan.consulted);
      NotExcludedCanStart(cfg, s, NowSecs(cfg, s.clock), decision.task);
      assert forall i :: 0 <= i < |s.slots| ==> s.slots[i].task in BusyTasks(cfg, s);
      SpawnGuarded(cfg, most, base, recorded, decision, plan.start);
    } else {
      SameSlotsGuarded(cfg, most, base, s, Plan(cfg, s, excluded, peeked, plan));
    }
  }

  lemma PlanAndSpawnGuarded(cfg: Config, most: nat, base: Loop, s: Loop, plan: PlanIn)
    requires Ledgered(cfg, base, s) && Guarded(cfg, most, base, s) && s.phase.Going? && |s.slots| < cfg.maxWorkers
    requires Total(SpendOn(DayStart(NowSecs(cfg, s.clock))), s.store.rows) < cfg.spendCap
    ensures Guarded(cfg, most, base, PlanAndSpawn(cfg, s, plan))
  {
    var gated := Gated(cfg, s, plan.snapshot);
    GatedKeeps(cfg, base, s, plan.snapshot);
    SameSlotsGuarded(cfg, most, base, s, gated);
    var now := NowSecs(cfg, s.clock);
    assert Excluded(cfg, gated, now) == Excluded(cfg, s, now);
    if Proceeds(cfg, s, now, plan.snapshot) {
      PlanGuarded(cfg, most, base, gated, Excluded(cfg, s, now), Peeked(cfg, s), plan);
    } else {
      SameSlotsGuarded(cfg, most, base, gated, RecordKickoffSkip(cfg, gated));
    }
  }

  // ------------------------------------------------------------------- the loop

  /** The current day has room under the cap. */
  ghost predicate HasRoom(cfg: Config, s: Loop)
  {
    Total(SpendOn(DayStart(NowSecs(cfg, s.clock))), s.store.rows) < cfg.spendCap
  }

  lemma PollGuarded(cfg: Config, most: nat, base: Loop, s: Loop, top: nat, later: Loop)
    requires Bookkept(cfg, base, s) && Guarded(cfg, most, base, s) && s.phase.Going?
    requires top <= s.clock && s.store.DailySpend(NowSecs(cfg, top)) < cfg.spendCap
    requires forall i: nat :: i < |s.store.rows| ==> s.store.rows[i].startedAt <= NowSecs(cfg, top)
    requires SameLedger(s, later) && s.clock <= later.clock && later.slots == s.slots
    ensures Ledgered(cfg, base, later) && Guarded(cfg, most, base, later) && HasRoom(cfg, later)
  {
    SameSlotsGuarded(cfg, most, base, s, later);
    LedgerKeeps(cfg, base, s, later);
    NowIsMonotone(cfg, top, later.clock);
    RoomSurvivesMidnight(cfg.spendCap, s.store.rows, NowSecs(cfg, top), NowSecs(cfg, later.clock));
  }

  /** After the poll, at reading `later`, the pass stops, fails or plans. */
  lemma AfterPollGuarded(cfg: Config, most: nat, base: Loop, s: Loop, pass: PassIn)
    requires var later := Tick(s, pass.dtAfter);
             && Ledgered(cfg, base, later) && Guarded(cfg, most, base, later) && HasRoom(cfg, later)
             && later.phase.Going? && |later.slots| < cfg.maxWorkers
    ensures Guarded(cfg, most, base, AfterPoll(cfg, s, pass))
  {
    var later := Tick(s, pass.dtAfter);
    var t := AfterPoll(cfg, s, pass);
    if pass.result.PollOk? && s.clock < cfg.runBudget && (s.signal.closed || s.signal.sends <= s.signal.cloneSeen) {
      assert t == PlanAndSpawn(cfg, later, pass.result.plan);
      PlanAndSpawnGuarded(cfg, most, base, later, pass.result.plan);
    } else {
      assert t.store == later.store && t.slots == later.slots && t.clock == later.clock;
      SameSlotsGuarded(cfg, most, base, later, t);
    }
  }

  /** The pass runs after the spend check of the same iteration, at reading `top`. */
  lemma PassGuarded(cfg: Config, most: nat, base: Loop, s: Loop, top: nat, pass: PassIn)
    requires Bookkept(cfg, base, s) && Guarded(cfg, most, base, s) && s.phase.Going?
    requires top <= s.clock && s.store.DailySpend(NowSecs(cfg, top)) < cfg.spendCap
    requires forall i: nat :: i < |s.store.rows| ==> s.store.rows[i].startedAt <= NowSecs(cfg, top)
    ensures Guarded(cfg, most, base, Pass(cfg, s, top, pass))
  {
    if !PassGated(cfg, s, top) {
      var begun := Tick(BeginPass(cfg, s, top), pass.dtBudget);
      var polled := Tick(begun, pass.dt)
                    .(signal := Deliver(s.signal, pass.sends, pass.closes), events := Arrive(s.events, pass.arrivals));
      var later := Tick(polled, pass.dtAfter);
      PollGuarded(cfg, most, base, s, top, later);
      var t := Pass(cfg, s, top, pass);
      if || (pass.signalFirst && polled.signal.sends > polled.signal.cloneSeen)
         || (pass.budgetFirst && begun.clock <= cfg.runBudget <= polled.clock) {
        assert t.store == later.store && t.slots == later.slots && t.clock == later.clock;
        SameSlotsGuarded(cfg, most, base, later, t);
      } else {
        assert t == AfterPoll(cfg, polled, pass);
        AfterPollGuarded(cfg, most, base, polled, pass);
      }
    }
  }

  lemma DrainGuarded(cfg: Config, most: nat, base: Loop, s: Loop, top: nat, step: Iter)
    requires Bookkept(cfg, base, s) && Guarded(cfg, most, base, s) && s.phase.Going? && s.drain.stop.Some?
    requires StepIsAffordable(most, step)
    ensures Guarded(cfg, most, base, Guards(cfg, s, top, step))
  {
    var trace := DrainIsTrace(cfg, s, step.drain);
    TraceGuarded(cfg, most, base, s, trace, step.drain.reaped.Values);
    DrainEnds(cfg, s, top, step);
    SameSlotsGuarded(cfg, most, base, DrainSweep(cfg, s, step.drain), Guards(cfg, s, top, step));
  }

  lemma GuardsGuarded(cfg: Config, most: nat, base: Loop, s: Loop, top: nat, step: Iter)
    requires Bookkept(cfg, base, s) && Guarded(cfg, most, base, s) && s.phase.Going?
    requires top <= s.clock && StepIsAffordable(most, step)
    requires forall i: nat :: i < |s.store.rows| ==> s.store.rows[i].startedAt <= NowSecs(cfg, top)
    ensures Guarded(cfg, most, base, Guards(cfg, s, top, step))
  {
    if s.drain.stop.Some? {
      DrainGuarded(cfg, most, base, s, top, step);
    } else if top >= cfg.runBudget || s.store.DailySpend(NowSecs(cfg, top)) >= cfg.spendCap
              || (cfg.maxCycles.Some? && s.counters.cycles >= cfg.maxCycles.value) {
      SameSlotsGuarded(cfg, most, base, s, Guards(cfg, s, top, step));
    } else {
      assert Guards(cfg, s, top, step) == Pass(cfg, s, top, step.pass);
      PassGuarded(cfg, most, base, s, top, step.pass);
    }
  }

  /** Supervision starts no row, so what was started by its start still is. */
  lemma SuperviseStarts(cfg: Config, s: Loop, trace: seq<Micro>, now: nat)
    requires forall i: nat :: i < |s.store.rows| ==> s.store.rows[i].startedAt <= now
    ensures forall i: nat :: i < |ExecAll(cfg, s, trace).store.rows| ==>
              ExecAll(cfg, s, trace).store.rows[i].startedAt <= now
    decreases |trace|
  {
    if trace != [] {
      MicroStarts(cfg, s, trace[0], now);
      SuperviseStarts(cfg, Exec(cfg, s, trace[0]), trace[1..], now);
    }
  }

  lemma MicroStarts(cfg: Config, s: Loop, m: Micro, now: nat)
    requires forall i: nat :: i < |s.store.rows| ==> s.store.rows[i].startedAt <= now
    ensures forall i: nat :: i < |Exec(cfg, s, m).store.rows| ==> Exec(cfg, s, m).store.rows[i].startedAt <= now
  {
    if s.phase.Going? && m.ReapSlot? && m.i < |s.slots| && s.store.IsRunning(s.slots[m.i].run) {
      ReapEffect(cfg, s, m.i, m.finish);
    }
  }

  lemma WaitGuarded(cfg: Config, most: nat, base: Loop, s: Loop, step: WaitIn)
    requires Guarded(cfg, most, base, s)
    ensures Guarded(cfg, most, base, Wait(cfg, s, step))
  {
    SameSlotsGuarded(cfg, most, base, s, Wait(cfg, s, step));
  }

  /** From supervision on: the guards and, if the loop still goes, the wait. */
  lemma TailGuarded(cfg: Config, most: nat, base: Loop, s: Loop, top: nat, step: Iter, t: Loop)
    requires Bookkept(cfg, base, s) && Guarded(cfg, most, base, s) && s.phase.Going?
    requires top <= s.clock && StepIsAffordable(most, step)
    requires forall i: nat :: i < |s.store.rows| ==> s.store.rows[i].startedAt <= NowSecs(cfg, top)
    requires var g := Guards(cfg, s, top, step); t == if g.phase.Going? then Wait(cfg, g, step.wait) else g
    ensures Guarded(cfg, most, base, t)
  {
    GuardsGuarded(cfg, most, base, s, top, step);
    var g := Guards(cfg, s, top, step);
    if g.phase.Going? { WaitGuarded(cfg, most, base, g, step.wait); }
  }

  lemma IterateGuarded(cfg: Config, most: nat, base: Loop, s: Loop, step: Iter)
    requires Bookkept(cfg, base, s) && Guarded(cfg, most, base, s) && StepIsAffordable(most, step)
    ensures Guarded(cfg, most, base, Iterate(cfg, s, step))
  {
    if s.phase.Going? {
      var top := Tick(s, step.dtTop);
      var trace := SuperviseIsTrace(cfg, top, step.supervise);
      SuperviseGuarded(cfg, most, base, s, step, trace);
      var supervised := Supervise(cfg, top, step.supervise);
      TraceFrame(cfg, top, trace);
      if supervised.phase.Going? {
        SuperviseKeeps(cfg, base, s, step.dtTop, step.supervise);
        TailGuarded(cfg, most, base, supervised, top.clock, step, Iterate(cfg, s, step));
      } else {
        assert Iterate(cfg, s, step) == supervised;
      }
    }
  }

  lemma SuperviseGuarded(cfg: Config, most: nat, base: Loop, s: Loop, step: Iter, trace: seq<Micro>)
    requires Bookkept(cfg, base, s) && Guarded(cfg, most, base, s) && StepIsAffordable(most, step) && s.phase.Going?
    requires ReapsOnly(trace, step.supervise.before.Values + step.supervise.after.Values)
    ensures var top := Tick(s, step.dtTop);
            && Guarded(cfg, most, base, ExecAll(cfg, top, trace))
            && forall i: nat :: i < |ExecAll(cfg, top, trace).store.rows| ==>
                 ExecAll(cfg, top, trace).store.rows[i].startedAt <= NowSecs(cfg, top.clock)
  {
    var top := Tick(s, step.dtTop);
    LedgerKeeps(cfg, base, s, top);
    SameSlotsGuarded(cfg, most, base, s, top);
    TraceGuarded(cfg, most, base, top, trace, step.supervise.before.Values + step.supervise.after.Values);
    assert forall i: nat :: i < |top.store.rows| ==> PastBy(top.store.rows[i], NowSecs(cfg, top.clock));
    SuperviseStarts(cfg, top, trace, NowSecs(cfg, top.clock));
  }

  /**
  Over every run whose store satisfied the guards at the start: attempt totals
  equal failure rows and stay within the budget, stuck rows are exact and last,
  no row starts inside a backoff window, and every used day's exposure stays
  below the cap plus one full house of workers.
   */
  lemma {:induction false} RunGuarded(cfg: Config, most: nat, base: Loop, script: seq<Iter>)
    requires IsStart(base) && Guarded(cfg, most, base, base) && ScriptIsAffordable(most, script)
    ensures Guarded(cfg, most, base, Run(cfg, base, script))
  {
    if script != [] {
      RunGuarded(cfg, most, base, script[..|script| - 1]);
      RunIsBookkept(cfg, base, script[..|script| - 1]);
      IterateGuarded(cfg, most, base, Run(cfg, base, script[..|script| - 1]), script[|script| - 1]);
    }
  }
}

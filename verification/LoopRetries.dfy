/**
The retry table over a run: each task's entry follows the one row the run has
for it, the no-progress streak follows the result its worker returned, and once
written the entry stands.
 */
module LoopRetries {
  import opened Wrappers
  import opened RunState
  import opened Selection
  import opened LoopModel
  import opened LoopTrace
  import opened LoopBookkeeping
  import opened LoopSignals
  import opened LoopArbitration
  import opened LoopReaping
  import opened LoopStops
  import opened LoopKickoff
  import opened LoopMemory

  // ------------------------------------------------------------------ entries and rows

  function Entry(store: Store, task: string): Option<Retry>
  {
    if task in store.retry then Some(store.retry[task]) else None
  }

  function AttemptsIn(entry: Option<Retry>): nat { if entry.Some? then entry.value.attempts else 0 }

  function StreakIn(entry: Option<Retry>): nat { if entry.Some? then entry.value.noProgress else 0 }

  /** When a failure that ended at this second may be tried again. */
  function RetryAt(cfg: Config, finishedAt: Option<nat>): Option<nat>
  {
    if cfg.taskRetryBackoff == 0 || finishedAt.None? then None
    else Some(finishedAt.value + cfg.taskRetryBackoff / NANOS_PER_SEC)
  }

  /**
  What a row does to its task's entry: a counted failure adds an attempt, sets
  the backoff from its own end, and extends the streak or resets it; a
  completion clears streak and backoff of an entry that was there; a running
  row and an abort leave it alone.
   */
  ghost predicate IsMoved(cfg: Config, before: Option<Retry>, after: Option<Retry>, row: Row)
  {
    if IsAttempt(row.status) then
      && after.Some? && after.value.attempts == AttemptsIn(before) + 1
      && after.value.backoffUntil == RetryAt(cfg, row.finishedAt)
      && (after.value.noProgress == 0
          || (row.detail == TypedFailure && after.value.noProgress == StreakIn(before) + 1))
    else if row.status.Completed? then
      after == if before.Some? then Some(Retry(before.value.attempts, 0, None)) else None
    else after == before
  }

  /** The rows from `b` on have different tasks. */
  ghost predicate TasksAreDistinct(b: nat, rows: seq<Row>)
  {
    forall i, j :: b <= i < j < |rows| ==> rows[i].task != rows[j].task
  }

  ghost predicate HasRow(b: nat, rows: seq<Row>, task: string)
  {
    exists i :: b <= i < |rows| && rows[i].task == task
  }

  /** Every entry is what the table held before the run, moved by the run's row for that task. */
  ghost predicate RetriesFollow(cfg: Config, base: Store, s: Store)
  {
    && |base.rows| <= |s.rows|
    && (forall i: nat :: |base.rows| <= i < |s.rows| ==>
          IsMoved(cfg, Entry(base, s.rows[i].task), Entry(s, s.rows[i].task), s.rows[i]))
    && (forall task :: !HasRow(|base.rows|, s.rows, task) ==> Entry(s, task) == Entry(base, task))
  }

  /** One row of the table moved, and with it its task's entry and no other. */
  ghost predicate MovesOne(cfg: Config, s: Store, t: Store, run: nat)
  {
    && run < |s.rows| == |t.rows| && s.rows[run].status.Running? && t.rows[run].task == s.rows[run].task
    && t.rows == s.rows[run := t.rows[run]]
    && IsMoved(cfg, Entry(s, s.rows[run].task), Entry(t, s.rows[run].task), t.rows[run])
    && forall other :: other != s.rows[run].task ==> Entry(t, other) == Entry(s, other)
  }

  lemma OneMoved(cfg: Config, base: Store, s: Store, t: Store, run: nat)
    requires RetriesFollow(cfg, base, s) && |base.rows| <= run && MovesOne(cfg, s, t, run)
    requires TasksAreDistinct(|base.rows|, s.rows)
    ensures RetriesFollow(cfg, base, t)
  {
    var b, task := |base.rows|, s.rows[run].task;
    assert Entry(s, task) == Entry(base, task);
    forall i: nat | b <= i < |t.rows| && i != run
      ensures IsMoved(cfg, Entry(base, t.rows[i].task), Entry(t, t.rows[i].task), t.rows[i])
    {
      assert t.rows[i] == s.rows[i] && s.rows[i].task != task;
    }
    forall other | !HasRow(b, t.rows, other) ensures Entry(t, other) == Entry(base, other) {
      assert t.rows[run].task != other;
      forall i | b <= i < |s.rows| ensures s.rows[i].task != other { assert t.rows[i].task == s.rows[i].task; }
    }
  }

  /** A row was added: a running one that touched no entry, or one that already moved its own. */
  ghost predicate AddsOne(cfg: Config, s: Store, t: Store)
  {
    && |t.rows| == |s.rows| + 1 && t.rows[..|s.rows|] == s.rows
    && var row := t.rows[|s.rows|];
       && IsMoved(cfg, Entry(s, row.task), Entry(t, row.task), row)
       && forall other :: other != row.task ==> Entry(t, other) == Entry(s, other)
  }

  lemma OneAdded(cfg: Config, base: Store, s: Store, t: Store)
    requires RetriesFollow(cfg, base, s) && AddsOne(cfg, s, t) && TasksAreDistinct(|base.rows|, t.rows)
    ensures RetriesFollow(cfg, base, t)
  {
    var b, last := |base.rows|, |s.rows|;
    var task := t.rows[last].task;
    forall i: nat | b <= i < last ensures t.rows[i] == s.rows[i] && s.rows[i].task != task {
      assert t.rows[i] == t.rows[..last][i];
    }
    assert !HasRow(b, s.rows, task);
    forall i: nat | b <= i < |t.rows|
      ensures IsMoved(cfg, Entry(base, t.rows[i].task), Entry(t, t.rows[i].task), t.rows[i])
    {
      if i < last { assert t.rows[i].task != task; }
    }
    forall other | !HasRow(b, t.rows, other) ensures Entry(t, other) == Entry(base, other) {
      assert t.rows[last].task != other;
      forall i | b <= i < |s.rows| ensures s.rows[i].task != other { assert t.rows[i].task == s.rows[i].task; }
    }
  }

  lemma BookkeptTasks(cfg: Config, base: Loop, s: Loop)
    requires Bookkept(cfg, base, s)
    ensures TasksAreDistinct(|base.store.rows|, s.store.rows)
  {
    var b := |base.store.rows|;
    forall i, j | b <= i < j < |s.store.rows| ensures s.store.rows[i].task != s.store.rows[j].task {
      assert OwnRow(b, s, i) && OwnRow(b, s, j);
    }
  }

  // -------------------------------------------------------------------------- one reap

  /** The streak after a natural result: one more for a failure that made no progress, and none otherwise. */
  function StreakAfter(streak: nat, outcome: WorkerOutcome): nat
  {
    if outcome.Ran? && !outcome.completed && outcome.noProgress then streak + 1 else 0
  }

  lemma RecordMoves(cfg: Config, store: Store, task: string, status: RunStatus, noProgress: bool, now: nat)
    requires status in {Completed, Failed, Stalled, TimedOut, AbortedShutdown}
    ensures var t := RecordOutcome(cfg, store, task, status, noProgress, now);
            && t.rows == store.rows
            && (forall other :: other != task ==> Entry(t, other) == Entry(store, other))
            && (if IsAttempt(status) then
                  Entry(t, task) == Some(Retry(AttemptsIn(Entry(store, task)) + 1,
                                               if noProgress then StreakIn(Entry(store, task)) + 1 else 0,
                                               RetryAt(cfg, Some(now))))
                else if status.Completed? then
                  Entry(t, task) == if Entry(store, task).Some?
                                    then Some(Retry(Entry(store, task).value.attempts, 0, None)) else None
                else Entry(t, task) == Entry(store, task))
  {
  }

  lemma ArbitrateRange(outcome: WorkerOutcome, intent: Option<Intent>)
    ensures Arbitrate(outcome, intent).0 in {Completed, Failed, Stalled, TimedOut, AbortedShutdown}
    ensures NoProgress(outcome) ==> Arbitrate(outcome, intent) == (Failed, TypedFailure)
    ensures outcome.Ran? && !outcome.completed && outcome.noProgress <==> NoProgress(outcome)
    ensures !outcome.Cancelled? && !(outcome.Ran? && outcome.completed) ==> Arbitrate(outcome, intent).0 == Failed
    ensures outcome.Ran? && outcome.completed ==> Arbitrate(outcome, intent).0 == Completed
  {
  }

  lemma ReapStoreIs(cfg: Config, s: Loop, i: nat, finish: Finish)
    requires s.phase.Going? && i < |s.slots| && s.store.IsRunning(s.slots[i].run)
    ensures var slot, now := s.slots[i], NowSecs(cfg, s.clock + finish.dt);
            var (status, detail) := Arbitrate(finish.outcome, slot.intent);
            var recorded := RecordOutcome(cfg, s.store, slot.task, status, NoProgress(finish.outcome), now);
            && recorded.rows == s.store.rows
            && ReapAt(cfg, s, i, finish).store
               == recorded.Finish(slot.run, FinalStatus(cfg, recorded, slot.task, status), now,
                                  SpendOf(finish.outcome), detail)
  {
  }

  /** A reap moves one row and its task's entry; a natural result decides the streak. */
  lemma ReapMoves(cfg: Config, s: Loop, i: nat, finish: Finish)
    requires s.phase.Going? && i < |s.slots| && s.store.IsRunning(s.slots[i].run)
    requires s.store.rows[s.slots[i].run].task == s.slots[i].task
    ensures var t, task := ReapAt(cfg, s, i, finish), s.slots[i].task;
            && MovesOne(cfg, s.store, t.store, s.slots[i].run)
            && (!finish.outcome.Cancelled? ==>
                  StreakIn(Entry(t.store, task)) == StreakAfter(StreakIn(Entry(s.store, task)), finish.outcome))
  {
    var slot, now := s.slots[i], NowSecs(cfg, s.clock + finish.dt);
    var (status, detail) := Arbitrate(finish.outcome, slot.intent);
    ReapStoreIs(cfg, s, i, finish);
    ArbitrateRange(finish.outcome, slot.intent);
    RecordMoves(cfg, s.store, slot.task, status, NoProgress(finish.outcome), now);
  }

  lemma SlotIsOwn(cfg: Config, base: Loop, s: Loop, i: nat)
    requires Bookkept(cfg, base, s) && i < |s.slots|
    ensures |base.store.rows| <= s.slots[i].run && s.store.IsRunning(s.slots[i].run)
    ensures s.store.rows[s.slots[i].run].task == s.slots[i].task
  {
    assert SlotMatches(|base.store.rows|, s, s.slots[i]);
  }

  lemma MicroFollows(cfg: Config, base: Loop, s: Loop, m: Micro)
    requires Bookkept(cfg, base, s) && RetriesFollow(cfg, base.store, s.store)
    ensures RetriesFollow(cfg, base.store, Exec(cfg, s, m).store)
  {
    if s.phase.Going? {
      match m
      case ReapSlot(i, finish) =>
        if i < |s.slots| && CanReturn(s.slots[i], finish) {
          SlotIsOwn(cfg, base, s, i);
          BookkeptTasks(cfg, base, s);
          ReapMoves(cfg, s, i, finish);
          OneMoved(cfg, base.store, s.store, ReapAt(cfg, s, i, finish).store, s.slots[i].run);
        }
      case BeatSlot(j, beat) => if j < |s.slots| { BeatFollows(cfg, base, s, j, beat); }
      case _ =>
    }
  }

  lemma BeatFollows(cfg: Config, base: Loop, s: Loop, j: nat, beat: nat)
    requires Bookkept(cfg, base, s) && RetriesFollow(cfg, base.store, s.store) && s.phase.Going? && j < |s.slots|
    ensures RetriesFollow(cfg, base.store, BeatAt(cfg, s, j, beat).store)
  {
    SlotIsOwn(cfg, base, s, j);
    var t := BeatAt(cfg, s, j, beat);
    BookkeptTasks(cfg, base, s);
    OneMoved(cfg, base.store, s.store, t.store, s.slots[j].run);
  }

  lemma {:induction false} TraceFollows(cfg: Config, base: Loop, s: Loop, trace: seq<Micro>)
    requires Bookkept(cfg, base, s) && RetriesFollow(cfg, base.store, s.store)
    ensures RetriesFollow(cfg, base.store, ExecAll(cfg, s, trace).store)
    decreases |trace|
  {
    if trace != [] {
      MicroFollows(cfg, base, s, trace[0]);
      MicroKeeps(cfg, base, s, trace[0]);
      TraceFollows(cfg, base, Exec(cfg, s, trace[0]), trace[1..]);
    }
  }

  // --------------------------------------------------------------------------- planning

  lemma SpawnAdds(cfg: Config, s: Loop, decision: Decision, start: StartIn)
    requires decision.Selected? && s.decisions != [] && s.phase.Going?
    ensures AddsOne(cfg, s.store, Spawn(cfg, s, decision, start).store)
  {
    SpawnEffect(cfg, s, decision, start);
    if start.SpawnFailed? { FailedSpawnAdds(cfg, s, decision, start); }
  }

  lemma FailedSpawnAdds(cfg: Config, s: Loop, decision: Decision, start: StartIn)
    requires decision.Selected? && s.decisions != [] && s.phase.Going? && start.SpawnFailed?
    ensures AddsOne(cfg, s.store, Spawn(cfg, s, decision, start).store)
  {
    SpawnEffect(cfg, s, decision, start);
    var started, now := s.store.Start(Request(cfg, s, decision)), NowSecs(cfg, s.clock);
    RecordMoves(cfg, started, decision.task, Failed, false, now);
    var recorded := RecordOutcome(cfg, started, decision.task, Failed, false, now);
    assert recorded.IsRunning(|s.store.rows|);
    assert Spawn(cfg, s, decision, start).store.retry == recorded.retry;
  }

  lemma PlanAdds(cfg: Config, s: Loop, plan: PlanIn)
    requires s.phase.Going?
    ensures var t := PlanAndSpawn(cfg, s, plan); t.store == s.store || AddsOne(cfg, s.store, t.store)
  {
    var now := NowSecs(cfg, s.clock);
    if Proceeds(cfg, s, now, plan.snapshot) {
      var gated := Gated(cfg, s, plan.snapshot);
      var snapshot := plan.snapshot.(ready := Retain(plan.snapshot.ready, Excluded(cfg, s, now)));
      var decision := CampaignDecision(snapshot, plan.consulted);
      var recorded := gated.(decisions := gated.decisions + [decision],
                             events := DrainEvents(Arrive(gated.events, plan.arrivals), Peeked(cfg, s)));
      if decision.Selected? { SpawnAdds(cfg, recorded, decision, plan.start); }
    }
  }

  /** The guards leave the table to a drain's reaps, to a planned start, or alone. */
  lemma GuardsAdd(cfg: Config, s: Loop, top: nat, step: Iter)
    requires s.phase.Going? && s.drain.stop.None?
    ensures var t := Guards(cfg, s, top, step); t.store == s.store || AddsOne(cfg, s.store, t.store)
  {
    var t := Guards(cfg, s, top, step);
    if t.store != s.store {
      assert t == Pass(cfg, s, top, step.pass);
      PassAdds(cfg, s, top, step.pass);
    }
  }

  lemma PassAdds(cfg: Config, s: Loop, top: nat, pass: PassIn)
    requires s.phase.Going?
    ensures var t := Pass(cfg, s, top, pass); t.store == s.store || AddsOne(cfg, s.store, t.store)
  {
    var t, later := Pass(cfg, s, top, pass), PlanningIn(cfg, s, top, pass);
    if t.store != s.store {
      assert pass.result.PollOk?;
      assert t == PlanAndSpawn(cfg, later, pass.result.plan);
      PlanAdds(cfg, later, pass.result.plan);
    }
  }

  lemma GuardsFollow(cfg: Config, base: Loop, s: Loop, top: nat, step: Iter)
    requires Bookkept(cfg, base, s) && RetriesFollow(cfg, base.store, s.store) && s.phase.Going?
    ensures RetriesFollow(cfg, base.store, Guards(cfg, s, top, step).store)
  {
    var t := Guards(cfg, s, top, step);
    if s.drain.stop.Some? {
      var trace := DrainIsTrace(cfg, s, step.drain);
      TraceFollows(cfg, base, s, trace);
      DrainEnds(cfg, s, top, step);
    } else {
      GuardsAdd(cfg, s, top, step);
      if t.store != s.store {
        GuardsKeep(cfg, base, s, top, step);
        BookkeptTasks(cfg, base, t);
        OneAdded(cfg, base.store, s.store, t.store);
      }
    }
  }

  lemma IterateFollows(cfg: Config, base: Loop, s: Loop, step: Iter)
    requires Bookkept(cfg, base, s) && RetriesFollow(cfg, base.store, s.store)
    ensures RetriesFollow(cfg, base.store, Iterate(cfg, s, step).store)
  {
    if s.phase.Going? {
      var top := Tick(s, step.dtTop);
      TickIsBookkept(cfg, base, s, step.dtTop);
      var trace := SuperviseIsTrace(cfg, top, step.supervise);
      TraceFollows(cfg, base, top, trace);
      var u := Found(cfg, s, step);
      FoundIsFramed(cfg, base, s, step, u);
      var g := Guards(cfg, u, TopOf(s, step), step);
      GuardsFollow(cfg, base, u, TopOf(s, step), step);
      IterateFromFound(cfg, s, step, u, g);
      WaitKeepsCore(cfg, g, step.wait);
    }
  }

  /** Over every run, each task's retry entry is what it was before, moved by the run's one row for that task. */
  lemma {:induction false} RunRetriesFollow(cfg: Config, base: Loop, script: seq<Iter>)
    requires IsStart(base)
    ensures RetriesFollow(cfg, base.store, Run(cfg, base, script).store)
  {
    if script == [] {
    } else {
      var init := script[..|script| - 1];
      RunRetriesFollow(cfg, base, init);
      RunIsBookkept(cfg, base, init);
      IterateFollows(cfg, base, Run(cfg, base, init), script[|script| - 1]);
    }
  }

  // ------------------------------------------------------------------- written entries stand

  /** A row of the run that is over. */
  ghost predicate IsOver(base: Loop, s: Loop, id: nat)
  {
    |base.store.rows| <= id < |s.store.rows| && !s.store.rows[id].status.Running?
  }

  lemma MicroStands(cfg: Config, base: Loop, s: Loop, m: Micro, id: nat)
    requires Bookkept(cfg, base, s) && IsOver(base, s, id)
    ensures var t := Exec(cfg, s, m);
            && IsOver(base, t, id) && t.store.rows[id] == s.store.rows[id]
            && Entry(t.store, s.store.rows[id].task) == Entry(s.store, s.store.rows[id].task)
  {
    MicroEvolves(cfg, s, m);
    assert MayBecome(s.store.rows[id], Exec(cfg, s, m).store.rows[id]);
    if s.phase.Going? && m.ReapSlot? && m.i < |s.slots| && CanReturn(s.slots[m.i], m.finish) {
      SlotIsOwn(cfg, base, s, m.i);
      BookkeptTasks(cfg, base, s);
      ReapMoves(cfg, s, m.i, m.finish);
    }
  }

  lemma {:induction false} TraceStands(cfg: Config, base: Loop, s: Loop, trace: seq<Micro>, id: nat)
    requires Bookkept(cfg, base, s) && IsOver(base, s, id)
    ensures var t := ExecAll(cfg, s, trace);
            && IsOver(base, t, id) && t.store.rows[id] == s.store.rows[id]
            && Entry(t.store, s.store.rows[id].task) == Entry(s.store, s.store.rows[id].task)
    decreases |trace|
  {
    if trace != [] {
      MicroStands(cfg, base, s, trace[0], id);
      MicroKeeps(cfg, base, s, trace[0]);
      TraceStands(cfg, base, Exec(cfg, s, trace[0]), trace[1..], id);
    }
  }

  lemma GuardsStand(cfg: Config, base: Loop, s: Loop, top: nat, step: Iter, id: nat)
    requires Bookkept(cfg, base, s) && IsOver(base, s, id) && s.phase.Going?
    ensures var t := Guards(cfg, s, top, step);
            && IsOver(base, t, id) && t.store.rows[id] == s.store.rows[id]
            && Entry(t.store, s.store.rows[id].task) == Entry(s.store, s.store.rows[id].task)
  {
    var t := Guards(cfg, s, top, step);
    if s.drain.stop.Some? {
      var trace := DrainIsTrace(cfg, s, step.drain);
      TraceStands(cfg, base, s, trace, id);
      DrainEnds(cfg, s, top, step);
    } else {
      GuardsAdd(cfg, s, top, step);
      GuardsKeep(cfg, base, s, top, step);
      BookkeptTasks(cfg, base, t);
      if t.store != s.store { assert t.store.rows[id] == t.store.rows[..|s.store.rows|][id]; }
    }
  }

  lemma IterateStands(cfg: Config, base: Loop, s: Loop, step: Iter, id: nat)
    requires Bookkept(cfg, base, s) && IsOver(base, s, id)
    ensures var t := Iterate(cfg, s, step);
            && IsOver(base, t, id) && t.store.rows[id] == s.store.rows[id]
            && Entry(t.store, s.store.rows[id].task) == Entry(s.store, s.store.rows[id].task)
  {
    if s.phase.Going? {
      var top := Tick(s, step.dtTop);
      TickIsBookkept(cfg, base, s, step.dtTop);
      var trace := SuperviseIsTrace(cfg, top, step.supervise);
      TraceStands(cfg, base, top, trace, id);
      var u := Found(cfg, s, step);
      FoundIsFramed(cfg, base, s, step, u);
      TailStands(cfg, base, s, step, u, id);
    }
  }

  lemma TailStands(cfg: Config, base: Loop, s: Loop, step: Iter, u: Loop, id: nat)
    requires s.phase.Going? && u == Supervise(cfg, Tick(s, step.dtTop), step.supervise) && u.phase.Going?
    requires Bookkept(cfg, base, u) && IsOver(base, u, id)
    ensures var t := Iterate(cfg, s, step);
            && IsOver(base, t, id) && t.store.rows[id] == u.store.rows[id]
            && Entry(t.store, u.store.rows[id].task) == Entry(u.store, u.store.rows[id].task)
  {
    var g := Guards(cfg, u, Tick(s, step.dtTop).clock, step);
    GuardsStand(cfg, base, u, Tick(s, step.dtTop).clock, step, id);
    IterateFromFound(cfg, s, step, u, g);
    WaitKeepsCore(cfg, g, step.wait);
  }

  /** From the end of a row on, its task's entry never changes again in the run. */
  lemma {:induction false} EntriesStand(cfg: Config, base: Loop, s: Loop, script: seq<Iter>, id: nat)
    requires Bookkept(cfg, base, s) && IsOver(base, s, id)
    ensures var t := Run(cfg, s, script);
            && Bookkept(cfg, base, t) && IsOver(base, t, id)
            && Entry(t.store, s.store.rows[id].task) == Entry(s.store, s.store.rows[id].task)
            && t.store.rows[id] == s.store.rows[id]
  {
    if script != [] {
      var init := script[..|script| - 1];
      EntriesStand(cfg, base, s, init, id);
      IterateKeeps(cfg, base, Run(cfg, s, init), script[|script| - 1]);
      IterateStands(cfg, base, Run(cfg, s, init), script[|script| - 1], id);
    }
  }

  // ------------------------------------------------------------- the streak follows the result

  /** The entry says what the handle returned, counted on from the table the run began with. */
  ghost predicate IsTold(base: Loop, s: Loop, run: nat, outcome: WorkerOutcome)
  {
    && IsOver(base, s, run)
    && var task := s.store.rows[run].task;
       StreakIn(Entry(s.store, task)) == StreakAfter(StreakIn(Entry(base.store, task)), outcome)
  }

  lemma ReapTellsOne(cfg: Config, base: Loop, s: Loop, i: nat, finish: Finish)
    requires Bookkept(cfg, base, s) && RetriesFollow(cfg, base.store, s.store) && s.phase.Going? && i < |s.slots|
    requires !finish.outcome.Cancelled?
    ensures IsTold(base, ReapAt(cfg, s, i, finish), s.slots[i].run, finish.outcome)
  {
    var run := s.slots[i].run;
    SlotIsOwn(cfg, base, s, i);
    ReapMoves(cfg, s, i, finish);
    ReapEffect(cfg, s, i, finish);
    assert Entry(s.store, s.slots[i].task) == Entry(base.store, s.slots[i].task) by {
      assert s.store.rows[run].task == s.slots[i].task;
    }
  }

  lemma ToldStands(base: Loop, s: Loop, t: Loop, run: nat, outcome: WorkerOutcome)
    requires IsTold(base, s, run, outcome) && IsOver(base, t, run) && t.store.rows[run] == s.store.rows[run]
    requires Entry(t.store, s.store.rows[run].task) == Entry(s.store, s.store.rows[run].task)
    ensures IsTold(base, t, run, outcome)
  {
  }

  /** The slot holds the handle, and the reap finds this natural result. */
  ghost predicate Reports(s: Loop, finished: map<nat, Finish>, k: nat, run: nat, outcome: WorkerOutcome)
  {
    k < |s.slots| && s.slots[k].run == run && run in finished && finished[run].outcome == outcome
    && !outcome.Cancelled?
  }

  lemma ReapTellsHere(cfg: Config, base: Loop, s: Loop, i: nat, finished: map<nat, Finish>, run: nat,
                      outcome: WorkerOutcome)
    requires Bookkept(cfg, base, s) && RetriesFollow(cfg, base.store, s.store) && s.phase.Going?
    requires Reports(s, finished, i, run, outcome)
    ensures IsTold(base, ReapFrom(cfg, s, i, finished), run, outcome)
  {
    var next := ReapAt(cfg, s, i, finished[run]);
    NextIsSound(cfg, base, s, i, finished[run]);
    ReapTellsOne(cfg, base, s, i, finished[run]);
    RestTells(cfg, base, next, i, finished, run, outcome);
    ReapUnfolds(cfg, s, i, finished);
  }

  lemma ReapSkips(cfg: Config, s: Loop, i: nat, finished: map<nat, Finish>) returns (next: Loop)
    requires SlotsRun(s) && s.phase.Going? && i < |s.slots| && IsFinished(s.slots[i], finished)
    ensures SlotsRun(next) && next.phase.Going? && next.slots == WithoutSlot(s.slots, i)
    ensures next == Exec(cfg, s, ReapSlot(i, finished[s.slots[i].run]))
    ensures ReapFrom(cfg, s, i, finished) == ReapFrom(cfg, next, i, finished)
  {
    next := ReapAt(cfg, s, i, finished[s.slots[i].run]);
    ReapShifts(cfg, s, i, finished[s.slots[i].run]);
    ReapUnfolds(cfg, s, i, finished);
  }

  /** A reap comes to a finished handle after some elementary steps, and goes on from there. */
  lemma {:induction false} ReapReaches(cfg: Config, s: Loop, i: nat, finished: map<nat, Finish>, k: nat)
    returns (pre: seq<Micro>, at: nat)
    requires SlotsRun(s) && s.phase.Going? && i <= k < |s.slots|
    ensures var m := ExecAll(cfg, s, pre);
            && m.phase.Going? && at < |m.slots| && m.slots[at] == s.slots[k]
            && ReapFrom(cfg, s, i, finished) == ReapFrom(cfg, m, at, finished)
    decreases |s.slots| - i
  {
    if k == i {
      pre, at := [], i;
    } else if IsFinished(s.slots[i], finished) {
      var next := ReapSkips(cfg, s, i, finished);
      var rest;
      rest, at := ReapReaches(cfg, next, i, finished, k - 1);
      pre := [ReapSlot(i, finished[s.slots[i].run])] + rest;
      assert pre[1..] == rest;
    } else {
      pre, at := ReapReaches(cfg, s, i + 1, finished, k);
      ReapUnfolds(cfg, s, i, finished);
    }
  }

  /** A reap that finds a natural result tells it. */
  lemma ReapTells(cfg: Config, base: Loop, s: Loop, finished: map<nat, Finish>, k: nat, run: nat,
                  outcome: WorkerOutcome)
    requires Bookkept(cfg, base, s) && RetriesFollow(cfg, base.store, s.store) && s.phase.Going?
    requires Reports(s, finished, k, run, outcome)
    ensures IsTold(base, Reap(cfg, s, finished), run, outcome)
  {
    BookkeptSlotsRun(cfg, base, s);
    var pre, at := ReapReaches(cfg, s, 0, finished, k);
    TraceKeeps(cfg, base, s, pre);
    TraceFollows(cfg, base, s, pre);
    ReapTellsHere(cfg, base, ExecAll(cfg, s, pre), at, finished, run, outcome);
  }

  lemma ReapUnfolds(cfg: Config, s: Loop, i: nat, finished: map<nat, Finish>)
    requires s.phase.Going? && i < |s.slots|
    ensures ReapFrom(cfg, s, i, finished)
              == if IsFinished(s.slots[i], finished)
                 then ReapFrom(cfg, ReapAt(cfg, s, i, finished[s.slots[i].run]), i, finished)
                 else ReapFrom(cfg, s, i + 1, finished)
  {
  }

  lemma NextIsSound(cfg: Config, base: Loop, s: Loop, i: nat, finish: Finish)
    requires Bookkept(cfg, base, s) && RetriesFollow(cfg, base.store, s.store) && s.phase.Going? && i < |s.slots|
    requires CanReturn(s.slots[i], finish)
    ensures var next := ReapAt(cfg, s, i, finish);
            && Bookkept(cfg, base, next) && RetriesFollow(cfg, base.store, next.store) && next.phase.Going?
            && next.slots == WithoutSlot(s.slots, i)
  {
    BookkeptSlotsRun(cfg, base, s);
    ReapShifts(cfg, s, i, finish);
    ReapKeeps(cfg, base, s, i, finish);
    MicroFollows(cfg, base, s, ReapSlot(i, finish));
  }

  lemma RestTells(cfg: Config, base: Loop, s: Loop, i: nat, finished: map<nat, Finish>, run: nat,
                  outcome: WorkerOutcome)
    requires Bookkept(cfg, base, s) && IsTold(base, s, run, outcome)
    ensures IsTold(base, ReapFrom(cfg, s, i, finished), run, outcome)
  {
    var trace := ReapIsTrace(cfg, s, i, finished);
    TraceStands(cfg, base, s, trace, run);
    ToldStands(base, s, ReapFrom(cfg, s, i, finished), run, outcome);
  }

  lemma ReapOfFlightTells(cfg: Config, base: Loop, s: Loop, finished: map<nat, Finish>, run: nat)
    requires Bookkept(cfg, base, s) && RetriesFollow(cfg, base.store, s.store) && s.phase.Going? && InFlight(s, run)
    requires run in finished && !finished[run].outcome.Cancelled?
    ensures IsTold(base, Reap(cfg, s, finished), run, finished[run].outcome)
  {
    var k :| 0 <= k < |s.slots| && s.slots[k].run == run;
    ReapTells(cfg, base, s, finished, k, run, finished[run].outcome);
  }

  /** The state of the second reap is one the machine goes through. */
  lemma KillPointFollows(cfg: Config, base: Loop, s: Loop, step: SuperviseIn)
    requires Bookkept(cfg, base, s) && RetriesFollow(cfg, base.store, s.store) && s.phase.Going?
    ensures RetriesFollow(cfg, base.store, KillPoint(cfg, s, step).store)
  {
    var reaps := ReapIsTrace(cfg, s, 0, step.before);
    TraceFollows(cfg, base, s, reaps);
    FirstReapIsBookkept(cfg, base, s, step);
    var ticked := Tick(Reap(cfg, s, step.before), step.dtBeats);
    var beats := BeatsAreTrace(cfg, ticked, 0, step.beats);
    TraceFollows(cfg, base, ticked, beats);
    BeatenIsBookkept(cfg, base, s, step);
    assert KillPoint(cfg, s, step).store == Beaten(cfg, s, step).store;
  }

  lemma FirstReapTells(cfg: Config, base: Loop, s: Loop, step: SuperviseIn, run: nat)
    requires Bookkept(cfg, base, s) && RetriesFollow(cfg, base.store, s.store) && s.phase.Going? && InFlight(s, run)
    requires run in step.before && !step.before[run].outcome.Cancelled?
    ensures IsTold(base, Supervise(cfg, s, step), run, step.before[run].outcome)
  {
    ReapOfFlightTells(cfg, base, s, step.before, run);
    FirstReapIsBookkept(cfg, base, s, step);
    var ticked := Tick(Reap(cfg, s, step.before), step.dtBeats);
    var beats := BeatsAreTrace(cfg, ticked, 0, step.beats);
    TraceStands(cfg, base, ticked, beats, run);
    BeatenIsBookkept(cfg, base, s, step);
    var beaten := Beaten(cfg, s, step);
    var kills := KillsAreTrace(cfg, beaten, step);
    TraceStands(cfg, base, beaten, kills, run);
    assert Supervise(cfg, s, step) == ExecAll(cfg, beaten, kills);
    ToldStands(base, Reap(cfg, s, step.before), Supervise(cfg, s, step), run, step.before[run].outcome);
  }

  /** A handle that the first reap does not report is in flight at the second. */
  lemma FlightAtKillPoint(cfg: Config, base: Loop, s: Loop, step: SuperviseIn, run: nat)
    requires Bookkept(cfg, base, s) && s.phase.Going? && InFlight(s, run) && run !in step.before
    ensures InFlight(KillPoint(cfg, s, step), run)
  {
    KillPointSettles(cfg, base, s, step, run, Ran(true, false, 0));
    KillPointSettles(cfg, base, s, step, run, Panicked);
    UntakenIsInFlight(KillPoint(cfg, s, step), run);
  }

  lemma SecondReapTells(cfg: Config, base: Loop, s: Loop, step: SuperviseIn, run: nat)
    requires Bookkept(cfg, base, s) && RetriesFollow(cfg, base.store, s.store) && s.phase.Going? && InFlight(s, run)
    requires run !in step.before && run in step.after && !step.after[run].outcome.Cancelled?
    ensures IsTold(base, Supervise(cfg, s, step), run, step.after[run].outcome)
  {
    KillPointIsBookkept(cfg, base, s, step);
    KillPointFollows(cfg, base, s, step);
    FlightAtKillPoint(cfg, base, s, step, run);
    ReapOfFlightTells(cfg, base, KillPoint(cfg, s, step), step.after, run);
  }

  lemma FlightAfterSupervision(cfg: Config, base: Loop, s: Loop, step: SuperviseIn, run: nat)
    requires Bookkept(cfg, base, s) && s.phase.Going? && InFlight(s, run) && run !in step.before && run !in step.after
    ensures InFlight(Supervise(cfg, s, step), run)
  {
    SuperviseSettles(cfg, base, s, step, run, Ran(true, false, 0));
    SuperviseSettles(cfg, base, s, step, run, Panicked);
    UntakenIsInFlight(Supervise(cfg, s, step), run);
  }

  lemma DrainTells(cfg: Config, base: Loop, s: Loop, top: nat, step: Iter, run: nat)
    requires Bookkept(cfg, base, s) && RetriesFollow(cfg, base.store, s.store) && s.phase.Going? && InFlight(s, run)
    requires DrainReaps(s, step.drain) && run in step.drain.reaped && !step.drain.reaped[run].outcome.Cancelled?
    ensures IsTold(base, Guards(cfg, s, top, step), run, step.drain.reaped[run].outcome)
  {
    var outcome, swept := step.drain.reaped[run].outcome, DrainSweep(cfg, s, step.drain);
    SweepTells(cfg, base, s, step.drain, run);
    DrainEnds(cfg, s, top, step);
    ToldStands(base, swept, Guards(cfg, s, top, step), run, outcome);
  }

  lemma KillsKeepFlight(cfg: Config, base: Loop, s: Loop, dt: nat, run: nat)
    requires Bookkept(cfg, base, s) && s.phase.Going? && InFlight(s, run)
    ensures var killed := KillWhere(cfg, Tick(s, dt), Everything, DrainIntent(Tick(s, dt)));
            Bookkept(cfg, base, killed) && killed.store == s.store && killed.phase.Going? && InFlight(killed, run)
  {
    var now := Tick(s, dt);
    TickIsBookkept(cfg, base, s, dt);
    KillKeeps(cfg, base, now, Everything, DrainIntent(now));
    KillKeepsRuns(cfg, now, Everything, DrainIntent(now), run);
  }

  lemma KillKeepsRuns(cfg: Config, s: Loop, rule: KillRule, intent: Intent, run: nat)
    requires InFlight(s, run)
    ensures InFlight(KillWhere(cfg, s, rule, intent), run)
  {
    var k :| 0 <= k < |s.slots| && s.slots[k].run == run;
    assert KillWhere(cfg, s, rule, intent).slots[k].run == run;
  }

  lemma SweepTells(cfg: Config, base: Loop, s: Loop, step: DrainIn, run: nat)
    requires Bookkept(cfg, base, s) && RetriesFollow(cfg, base.store, s.store) && s.phase.Going? && InFlight(s, run)
    requires DrainReaps(s, step) && run in step.reaped && !step.reaped[run].outcome.Cancelled?
    ensures IsTold(base, DrainSweep(cfg, s, step), run, step.reaped[run].outcome)
  {
    var now := Tick(s, step.dt);
    var killed := KillWhere(cfg, now, Everything, DrainIntent(now));
    KillsKeepFlight(cfg, base, s, step.dt, run);
    ReapOfFlightTells(cfg, base, killed, step.reaped, run);
    assert DrainSweep(cfg, s, step) == Reap(cfg, killed, step.reaped);
  }

  /** The iteration that takes a handle tells its result. */
  lemma IterateTells(cfg: Config, base: Loop, s: Loop, step: Iter, run: nat, outcome: WorkerOutcome)
    requires Bookkept(cfg, base, s) && RetriesFollow(cfg, base.store, s.store) && InFlight(s, run)
    requires LoopTakes(cfg, s, step, run) && StepReturns(step, run, outcome) && !outcome.Cancelled?
    ensures IsTold(base, Iterate(cfg, s, step), run, outcome)
  {
    var top := Tick(s, step.dtTop);
    TickIsBookkept(cfg, base, s, step.dtTop);
    var u := Found(cfg, s, step);
    FoundIsFramed(cfg, base, s, step, u);
    if run in step.supervise.before {
      FirstReapTells(cfg, base, top, step.supervise, run);
      TellsOn(cfg, base, s, step, u, run, outcome);
    } else if run in step.supervise.after {
      SecondReapTells(cfg, base, top, step.supervise, run);
      TellsOn(cfg, base, s, step, u, run, outcome);
    } else {
      FlightAfterSupervision(cfg, base, top, step.supervise, run);
      var trace := SuperviseIsTrace(cfg, top, step.supervise);
      TraceFollows(cfg, base, top, trace);
      DrainTellsOn(cfg, base, s, step, u, run, outcome);
    }
  }

  lemma TellsOn(cfg: Config, base: Loop, s: Loop, step: Iter, u: Loop, run: nat, outcome: WorkerOutcome)
    requires s.phase.Going? && u == Supervise(cfg, Tick(s, step.dtTop), step.supervise) && u.phase.Going?
    requires Bookkept(cfg, base, u) && IsTold(base, u, run, outcome)
    ensures IsTold(base, Iterate(cfg, s, step), run, outcome)
  {
    TailStands(cfg, base, s, step, u, run);
    ToldStands(base, u, Iterate(cfg, s, step), run, outcome);
  }

  lemma DrainTellsOn(cfg: Config, base: Loop, s: Loop, step: Iter, u: Loop, run: nat, outcome: WorkerOutcome)
    requires s.phase.Going? && u == Supervise(cfg, Tick(s, step.dtTop), step.supervise) && u.phase.Going?
    requires Bookkept(cfg, base, u) && RetriesFollow(cfg, base.store, u.store) && InFlight(u, run)
    requires DrainReaps(u, step.drain) && run in step.drain.reaped && step.drain.reaped[run].outcome == outcome
    requires !outcome.Cancelled?
    ensures IsTold(base, Iterate(cfg, s, step), run, outcome)
  {
    var g := Guards(cfg, u, Tick(s, step.dtTop).clock, step);
    DrainTells(cfg, base, u, Tick(s, step.dtTop).clock, step, run);
    IterateFromFound(cfg, s, step, u, g);
    WaitKeepsCore(cfg, g, step.wait);
    ToldStands(base, g, Iterate(cfg, s, step), run, outcome);
  }

  ghost predicate FlightOrTold(base: Loop, s: Loop, run: nat, outcome: WorkerOutcome)
  {
    InFlight(s, run) || IsTold(base, s, run, outcome)
  }

  lemma IterateFlightOrTold(cfg: Config, base: Loop, s: Loop, step: Iter, run: nat, outcome: WorkerOutcome)
    requires Bookkept(cfg, base, s) && RetriesFollow(cfg, base.store, s.store)
    requires FlightOrTold(base, s, run, outcome) && !outcome.Cancelled? && StepReturns(step, run, outcome)
    ensures FlightOrTold(base, Iterate(cfg, s, step), run, outcome)
  {
    if !InFlight(s, run) {
      IterateStands(cfg, base, s, step, run);
      ToldStands(base, s, Iterate(cfg, s, step), run, outcome);
    } else if LoopTakes(cfg, s, step, run) {
      IterateTells(cfg, base, s, step, run, outcome);
    } else {
      UnfoundStays(cfg, base, s, step, run);
    }
  }

  /**
  A worker in flight at some point of a run whose handle returns a natural
  result and is taken by the loop: at the end its task's no-progress streak is
  one more than before the run if the result was a failure without progress,
  and zero otherwise, so a completion clears it.
   */
  lemma {:induction false} StreakFollowsResult(cfg: Config, base: Loop, script: seq<Iter>, j: nat, run: nat,
                                               outcome: WorkerOutcome)
    requires IsStart(base) && j <= |script| && InFlight(Run(cfg, base, script[..j]), run)
    requires !outcome.Cancelled? && Returns(script, run, outcome)
    ensures FlightOrTold(base, Run(cfg, base, script), run, outcome)
  {
    if j == |script| {
      assert script[..j] == script;
    } else {
      var init := script[..|script| - 1];
      assert init[..j] == script[..j];
      assert Returns(init, run, outcome);
      StreakFollowsResult(cfg, base, init, j, run, outcome);
      RunIsBookkept(cfg, base, init);
      RunRetriesFollow(cfg, base, init);
      IterateFlightOrTold(cfg, base, Run(cfg, base, init), script[|script| - 1], run, outcome);
    }
  }
}

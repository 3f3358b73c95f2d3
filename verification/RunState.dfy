/**
The durable run-state store: one row per worker run, plus the per-task retry
state that the cross-invocation guards read. Rows are only appended and their
id is their position; a row leaves `Running` at most once.
 */
module RunState {
  import opened Wrappers

  const SECS_PER_DAY: nat := 86_400

  datatype RunStatus =
    | Running | Completed | Failed | Stalled | TimedOut
    | AbortedShutdown | Stuck | Orphaned | Paused

  predicate IsTerminal(status: RunStatus) { !status.Running? && !status.Paused? }

  /** Why a loop stops. */
  datatype StopReason = RunBudgetExhausted | SpendSoftCap | CycleBudget | Shutdown | GuardrailsExhausted

  /** The terminal detail a row carries, one constructor per text the source writes. */
  datatype Detail =
    | NoDetail | NaturalCompletion | TypedFailure | LoopUnusable | WorkerPanicked
    | StallTimeout | WorkerTimeoutKill | DrainAbort(reason: StopReason) | UnattributedDrainAbort
    | AbortedWithoutIntent | SpawnMessage | RestartRecovery

  datatype Row = Row(
    invocation: string, decision: nat, task: string, repo: string, number: u64,
    status: RunStatus, startedAt: nat, beat: nat, beatAt: nat,
    finishedAt: Option<nat>, spend: nat, detail: Detail)

  datatype StartRun = StartRun(
    invocation: string, decision: nat, task: string, repo: string, number: u64, startedAt: nat)

  datatype Retry = Retry(attempts: nat, noProgress: nat, backoffUntil: Option<nat>)

  function NewRow(request: StartRun): Row
  {
    Row(request.invocation, request.decision, request.task, request.repo, request.number,
        Running, request.startedAt, 0, request.startedAt, None, 0, NoDetail)
  }

  function Finished(row: Row, status: RunStatus, now: nat, spend: nat, detail: Detail): Row
  {
    row.(status := status, finishedAt := Some(now), spend := spend, detail := detail)
  }

  function Recovered(row: Row, now: nat): Row
  {
    if row.status.Running? then Finished(row, Orphaned, now, 0, RestartRecovery) else row
  }

  function DayStart(now: nat): nat { now - now % SECS_PER_DAY }

  /** The failures that use up a task's cross-invocation budget. */
  predicate IsAttempt(status: RunStatus)
  {
    status.Failed? || status.Stalled? || status.TimedOut? || status.Stuck?
  }

  // ------------------------------------------------- sums over a row sequence

  /** What one row adds to a total: a status count, a task's attempts, a day's spend or its running rows. */
  datatype Weight =
    | OfStatus(status: RunStatus) | AttemptsOf(task: string) | SpendOn(dayStart: nat) | RunningOn(day: nat)

  predicate StartedOn(row: Row, dayStart: nat)
  {
    dayStart <= row.startedAt < dayStart + SECS_PER_DAY
  }

  function Weigh(w: Weight, row: Row): nat
  {
    match w
    case OfStatus(status) => if row.status == status then 1 else 0
    case AttemptsOf(task) => if row.task == task && IsAttempt(row.status) then 1 else 0
    case SpendOn(dayStart) => if StartedOn(row, dayStart) then row.spend else 0
    case RunningOn(day) => if StartedOn(row, day) && row.status.Running? then 1 else 0
  }

  function Total(w: Weight, rows: seq<Row>): nat
  {
    if rows == [] then 0 else Total(w, rows[..|rows| - 1]) + Weigh(w, rows[|rows| - 1])
  }

  lemma TotalAppend(w: Weight, rows: seq<Row>, row: Row)
    ensures Total(w, rows + [row]) == Total(w, rows) + Weigh(w, row)
  {
    assert (rows + [row])[..|rows|] == rows;
  }

  lemma {:induction false} TotalUpdate(w: Weight, rows: seq<Row>, i: nat, row: Row)
    requires i < |rows|
    ensures Total(w, rows[i := row]) + Weigh(w, rows[i]) == Total(w, rows) + Weigh(w, row)
  {
    var last := |rows| - 1;
    if i == last {
      assert rows[i := row][..last] == rows[..last];
    } else {
      assert rows[i := row][..last] == rows[..last][i := row];
      TotalUpdate(w, rows[..last], i, row);
    }
  }

  lemma {:induction false} TotalZero(w: Weight, rows: seq<Row>)
    requires forall i :: 0 <= i < |rows| ==> Weigh(w, rows[i]) == 0
    ensures Total(w, rows) == 0
  {
    if rows != [] { TotalZero(w, rows[..|rows| - 1]); }
  }

  lemma {:induction false} TotalSame(w: Weight, a: seq<Row>, b: seq<Row>)
    requires |a| == |b|
    requires forall i :: 0 <= i < |a| ==> Weigh(w, a[i]) == Weigh(w, b[i])
    ensures Total(w, a) == Total(w, b)
  {
    if a != [] { TotalSame(w, a[..|a| - 1], b[..|b| - 1]); }
  }

  lemma {:induction false} TotalBelow(v: Weight, w: Weight, rows: seq<Row>)
    requires forall i :: 0 <= i < |rows| ==> Weigh(v, rows[i]) <= Weigh(w, rows[i])
    ensures Total(v, rows) <= Total(w, rows)
  {
    if rows != [] { TotalBelow(v, w, rows[..|rows| - 1]); }
  }

  // ------------------------------------------------------ the store as a value

  datatype Store = Store(rows: seq<Row>, retry: map<string, Retry>) {

    predicate IsRunning(id: nat) { id < |rows| && rows[id].status.Running? }

    /** The new row's id is `|rows|`. */
    function Start(request: StartRun): Store { this.(rows := rows + [NewRow(request)]) }

    /** A beat or a finish on a row that is not running is rejected and writes nothing. */
    function Heartbeat(id: nat, beat: nat, now: nat): Store
    {
      if IsRunning(id) then this.(rows := rows[id := rows[id].(beat := beat, beatAt := now)]) else this
    }

    function Finish(id: nat, status: RunStatus, now: nat, spend: nat, detail: Detail): Store
    {
      if IsTerminal(status) && IsRunning(id)
      then this.(rows := rows[id := Finished(rows[id], status, now, spend, detail)]) else this
    }

    function Recover(now: nat): Store
    {
      this.(rows := seq(|rows|, i requires 0 <= i < |rows| => Recovered(rows[i], now)))
    }

    function DailySpend(now: nat): nat { Total(SpendOn(DayStart(now)), rows) }

    function RecordFailure(task: string, noProgress: bool, until: Option<nat>): Store
    {
      var flag := if noProgress then 1 else 0;
      if task in retry then
        var prior := retry[task];
        this.(retry := retry[task := Retry(prior.attempts + 1, if flag > 0 then prior.noProgress + 1 else 0, until)])
      else this.(retry := retry[task := Retry(1, flag, until)])
    }

    function RecordSuccess(task: string): Store
    {
      if task in retry
      then this.(retry := retry[task := retry[task].(noProgress := 0, backoffUntil := None)]) else this
    }

    function Attempts(task: string): nat { if task in retry then retry[task].attempts else 0 }
  }

  // ------------------------------------------------- any sequence of operations

  datatype StoreOp =
    | OpStart(request: StartRun)
    | OpHeartbeat(id: nat, beat: nat, at: nat)
    | OpFinish(run: nat, status: RunStatus, when: nat, spend: nat, detail: Detail)
    | OpRecover(now: nat)
    | OpFailure(task: string, noProgress: bool, until: Option<nat>)
    | OpSuccess(done: string)

  function Apply(store: Store, op: StoreOp): Store
  {
    match op
    case OpStart(request) => store.Start(request)
    case OpHeartbeat(id, beat, at) => store.Heartbeat(id, beat, at)
    case OpFinish(run, status, when, spend, detail) => store.Finish(run, status, when, spend, detail)
    case OpRecover(now) => store.Recover(now)
    case OpFailure(task, noProgress, until) => store.RecordFailure(task, noProgress, until)
    case OpSuccess(done) => store.RecordSuccess(done)
  }

  function ApplyAll(store: Store, ops: seq<StoreOp>): Store
  {
    if ops == [] then store else Apply(ApplyAll(store, ops[..|ops| - 1]), ops[|ops| - 1])
  }

  /** What a later row may be, given the row it was. */
  predicate MayBecome(before: Row, after: Row)
  {
    && after.invocation == before.invocation && after.decision == before.decision
    && after.task == before.task && after.repo == before.repo && after.number == before.number
    && after.startedAt == before.startedAt
    && (!before.status.Running? ==> after == before)
    && (before.status.Running? ==>
          after.status in {Running, Completed, Failed, Stalled, TimedOut, AbortedShutdown, Stuck, Orphaned})
  }

  predicate Extends(before: Store, after: Store)
  {
    && |before.rows| <= |after.rows|
    && forall i :: 0 <= i < |before.rows| ==> MayBecome(before.rows[i], after.rows[i])
  }

  /** A running row has recorded no spend yet: only `finish` writes that column. */
  predicate RunningIsFree(store: Store)
  {
    forall i :: 0 <= i < |store.rows| && store.rows[i].status.Running? ==> store.rows[i].spend == 0
  }

  /**
  Over any sequence of operations no row disappears or changes identity, a
  terminal row and a paused row stay exactly as they are, and a running row
  either stays running or becomes terminal.
   */
  lemma {:induction false} RowsOnlyTerminate(store: Store, ops: seq<StoreOp>)
    ensures Extends(store, ApplyAll(store, ops))
    ensures RunningIsFree(store) ==> RunningIsFree(ApplyAll(store, ops))
  {
    if ops != [] { RowsOnlyTerminate(store, ops[..|ops| - 1]); }
  }

  // ------------------------------------------- what a row says about its operations

  /** The row bears what its start brought. */
  predicate IsStartedBy(row: Row, request: StartRun)
  {
    && row.invocation == request.invocation && row.decision == request.decision && row.task == request.task
    && row.repo == request.repo && row.number == request.number && row.startedAt == request.startedAt
  }

  /** The operation ends the run, and the row bears what it brought, its second included. */
  predicate IsEndedBy(id: nat, row: Row, op: StoreOp)
  {
    match op
    case OpFinish(run, status, when, spend, detail) =>
      run == id && row.status == status && row.finishedAt == Some(when) && row.spend == spend && row.detail == detail
    case OpRecover(now) =>
      row.status == Orphaned && row.finishedAt == Some(now) && row.spend == 0 && row.detail == RestartRecovery
    case _ => false
  }

  /** A row that was there when the operations began was running then. */
  predicate NotYetOver(store: Store, id: nat) { id < |store.rows| ==> store.rows[id].status.Running? }

  /** A row that the operations added was added by one start, whose request it bears. */
  lemma {:induction false} RowsAreStarted(store: Store, ops: seq<StoreOp>, id: nat) returns (k: nat)
    requires |store.rows| <= id < |ApplyAll(store, ops).rows|
    ensures k < |ops| && ops[k].OpStart? && |ApplyAll(store, ops[..k]).rows| == id
    ensures IsStartedBy(ApplyAll(store, ops).rows[id], ops[k].request)
  {
    var last := |ops| - 1;
    var init := ops[..last];
    if id < |ApplyAll(store, init).rows| {
      k := RowsAreStarted(store, init, id);
      assert ops[..k] == init[..k];
    } else {
      k := last;
    }
  }

  /** A row that is terminal was running until one operation ended it, and bears what that one brought. */
  lemma {:induction false} RowsAreEnded(store: Store, ops: seq<StoreOp>, id: nat) returns (k: nat)
    requires id < |ApplyAll(store, ops).rows| && NotYetOver(store, id)
    requires IsTerminal(ApplyAll(store, ops).rows[id].status)
    ensures k < |ops| && ApplyAll(store, ops[..k]).IsRunning(id)
    ensures IsEndedBy(id, ApplyAll(store, ops).rows[id], ops[k])
  {
    var last := |ops| - 1;
    var init := ops[..last];
    var before := ApplyAll(store, init);
    if before.IsRunning(id) {
      k := last;
    } else {
      RowsOnlyTerminate(store, init);
      k := RowsAreEnded(store, init, id);
      assert ops[..k] == init[..k];
    }
  }

  /** The last beat the store accepted for the row, with its second. */
  function LastBeat(store: Store, ops: seq<StoreOp>, id: nat): Option<(nat, nat)>
  {
    if ops == [] then None
    else
      var last := |ops| - 1;
      var op := ops[last];
      if op.OpHeartbeat? && op.id == id && ApplyAll(store, ops[..last]).IsRunning(id) then Some((op.beat, op.at))
      else LastBeat(store, ops[..last], id)
  }

  /** No running row bears an end. */
  predicate RunningIsOpen(store: Store)
  {
    forall i :: 0 <= i < |store.rows| && store.rows[i].status.Running? ==>
      store.rows[i].finishedAt.None? && store.rows[i].spend == 0 && store.rows[i].detail == NoDetail
  }

  /** A row bears the last accepted beat, or else its start's, and no end while it runs. */
  lemma {:induction false} RowsBearTheirBeat(store: Store, ops: seq<StoreOp>, id: nat)
    requires id < |ApplyAll(store, ops).rows| && RunningIsOpen(store)
    ensures RunningIsOpen(ApplyAll(store, ops))
    ensures BearsBeat(store, id, ApplyAll(store, ops).rows[id], LastBeat(store, ops, id))
  {
    StaysOpen(store, ops);
    if ops != [] {
      var init := ops[..|ops| - 1];
      RowsOnlyTerminate(store, init);
      if id < |ApplyAll(store, init).rows| { RowsBearTheirBeat(store, init, id); }
      else { NoBeatBefore(store, init, id); }
    }
  }

  predicate BearsBeat(store: Store, id: nat, row: Row, beat: Option<(nat, nat)>)
  {
    if beat.Some? then row.beat == beat.value.0 && row.beatAt == beat.value.1
    else if id < |store.rows| then row.beat == store.rows[id].beat && row.beatAt == store.rows[id].beatAt
    else row.beat == 0 && row.beatAt == row.startedAt
  }

  lemma {:induction false} StaysOpen(store: Store, ops: seq<StoreOp>)
    requires RunningIsOpen(store)
    ensures RunningIsOpen(ApplyAll(store, ops))
  {
    if ops != [] { StaysOpen(store, ops[..|ops| - 1]); }
  }

  lemma {:induction false} NoBeatBefore(store: Store, ops: seq<StoreOp>, id: nat)
    requires |ApplyAll(store, ops).rows| <= id
    ensures LastBeat(store, ops, id).None?
  {
    if ops != [] { NoBeatBefore(store, ops[..|ops| - 1], id); }
  }

  /**
  Recovery orphans exactly the running rows, a second recovery at any time
  changes nothing, and no day's recorded spend moves.
   */
  lemma RecoveryIsExact(store: Store, now: nat, later: nat)
    requires RunningIsFree(store)
    ensures forall i :: 0 <= i < |store.rows| ==>
              (store.Recover(now).rows[i] != store.rows[i] <==> store.rows[i].status.Running?)
    ensures forall i: nat :: store.IsRunning(i) ==> store.Recover(now).rows[i].status.Orphaned?
    ensures forall i: nat :: !store.Recover(now).IsRunning(i)
    ensures store.Recover(now).Recover(later) == store.Recover(now)
    ensures store.Recover(now).retry == store.retry
    ensures forall t :: store.Recover(now).DailySpend(t) == store.DailySpend(t)
  {
    var after := store.Recover(now);
    assert after.Recover(later).rows == after.rows;
    forall t ensures after.DailySpend(t) == store.DailySpend(t) {
      TotalSame(SpendOn(DayStart(t)), after.rows, store.rows);
    }
  }

  // ----------------------------------------------------------- retry histories

  /** What one operation adds to a task's history: `Some(noProgress)` for a failure, `None` for a success. */
  function OutcomeOf(op: StoreOp, task: string): seq<Option<bool>>
  {
    if op.OpFailure? && op.task == task then [Some(op.noProgress)]
    else if op.OpSuccess? && op.done == task then [None]
    else []
  }

  /** A task's outcomes in order. */
  function Outcomes(ops: seq<StoreOp>, task: string): seq<Option<bool>>
  {
    if ops == [] then [] else Outcomes(ops[..|ops| - 1], task) + OutcomeOf(ops[|ops| - 1], task)
  }

  /** Length of the longest suffix made of no-progress failures only. */
  predicate IsTrailingRun(history: seq<Option<bool>>, n: nat)
  {
    && n <= |history|
    && (forall i :: |history| - n <= i < |history| ==> history[i] == Some(true))
    && (n < |history| ==> history[|history| - n - 1] != Some(true))
  }

  function Failures(history: seq<Option<bool>>): nat
  {
    if history == [] then 0
    else Failures(history[..|history| - 1]) + if history[|history| - 1].Some? then 1 else 0
  }

  function Streak(store: Store, task: string): nat { if task in store.retry then store.retry[task].noProgress else 0 }

  /** The retry entry of a task says exactly what its history says. */
  predicate EntryMatches(store: Store, task: string, history: seq<Option<bool>>)
  {
    && store.Attempts(task) == Failures(history)
    && (task in store.retry <==> Failures(history) > 0)
    && IsTrailingRun(history, Streak(store, task))
  }

  lemma FailureMatches(store: Store, task: string, noProgress: bool, until: Option<nat>, history: seq<Option<bool>>)
    requires EntryMatches(store, task, history)
    ensures EntryMatches(store.RecordFailure(task, noProgress, until), task, history + [Some(noProgress)])
  {
    var more := history + [Some(noProgress)];
    assert more[..|history|] == history;
    if task !in store.retry { NoFailuresNoStreak(history); }
  }

  lemma SuccessMatches(store: Store, task: string, history: seq<Option<bool>>)
    requires EntryMatches(store, task, history)
    ensures EntryMatches(store.RecordSuccess(task), task, history + [None])
  {
    assert (history + [None])[..|history|] == history;
  }

  lemma StepMatches(store: Store, op: StoreOp, task: string, history: seq<Option<bool>>)
    requires EntryMatches(store, task, history)
    ensures EntryMatches(Apply(store, op), task, history + OutcomeOf(op, task))
  {
    if op.OpFailure? && op.task == task {
      FailureMatches(store, task, op.noProgress, op.until, history);
    } else if op.OpSuccess? && op.done == task {
      SuccessMatches(store, task, history);
    } else {
      assert history + [] == history;
    }
  }

  /**
  Starting from an empty retry table, a task's streak is the trailing run of
  no-progress failures in its history and its attempt total is the number of
  failures; a task with no recorded failure has no entry.
   */
  lemma {:induction false} RetryStateIsHistory(rows: seq<Row>, ops: seq<StoreOp>, task: string)
    ensures EntryMatches(ApplyAll(Store(rows, map[]), ops), task, Outcomes(ops, task))
  {
    if ops != [] {
      var before := ops[..|ops| - 1];
      RetryStateIsHistory(rows, before, task);
      StepMatches(ApplyAll(Store(rows, map[]), before), ops[|ops| - 1], task, Outcomes(before, task));
    }
  }

  lemma {:induction false} NoFailuresNoStreak(history: seq<Option<bool>>)
    requires Failures(history) == 0
    ensures forall i :: 0 <= i < |history| ==> history[i].None?
  {
    if history != [] { NoFailuresNoStreak(history[..|history| - 1]); }
  }

  // ------------------------------------------------------ the store as an object

  /** The mutable store: every method moves the abstract value as the value's own operation says. */
  class LoopRunStore {
    var rows: seq<Row>
    var retry: map<string, Retry>

    ghost function View(): Store reads this { Store(rows, retry) }

    constructor ()
      ensures View() == Store([], map[])
    {
      rows, retry := [], map[];
    }

    method Start(request: StartRun) returns (id: nat)
      modifies this
      ensures View() == old(View()).Start(request)
      ensures id == |old(rows)| && |rows| == id + 1 && rows[..id] == old(rows) && IsStartedBy(rows[id], request)
      ensures rows[id].status.Running? && rows[id].beatAt == request.startedAt && rows[id].finishedAt.None?
    {
      id := |rows|;
      rows := rows + [NewRow(request)];
    }

    method Heartbeat(id: nat, beat: nat, now: nat) returns (ok: bool)
      modifies this
      ensures ok == old(View()).IsRunning(id)
      ensures View() == old(View()).Heartbeat(id, beat, now)
      ensures ok ==> rows == old(rows)[id := old(rows)[id].(beat := beat, beatAt := now)]
    {
      ok := id < |rows| && rows[id].status.Running?;
      if ok { rows := rows[id := rows[id].(beat := beat, beatAt := now)]; }
    }

    method Finish(id: nat, status: RunStatus, now: nat, spend: nat, detail: Detail) returns (ok: bool)
      modifies this
      ensures ok == (status !in {Running, Paused} && old(View()).IsRunning(id))
      ensures View() == old(View()).Finish(id, status, now, spend, detail)
      ensures ok ==> |rows| == |old(rows)| && forall i :: 0 <= i < |rows| && i != id ==> rows[i] == old(rows)[i]
      ensures ok ==> IsEndedBy(id, rows[id], OpFinish(id, status, now, spend, detail))
      ensures ok ==> rows[id].beat == old(rows)[id].beat && rows[id].beatAt == old(rows)[id].beatAt
      ensures !ok ==> rows == old(rows)
    {
      if !IsTerminal(status) { return false; }
      ok := id < |rows| && rows[id].status.Running?;
      if ok {
        rows := rows[id := rows[id].(status := status, finishedAt := Some(now), spend := spend, detail := detail)];
      }
    }

    /** Sums the spend of the rows that started on the day of `now`. */
    method DailySpend(now: nat) returns (sum: nat)
      ensures sum == View().DailySpend(now)
    {
      var dayStart := now - now % SECS_PER_DAY;
      var dayEnd := dayStart + SECS_PER_DAY;
      sum := 0;
      for i := 0 to |rows|
        invariant sum == Total(SpendOn(dayStart), rows[..i])
      {
        if rows[i].startedAt >= dayStart && rows[i].startedAt < dayEnd { sum := sum + rows[i].spend; }
        assert rows[..i + 1][..i] == rows[..i];
      }
      assert rows[..|rows|] == rows;
    }

    /** One transaction: collect the running ids, orphan each, and report them in order. */
    method RecoverRunningRows(now: nat) returns (ids: seq<nat>)
      modifies this
      ensures View() == old(View()).Recover(now)
      ensures forall i: nat :: i in ids <==> old(View()).IsRunning(i)
      ensures forall i, j :: 0 <= i < j < |ids| ==> ids[i] < ids[j]
      ensures |rows| == |old(rows)|
      ensures forall i: nat :: i in ids ==> i < |rows| && IsEndedBy(i, rows[i], OpRecover(now))
      ensures forall i: nat :: i < |rows| && i !in ids ==> rows[i] == old(rows)[i]
    {
      ids := [];
      for i := 0 to |rows|
        invariant forall k: nat :: k in ids <==> k < i && rows[k].status.Running?
        invariant forall a, b :: 0 <= a < b < |ids| ==> ids[a] < ids[b]
        invariant forall a :: 0 <= a < |ids| ==> ids[a] < i
        invariant View() == old(View())
      {
        if rows[i].status.Running? { ids := ids + [i]; }
      }
      ghost var before := rows;
      for k := 0 to |ids|
        invariant retry == old(retry) && |rows| == |before|
        invariant forall i :: 0 <= i < |rows| ==>
                    rows[i] == if i in ids[..k] then Recovered(before[i], now) else before[i]
      {
        assert ids[k] in ids && ids[k] !in ids[..k];
        if rows[ids[k]].status.Running? {
          rows := rows[ids[k] := rows[ids[k]].(status := Orphaned, finishedAt := Some(now),
                                               spend := 0, detail := RestartRecovery)];
        }
      }
      assert ids[..|ids|] == ids;
      assert rows == old(View()).Recover(now).rows;
    }

    method RecordTaskFailure(task: string, noProgress: bool, until: Option<nat>)
      modifies this
      ensures View() == old(View()).RecordFailure(task, noProgress, until)
      ensures View().Attempts(task) == old(View()).Attempts(task) + 1 && rows == old(rows)
      ensures forall other :: other != task ==> View().Attempts(other) == old(View()).Attempts(other)
    {
      var flag := if noProgress then 1 else 0;
      if task in retry {
        var streak := if flag > 0 then retry[task].noProgress + 1 else 0;
        retry := retry[task := Retry(retry[task].attempts + 1, streak, until)];
      } else {
        retry := retry[task := Retry(1, flag, until)];
      }
    }

    method RecordTaskSuccess(task: string)
      modifies this
      ensures View() == old(View()).RecordSuccess(task)
      ensures forall other :: View().Attempts(other) == old(View()).Attempts(other)
      ensures task in retry ==> retry[task].noProgress == 0 && retry[task].backoffUntil.None?
    {
      if task in retry { retry := retry[task := retry[task].(noProgress := 0, backoffUntil := None)]; }
    }
  }
}

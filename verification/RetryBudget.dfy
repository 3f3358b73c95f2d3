/**
The cross-invocation guards as properties of the durable store: attempt
totals, stuck rows and backoff windows, and what each store write does to them.
 */
module RetryBudget {
  import opened Wrappers
  import opened RunState
  import opened LoopModel

  // ------------------------------------------------------------- the properties

  /** A task's attempt total is the number of its failed, stalled, timed-out or stuck rows. */
  ghost predicate AttemptsAreRows(store: Store)
  {
    forall task :: store.Attempts(task) == Total(AttemptsOf(task), store.rows)
  }

  /** No later row belongs to the task of row `i`. */
  ghost predicate IsLastOfTask(rows: seq<Row>, i: nat)
  {
    i < |rows| && forall j :: i < j < |rows| ==> rows[j].task != rows[i].task
  }

  ghost predicate HasStuckRow(rows: seq<Row>, task: string)
  {
    exists i: nat :: i < |rows| && rows[i].task == task && rows[i].status.Stuck?
  }

  /**
  With a budget of `m` attempts: totals never exceed it, a stuck row is its
  task's last row, and a task has one exactly when its budget is used up.
   */
  ghost predicate BudgetHolds(m: nat, store: Store)
  {
    && AttemptsAreRows(store)
    && (forall task :: store.Attempts(task) <= m)
    && (forall task :: store.Attempts(task) == m <==> HasStuckRow(store.rows, task))
    && (forall i: nat :: i < |store.rows| && store.rows[i].status.Stuck? ==> IsLastOfTask(store.rows, i))
  }

  ghost predicate PastBy(row: Row, now: nat)
  {
    row.startedAt <= now && (row.finishedAt.Some? ==> row.finishedAt.value <= now)
  }

  /** When the window after a counted failure ends. */
  function WindowEnd(backoff: nat, row: Row): nat
  {
    (if row.finishedAt.Some? then row.finishedAt.value else 0) + backoff
  }

  /** The window after row `i` is over, or the task's entry still keeps it closed. */
  ghost predicate WindowIsArmed(backoff: nat, store: Store, now: nat, i: nat)
    requires i < |store.rows|
  {
    var row := store.rows[i];
    || WindowEnd(backoff, row) <= now
    || (row.task in store.retry && store.retry[row.task].backoffUntil.Some?
        && WindowEnd(backoff, row) <= store.retry[row.task].backoffUntil.value)
  }

  /** A task's row never starts inside a window that one of its failures opened. */
  ghost predicate WindowsAreKept(backoff: nat, rows: seq<Row>)
  {
    forall i: nat, j: nat :: i < j < |rows| && rows[i].task == rows[j].task && IsAttempt(rows[i].status)
      ==> WindowEnd(backoff, rows[i]) <= rows[j].startedAt
  }

  ghost predicate PacingHolds(backoff: nat, store: Store, now: nat)
  {
    && (forall i: nat :: i < |store.rows| ==> PastBy(store.rows[i], now))
    && (forall i: nat :: i < |store.rows| && IsAttempt(store.rows[i].status) ==> store.rows[i].finishedAt.Some?)
    && WindowsAreKept(backoff, store.rows)
    && (forall i: nat :: i < |store.rows| && IsAttempt(store.rows[i].status) ==> WindowIsArmed(backoff, store, now, i))
  }

  // ---------------------------------------------------------------- store steps

  /** The store after a run's outcome is recorded and its row finished. */
  function Settled(cfg: Config, store: Store, run: nat, task: string, status: RunStatus, detail: Detail,
                   noProgress: bool, spend: nat, now: nat): Store
  {
    var recorded := RecordOutcome(cfg, store, task, status, noProgress, now);
    recorded.Finish(run, FinalStatus(cfg, recorded, task, status), now, spend, detail)
  }

  /** The row is running and is its task's last. */
  ghost predicate CanSettle(store: Store, run: nat, task: string)
  {
    store.IsRunning(run) && store.rows[run].task == task && IsLastOfTask(store.rows, run)
  }

  function SettledRow(cfg: Config, store: Store, run: nat, task: string, status: RunStatus, detail: Detail,
                      noProgress: bool, spend: nat, now: nat): Row
    requires run < |store.rows|
  {
    var recorded := RecordOutcome(cfg, store, task, status, noProgress, now);
    Finished(store.rows[run], FinalStatus(cfg, recorded, task, status), now, spend, detail)
  }

  /** A settling changes one row and, for a counted failure, one attempt total. */
  lemma SettledEffect(cfg: Config, store: Store, run: nat, task: string, status: RunStatus, detail: Detail,
                      noProgress: bool, spend: nat, now: nat)
    requires store.IsRunning(run) && IsTerminal(status)
    ensures var t := Settled(cfg, store, run, task, status, detail, noProgress, spend, now);
            var row := SettledRow(cfg, store, run, task, status, detail, noProgress, spend, now);
            && t.rows == store.rows[run := row]
            && (forall other :: other != task ==>
                  && t.Attempts(other) == store.Attempts(other)
                  && (other in t.retry <==> other in store.retry)
                  && (other in store.retry ==> t.retry[other] == store.retry[other]))
            && ((status.Failed? || status.Stalled? || status.TimedOut?) ==>
                  task in t.retry && t.retry[task].backoffUntil == BackoffUntil(cfg, now))
            && t.Attempts(task) == store.Attempts(task)
                 + (if status.Failed? || status.Stalled? || status.TimedOut? then 1 else 0)
            && IsTerminal(row.status)
  {
  }

  lemma SettledAttempts(cfg: Config, store: Store, run: nat, task: string, status: RunStatus, detail: Detail,
                        noProgress: bool, spend: nat, now: nat)
    requires CanSettle(store, run, task) && IsTerminal(status) && !status.Stuck? && AttemptsAreRows(store)
    ensures AttemptsAreRows(Settled(cfg, store, run, task, status, detail, noProgress, spend, now))
  {
    SettledEffect(cfg, store, run, task, status, detail, noProgress, spend, now);
    var t := Settled(cfg, store, run, task, status, detail, noProgress, spend, now);
    var row := SettledRow(cfg, store, run, task, status, detail, noProgress, spend, now);
    forall other ensures t.Attempts(other) == Total(AttemptsOf(other), t.rows) {
      TotalUpdate(AttemptsOf(other), store.rows, run, row);
      assert store.Attempts(other) == Total(AttemptsOf(other), store.rows);
    }
  }

  lemma SettledStuckRows(before: seq<Row>, run: nat, row: Row, task: string)
    requires run < |before| && before[run].status.Running? && before[run].task == row.task
    ensures HasStuckRow(before[run := row], task) <==>
              HasStuckRow(before, task) || (row.status.Stuck? && row.task == task)
  {
    var after := before[run := row];
    if HasStuckRow(before, task) {
      var i: nat :| i < |before| && before[i].task == task && before[i].status.Stuck?;
      assert after[i].task == task && after[i].status.Stuck?;
    }
    if row.status.Stuck? && row.task == task { assert after[run].task == task && after[run].status.Stuck?; }
  }

  /** Settling a run whose task has an attempt left keeps the budget, and closes it at the limit. */
  lemma SettleKeepsBudget(cfg: Config, store: Store, run: nat, task: string, status: RunStatus, detail: Detail,
                          noProgress: bool, spend: nat, now: nat)
    requires CanSettle(store, run, task) && IsTerminal(status) && !status.Stuck?
    requires cfg.maxTaskAttempts > 0 && BudgetHolds(cfg.maxTaskAttempts, store)
             && store.Attempts(task) < cfg.maxTaskAttempts
    ensures BudgetHolds(cfg.maxTaskAttempts, Settled(cfg, store, run, task, status, detail, noProgress, spend, now))
  {
    var t := Settled(cfg, store, run, task, status, detail, noProgress, spend, now);
    var row := SettledRow(cfg, store, run, task, status, detail, noProgress, spend, now);
    SettledEffect(cfg, store, run, task, status, detail, noProgress, spend, now);
    SettledAttempts(cfg, store, run, task, status, detail, noProgress, spend, now);
    forall other ensures t.Attempts(other) == cfg.maxTaskAttempts <==> HasStuckRow(t.rows, other) {
      SettledStuckRows(store.rows, run, row, other);
      assert store.Attempts(other) == cfg.maxTaskAttempts <==> HasStuckRow(store.rows, other);
    }
    forall i: nat | i < |t.rows| && t.rows[i].status.Stuck? ensures IsLastOfTask(t.rows, i) {
      assert IsLastOfTask(store.rows, if i == run then run else i);
    }
  }

  lemma SettleKeepsPacing(cfg: Config, store: Store, run: nat, task: string, status: RunStatus, detail: Detail,
                          noProgress: bool, spend: nat, now: nat)
    requires CanSettle(store, run, task) && IsTerminal(status) && !status.Stuck?
    requires PacingHolds(BackoffSecs(cfg), store, now)
    ensures PacingHolds(BackoffSecs(cfg), Settled(cfg, store, run, task, status, detail, noProgress, spend, now), now)
  {
    var backoff := BackoffSecs(cfg);
    var t := Settled(cfg, store, run, task, status, detail, noProgress, spend, now);
    SettledEffect(cfg, store, run, task, status, detail, noProgress, spend, now);
    forall i: nat | i < |t.rows| && IsAttempt(t.rows[i].status) ensures WindowIsArmed(backoff, t, now, i) {
      if i == run {
      } else if t.rows[i].task == task {
        assert i < run by { assert IsLastOfTask(store.rows, run); }
        assert PastBy(store.rows[run], now);
        assert WindowEnd(backoff, store.rows[i]) <= store.rows[run].startedAt <= now;
      } else {
        assert WindowIsArmed(backoff, store, now, i);
      }
    }
  }

  /** A new row for a task no guard skips. */
  ghost predicate CanStart(cfg: Config, store: Store, task: string, now: nat)
  {
    task in store.retry ==> !OverBudget(cfg, store.retry[task]) && !InBackoff(cfg, store.retry[task], now)
  }

  lemma StartKeepsBudget(cfg: Config, store: Store, request: StartRun)
    requires cfg.maxTaskAttempts > 0 && BudgetHolds(cfg.maxTaskAttempts, store)
    requires store.Attempts(request.task) < cfg.maxTaskAttempts
    ensures BudgetHolds(cfg.maxTaskAttempts, store.Start(request))
  {
    var t := store.Start(request);
    forall task ensures t.Attempts(task) == Total(AttemptsOf(task), t.rows) {
      TotalAppend(AttemptsOf(task), store.rows, NewRow(request));
      assert store.Attempts(task) == Total(AttemptsOf(task), store.rows);
    }
    forall task ensures HasStuckRow(t.rows, task) <==> HasStuckRow(store.rows, task) {
      if HasStuckRow(store.rows, task) {
        var i: nat :| i < |store.rows| && store.rows[i].task == task && store.rows[i].status.Stuck?;
        assert t.rows[i] == store.rows[i];
      }
    }
    forall i: nat | i < |t.rows| && t.rows[i].status.Stuck? ensures IsLastOfTask(t.rows, i) {
      assert IsLastOfTask(store.rows, i);
      assert HasStuckRow(store.rows, store.rows[i].task);
      assert store.Attempts(store.rows[i].task) == cfg.maxTaskAttempts;
    }
  }

  lemma StartKeepsPacing(cfg: Config, store: Store, request: StartRun)
    requires PacingHolds(BackoffSecs(cfg), store, request.startedAt)
             && CanStart(cfg, store, request.task, request.startedAt)
    ensures PacingHolds(BackoffSecs(cfg), store.Start(request), request.startedAt)
  {
    var backoff := BackoffSecs(cfg);
    var t := store.Start(request);
    forall i: nat, j: nat | i < j < |t.rows| && t.rows[i].task == t.rows[j].task && IsAttempt(t.rows[i].status)
      ensures WindowEnd(backoff, t.rows[i]) <= t.rows[j].startedAt
    {
      if j == |store.rows| { assert WindowIsArmed(backoff, store, request.startedAt, i); }
    }
    forall i: nat | i < |t.rows| && IsAttempt(t.rows[i].status)
      ensures WindowIsArmed(backoff, t, request.startedAt, i)
    {
      assert WindowIsArmed(backoff, store, request.startedAt, i);
    }
  }

  /** Rows that keep status, task and times, and an unchanged retry table, keep everything. */
  ghost predicate SameGuards(store: Store, t: Store)
  {
    && t.retry == store.retry && |t.rows| == |store.rows|
    && forall i: nat :: i < |store.rows| ==>
         && t.rows[i].task == store.rows[i].task && t.rows[i].startedAt == store.rows[i].startedAt
         && (t.rows[i] == store.rows[i]
             || (!IsAttempt(t.rows[i].status) && !IsAttempt(store.rows[i].status)))
  }

  lemma SameGuardsKeepBudget(m: nat, store: Store, t: Store)
    requires BudgetHolds(m, store) && SameGuards(store, t)
    ensures BudgetHolds(m, t)
  {
    forall task ensures t.Attempts(task) == Total(AttemptsOf(task), t.rows) {
      TotalSame(AttemptsOf(task), store.rows, t.rows);
      assert store.Attempts(task) == Total(AttemptsOf(task), store.rows);
    }
    forall task ensures HasStuckRow(t.rows, task) <==> HasStuckRow(store.rows, task) {
      assert forall i: nat :: i < |t.rows| ==>
               (t.rows[i].task == task && t.rows[i].status.Stuck? <==>
                  store.rows[i].task == task && store.rows[i].status.Stuck?);
    }
    forall i: nat | i < |t.rows| && t.rows[i].status.Stuck? ensures IsLastOfTask(t.rows, i) {
      assert IsLastOfTask(store.rows, i);
    }
  }

  lemma SameGuardsKeepPacing(backoff: nat, store: Store, t: Store, now: nat, later: nat)
    requires PacingHolds(backoff, store, now) && SameGuards(store, t) && now <= later
    requires forall i: nat :: i < |t.rows| ==> PastBy(t.rows[i], later)
    ensures PacingHolds(backoff, t, later)
  {
    forall i: nat | i < |t.rows| && IsAttempt(t.rows[i].status) ensures WindowIsArmed(backoff, t, later, i) {
      assert WindowIsArmed(backoff, store, now, i);
    }
  }
}

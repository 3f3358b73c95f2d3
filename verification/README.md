# Orchestraitor in Dafny

A model of the decision-making core of Orchestraitor and proofs about it. The
main part is the campaign loop: a supervisor that polls a board, starts workers,
watches their beats, kills stalled ones, honours budgets and drains on a stop.
Around it are the durable run store, pass planning and kick-off, and five smaller
cores: the incremental context index, attaching an issue to a board, the
write-through board cache, the combined output cap, and the fenced task
description.

## How the model is built

- The loop is a deterministic machine (`LoopModel`). Everything the environment
  decides is an input: how far the clock moves between two readings, which
  handles resolved and how, which beats arrived, what the poll, the decision
  provider and the starter returned, which signals were sent and when. A run is
  a fold over a script of such inputs, and a theorem about runs is a lemma over
  all scripts. Clock inputs are increments, so the clock never goes back.
- `LoopRunner.Runner` is the supervisor as an object with the source's fields.
  Its methods use the source's loops and branches, and each is proved to move the
  abstract state exactly as the machine does.
- Supervision and draining are sequences of four elementary steps (`LoopTrace`),
  so an invariant is checked against those and lifted to iterations and runs.
- The store, the index, the board, the cache and the board client are classes
  proved against functions of their abstract state.
- Threads are interleavings of atomic steps (`OutputCap`); remote calls carry
  faults before or after their effect (`AttachIssue`).

| file | content |
|---|---|
| `RunState`, `RetryBudget`, `SpendCap` | the durable store and the guards as properties of it |
| `TaskId`, `Selection`, `Kickoff` | pass planning |
| `LoopModel`, `LoopTrace` | the loop as a machine |
| `LoopBookkeeping`, `LoopExit`, `LoopSignals`, `LoopGrace`, `LoopReaping`, `LoopTermination`, `LoopGuards`, `LoopArbitration`, `LoopKickoff`, `LoopPacing` | what every run keeps |
| `LoopStamps`, `LoopStops`, `LoopMemory`, `LoopRetries` | which second a row bears, why a run stops, what the gate remembers, what reaches the retry table |
| `LoopScenarios` | concrete runs that break a promised bound |
| `LoopInvocations` | chains of invocations over one store |
| `LoopRunner` | the supervisor as an object |
| `ContextIndex`, `IndexSymbols`, `Indexer` | the content-addressed index |
| `BoardProvider`, `BoardCache`, `AttachIssue` | boards |
| `OutputCap` | the two drain threads and the wait |
| `Fence`, `TaskDescription` | the fenced block and its reader |

## Where the code and its comments differ

The model follows the code.

- Stalled and timed-out runs count as attempts and can become `Stuck`
  (crates/orchestraitor-campaign/src/loop_run.rs:1949-1967); the comment above
  says only genuine failures do.
- The sweep of a fatal exit only visits slots, so the row of a starter that
  failed with anything but a spawn error stays `running` until recovery
  (loop_run.rs:1048-1087, 1692). `LoopExit.FatalExit` states exactly this. The
  sweep also drops the awaited results: `LoopReaping.NaturalResultsWin` says which
  workers this loses, `LoopScenarios.CompletedCanBeSwept` gives a run.
- A second signal during a budget drain that a shutdown has preempted does not
  short-circuit, because the stop reason keeps the budget cause
  (loop_run.rs:585-593).
- After the first signal the drain deadline can move past that instant plus the
  shutdown budget: by a short-circuit after the window closed, or by the restart
  of the window while aborted handles resolve. `LoopGrace.GraceExactly` says for
  which runs, `LoopScenarios.GraceCanBeExceeded` gives one.
- An attach can report a new item twice for one issue, when somebody removed the
  item in between (`AttachIssue.TrueMeansDetached`, `AttachIssue.TrueTwice`).
- A body that ends in a carriage return does not come back from its fenced block
  with that character (`TaskDescription.TrailingReturnIsLost`).

## Model

| member | source | states |
|---|---|---|
| `RunState.RowsOnlyTerminate` | crates/orchestraitor-campaign/src/run_state.rs:248-339 | Over any sequence of store operations no row disappears or changes identity, terminal and paused rows never change, a running row stays running or becomes terminal, and a running row has recorded no spend |
| `RunState.RecoveryIsExact` | crates/orchestraitor-campaign/src/run_state.rs:426-469 | Recovery turns exactly the running rows into `Orphaned`, a second recovery changes nothing, the retry table and every day's spend stay as they were |
| `RunState.RetryStateIsHistory` | crates/orchestraitor-campaign/src/run_state.rs:517-564 | From an empty retry table, a task's attempt total is the number of its failures, its no-progress streak is the trailing run of no-progress failures in its history, and it has an entry exactly when it failed once |
| `RunState.RowsAreStarted` | crates/orchestraitor-campaign/src/run_state.rs:248-273 | Over any sequence of store operations each added row goes back to one start, whose request it bears and whose place in the row order is its id |
| `RunState.RowsAreEnded` | crates/orchestraitor-campaign/src/run_state.rs:303-339 | Over any sequence of store operations a row that became terminal was running until one finish or recovery ended it, and bears the second, status, spend and detail of that operation |
| `RunState.RowsBearTheirBeat` | crates/orchestraitor-campaign/src/run_state.rs:275-301 | Over any sequence of store operations a row bears the beat and second of its last accepted beat, or those of its start, and a running row has no end |
| `RunState.LoopRunStore.Start` | crates/orchestraitor-campaign/src/run_state.rs:248-273 | Appends one running row that bears the request in every column, with its start second as first beat second and no end, and returns its position as its id; no other row moves |
| `RunState.LoopRunStore.Heartbeat` | crates/orchestraitor-campaign/src/run_state.rs:275-301 | Writes beat and second of a running row and no other column or row; a beat for any other row is rejected and writes nothing |
| `RunState.LoopRunStore.Finish` | crates/orchestraitor-campaign/src/run_state.rs:303-339 | An accepted finish writes exactly status, this second as the end, spend and detail of the running row, and no beat column and no other row; a non-terminal status or a row that is not running is rejected and writes nothing |
| `RunState.LoopRunStore.DailySpend` | crates/orchestraitor-campaign/src/run_state.rs:398-412 | The loop returns the sum of the spend of the rows that started on the UTC day of the given second |
| `RunState.LoopRunStore.RecoverRunningRows` | crates/orchestraitor-campaign/src/run_state.rs:426-469 | Orphans the running rows, each stamped with this second and its other columns kept, and returns exactly their ids in increasing order |
| `RunState.LoopRunStore.RecordTaskFailure` | crates/orchestraitor-campaign/src/run_state.rs:517-549 | One more attempt for this task and no other, the streak extended or reset, the backoff replaced, no row touched |
| `RunState.LoopRunStore.RecordTaskSuccess` | crates/orchestraitor-campaign/src/run_state.rs:555-564 | Clears the streak and the backoff of an existing entry, creates none, and changes no attempt total |
| `TaskId.TaskIdFits` | crates/orchestraitor-campaign/src/session.rs:136-183 | Every id is ASCII and at most 64 bytes long, for every repository text and every 64-bit number |
| `TaskId.EqualIdsIdentifyWork` | crates/orchestraitor-campaign/src/session.rs:136-194 | Equal ids have equal issue numbers and the same form; readable ids have equal repositories, digest ids have equal truncated slugs and equal FNV-1a digests |
| `TaskId.Fnv1a` | crates/orchestraitor-campaign/src/session.rs:187-194 | The in-place hash loop over the UTF-8 bytes computes the 32-bit FNV-1a fold, wrap-around included |
| `TaskId.NumeralMeans` | crates/orchestraitor-campaign/src/session.rs:136-183 | Reading the number part of an id in base ten gives the number back, without leading zeros |
| `TaskId.PaddedMeans` | crates/orchestraitor-campaign/src/session.rs:170-183 | The digest part has exactly its width and reads back in base sixteen |
| `TaskId.XorMeans` | crates/orchestraitor-campaign/src/session.rs:187-194 | Each bit of the exclusive or in the hash says whether the two bits differ |
| `TaskId.FnvVectors` | crates/orchestraitor-campaign/src/session.rs:187-194 | The published 32-bit FNV-1a values of the empty text and of `a` |
| `TaskId.Utf8Means` | crates/orchestraitor-campaign/src/session.rs:187-194 | The bytes hashed for a character are a well-formed UTF-8 encoding that decodes to it |
| `TaskId.ReadableShape` | crates/orchestraitor-campaign/src/session.rs:136-183 | The readable form is used exactly for clean repositories whose id fits, and spells owner, name and number out |
| `TaskId.DigestShape` | crates/orchestraitor-campaign/src/session.rs:136-183 | The other form is the slug of the repository, its digest in eight hexadecimal digits and the number; the slug is cut only where the id is full |
| `Selection.SelectionIsSorted` | crates/orchestraitor-campaign/src/session.rs:201-216 | The selection order is a permutation of the ready list, sorted P0-first and then by repository and number |
| `Selection.SelectionIsStable` | crates/orchestraitor-campaign/src/session.rs:201-216 | Items with the same sort key keep their order from the ready list |
| `Selection.SelectionIsP0First` | crates/orchestraitor-campaign/src/session.rs:201-216 | No item without P0 facts comes before one with them; among items that agree on that the order is by repository and then by number |
| `Selection.SortSelection` | crates/orchestraitor-campaign/src/session.rs:201-216 | Sorting element by element gives that order, sorted and with the same multiset of items |
| `Selection.DecisionIsEligible` | crates/orchestraitor-campaign/src/session.rs:342-426 | A decision selects exactly when something is ready, always a ready item: the proposed one when some ready item carries the proposed id, otherwise an item that no ready item precedes |
| `Selection.NoOpMeans` | crates/orchestraitor-campaign/src/session.rs:342-426 | With nothing ready the decision is a no-op whose reason is exactly: open work is blocked, nothing is open and every warning is about a closed item, or else an empty queue |
| `LoopBookkeeping.SelectionAvoidsExcluded` | crates/orchestraitor-campaign/src/loop_run.rs:1591-1603 | Whatever the decision provider proposes, the selected task was ready on the polled board and is not excluded |
| `LoopBookkeeping.RunBeginsFresh` | crates/orchestraitor-campaign/src/loop_run.rs:931-962 | A run begins idle and remembers no board, and both receivers still have to hear every signal that was waiting |
| `Kickoff.Evaluate` | crates/orchestraitor-campaign/src/kickoff.rs:214-242 | The pushes list exactly the conditions that are armed and hold, each once and in the fixed order, so the list is non-empty exactly when the loop may start |
| `LoopKickoff.StartIsFounded` | crates/orchestraitor-campaign/src/loop_run.rs:1439-1498 | An iteration starts at most one row, only with no stop declared, for a ready task no exclusion covers, and with no slot in flight only when an armed condition fired |
| `LoopKickoff.DisarmedNeverStarts` | crates/orchestraitor-campaign/src/loop_run.rs:1439-1498 | With every condition disarmed no run ever starts a row, whatever the board shows |
| `LoopKickoff.ExcludedIsNotRemembered` | crates/orchestraitor-campaign/src/loop_run.rs:1464-1490 | No pass, planned, skipped or failed at the spawn, remembers a task it excluded as previously ready |
| `LoopKickoff.HeldBackWorkKicksOff` | crates/orchestraitor-campaign/src/loop_run.rs:1420-1498 | Work held back by one pass lets the next pass proceed that finds it ready and free, when new work is armed |
| `LoopMemory.NextPassExactly` | crates/orchestraitor-campaign/src/loop_run.rs:1439-1498 | For two planning iterations of any run with none between: the second is not skipped if and only if a slot is in flight or an armed condition holds among a free ready task the first did not show, a free ready task blocked on the first one's board, a slot gone since, a new UTC day, and a pending event; a failed spawn counts as having shown the attempted task alone |
| `LoopMemory.FirstPassExactly` | crates/orchestraitor-campaign/src/loop_run.rs:1439-1498 | The same for the first planning iteration of a run, over the memory the run began with |
| `LoopMemory.PlanLeaves` | crates/orchestraitor-campaign/src/loop_run.rs:1464-1490 | Every planned, skipped or failed pass leaves this board's blocked tasks, this day, no release, and the free ready tasks or the one whose spawn failed |
| `LoopKickoff.ExcludedExactly` | crates/orchestraitor-campaign/src/loop_run.rs:1736-1779 | A task is excluded exactly when a worker has it, this invocation has a row for it, or its retry entry holds it back by used-up attempts or a backoff that is not over |
| `LoopKickoff.SkipsAreCounted` | crates/orchestraitor-campaign/src/loop_run.rs:1745-1774 | Each planning pass adds to the skip counter the number of tasks that only their retry entry holds back |
| `LoopKickoff.LateArrivalsStay` | crates/orchestraitor-campaign/src/loop_run.rs:1611-1620 | A planned pass of an idle loop that listens for events consumes exactly those pending when it looked; every other pass consumes none, and events that arrive after the look stay pending |
| `LoopKickoff.ChainEventsOnce` | crates/orchestraitor-campaign/src/kickoff.rs:134-153 | Over every chain of invocations each external event that arrived is pending or was drained by exactly one pass |
| `LoopBookkeeping.RunIsBookkept` | crates/orchestraitor-campaign/src/loop_run.rs:964-1044 | At every point of every run: slots and the run's running rows are in bijection (but for the one stray row of a failed starter), never more slots than the worker cap, rows have distinct tasks, every counter is the number of rows with that status, the k-th row is the k-th selection, polls are failures plus decisions plus at most one interrupted pass, earlier rows and decisions are untouched, and no store write is ever rejected |
| `LoopExit.RowsAreConserved` | crates/orchestraitor-campaign/src/loop_run.rs:678-694 | At every point rows started equal the sum of the terminal counters plus live slots plus the stray row of a failed starter |
| `LoopExit.CleanExit` | crates/orchestraitor-campaign/src/loop_run.rs:964-1105 | A run that exits cleanly has a stop reason and no slot, every row it started is terminal and counted once, and rows and `Selected` decisions correspond one to one in order |
| `LoopExit.FatalExit` | crates/orchestraitor-campaign/src/loop_run.rs:1048-1087 | After the sweep of a fatal exit a row of the run is still running if and only if it is the row of the failed starter, and the counters account for all others |
| `LoopSignals.SignalsNeverOutnumberSends` | crates/orchestraitor-campaign/src/loop_run.rs:573-603 | Over every run applied signals never outnumber sends, a short-circuit needs a second send, and an applied signal means a declared stop whose kills are recorded as shutdown aborts |
| `LoopSignals.StopStaysFinal` | crates/orchestraitor-campaign/src/loop_run.rs:964-1020 | Once declared, the stop reason never changes, and no row starts and no decision is recorded for the rest of the run |
| `LoopStops.StopsHaveCauses` | crates/orchestraitor-campaign/src/loop_run.rs:964-1020 | At every point of every run: the cycle stop stands only with exactly the bound of polls made, the run-budget stop only with the clock at or past the budget, the shutdown stop only with an applied signal, and the spend stop is the only other one |
| `LoopStops.StopWasDeclared` | crates/orchestraitor-campaign/src/loop_run.rs:964-1020 | Every stop of a run was declared by one iteration that began without one, as the first cause in arbitration order that held in it: run budget, spend cap, cycle bound, and only then a signal or a budget that ran out during the poll or the wait |
| `LoopStops.SpendStopRead` | crates/orchestraitor-campaign/src/loop_run.rs:985-994 | A spend stop means that its iteration read a day's spend at or above the cap while the run budget was not used up |
| `LoopStops.GuardsDeclare` | crates/orchestraitor-campaign/src/loop_run.rs:964-1020 | Converse, with no stop declared: each cause in arbitration order declares its own reason, with its own deadline; the spend cap leaves the drain unbounded |
| `LoopStops.PassEndsExactly` | crates/orchestraitor-campaign/src/loop_run.rs:1251-1400 | A pass that polls plans exactly when the board came back before the run budget with no signal unseen on an open channel; it declares a shutdown, or the run budget, exactly when that arm won the race or held when the board came back |
| `LoopStops.PassAppliesOnce` | crates/orchestraitor-campaign/src/loop_run.rs:1406-1418 | A shutdown out of a pass is one applied signal at that moment and leaves no send for the wait to apply again |
| `LoopStops.AbortsNameTheStop` | crates/orchestraitor-campaign/src/loop_run.rs:1171-1199 | At every point of every run a slot being drained, and a row recorded as a drain abort, names the run's stop reason, or a shutdown after an applied signal |
| `LoopStops.DrainTellsTheReason` | crates/orchestraitor-campaign/src/loop_run.rs:1171-1199 | What a drain tells its workers: a shutdown once a signal was applied, the stop reason before |
| `LoopStops.DrainStepTells` | crates/orchestraitor-campaign/src/loop_run.rs:1171-1199 | A drain step at its deadline writes that intent into every slot that had none and leaves the others |
| `LoopStops.DrainStepExactly` | crates/orchestraitor-campaign/src/loop_run.rs:1171-1199 | Before its deadline, with a worker left, a drain step moves only the clock; at it the grace window restarts exactly when a worker is left |
| `LoopStops.PreemptionNeverExtends` | crates/orchestraitor-campaign/src/loop_run.rs:573-603 | A signal that preempts another drain gives it the earlier of its own deadline and the shutdown budget from now |
| `LoopSignals.DeadlineIntendsAll` | crates/orchestraitor-campaign/src/loop_run.rs:1171-1199 | A drain step at or past the deadline leaves no slot without an intent |
| `LoopSignals.GraceEnds` | crates/orchestraitor-campaign/src/loop_run.rs:573-603 | Once the clock is past the first signal plus the shutdown budget, the next drain step leaves no slot without an intent, whatever other signals arrived |
| `LoopGrace.DrainKeepsGrace` | crates/orchestraitor-campaign/src/loop_run.rs:1171-1199 | A drain step keeps that bound if and only if it is not at or past the deadline, after the first signal's instant, with an unresolved handle; when it breaks it every slot has its intent |
| `LoopGrace.GraceExactly` | crates/orchestraitor-campaign/src/loop_run.rs:573-603 | Over every run, first signals seen by a wait or inside a pass included: the deadline is within the shutdown budget of the first applied signal in every state, if and only if no iteration short-circuits in its wait after the window has closed, and none whose wait does not short-circuit runs its drain after that signal, at or past the deadline, with an unresolved handle |
| `LoopScenarios.GraceCanBeExceeded` | crates/orchestraitor-campaign/src/loop_run.rs:581-584 | For every configuration with two workers, positive limits and new work armed, a concrete run from the initial state in which a second signal after the window puts the deadline one unit past the bound |
| `LoopReaping.IterateReleases` | crates/orchestraitor-campaign/src/loop_run.rs:1800-1921 | An iteration one of whose reaps, before the beats, after the kill sweeps or in the drain, finds a handle finished, aborted or returned by itself, ends without its slot |
| `LoopTermination.RunTerminates` | crates/orchestraitor-campaign/src/loop_run.rs:964-1044 | Every run ends within an explicit number of iterations, if each wait hears the channel or sleeps a tick and each aborted handle is found finished by some reap within a fixed number of iterations; that the loop then removes its slot, and that the clock moves, is proved; the deadline-free spend-cap drain is included |
| `LoopGuards.RunGuarded` | crates/orchestraitor-campaign/src/loop_run.rs:985-1020 | Over every run the retry budget, the backoff windows and the spend exposure of every used day are kept, also by polls that cross midnight |
| `SpendCap.RoomSurvivesMidnight` | crates/orchestraitor-campaign/src/loop_run.rs:1355-1362 | The spend check at the top of an iteration still covers a row that starts after the poll, even on the next day |
| `LoopInvocations.ChainGuarded` | crates/orchestraitor-campaign/src/loop_run.rs:1736-1779 | Over every chain of invocations from an empty store: attempt totals equal the failed, stalled, timed-out and stuck rows and never exceed the budget, a stuck row appears exactly at the limit and is its task's last row, no row starts inside a backoff window, and every day on which a run started has recorded less than the cap plus workers times the largest spend |
| `LoopInvocations.RecoveryEndsThePast` | crates/orchestraitor-daemon/src/watch.rs:1275-1345 | An invocation that starts with recovery leaves no row of an earlier one running |
| `LoopArbitration.RunEvolves` | crates/orchestraitor-campaign/src/loop_run.rs:1221-1229 | From any state on, terminal rows never change, no row disappears, a slot's kill intent is never rewritten, and no finished run gets a slot again |
| `LoopArbitration.RunAttributed` | crates/orchestraitor-campaign/src/loop_run.rs:1808-1859 | Over every run no row is recorded as aborted without an intent or as an unattributed abort, every status carries its own detail, and a slot is aborted exactly when it has an intent |
| `LoopArbitration.SuperviseLeavesLive` | crates/orchestraitor-campaign/src/loop_run.rs:1114-1163 | After a supervision step every slot without an intent had beaten within the stall timeout and was younger than the worker timeout at the two sweeps |
| `LoopArbitration.SuperviseKillsExactly` | crates/orchestraitor-campaign/src/loop_run.rs:1114-1163 | Every slot a supervision step leaves is one it had after the beats: with its intent if it had one, else told to stop as stalled exactly when its beat is too old at the first reading, else as timed out exactly when it is too old at the second, else untouched |
| `LoopReaping.NaturalResultsWin` | crates/orchestraitor-campaign/src/loop_run.rs:1048-1087 | Over every run, for a worker in flight at some point whose handle returns a natural result: at the end its row carries that result, so `Completed` for a completed run, if and only if some later iteration that was still going found the handle finished at one of its three reaps, whatever intent the slot had; a handle left to the sweep of a fatal exit becomes an unattributed abort that spent nothing, whatever it returned |
| `LoopReaping.TakersMean` | crates/orchestraitor-campaign/src/loop_run.rs:1800-1921 | The iterations counted as taking a handle are exactly those still going at their start, one of whose reaps finds it finished |
| `LoopArbitration.RecordMeans` | crates/orchestraitor-campaign/src/loop_run.rs:1808-1859 | A recorded row says what its handle returned: `Completed` exactly for a completed run, the typed failure, the unusable loop and the panic each by its own detail, with the run's spend; stalled, timed out or aborted only by a cancellation under that intent, with that reason |
| `LoopStamps.ReapStamps` | crates/orchestraitor-campaign/src/loop_run.rs:1800-1921 | A reaped row bears exactly the second at which its own handle was taken, the time of the handles before it included |
| `LoopStamps.RowsEndInTime` | crates/orchestraitor-campaign/src/loop_run.rs:964-1044 | Every row that is over at the end of a run was ended by one iteration and bears a second between its start and its end |
| `LoopStamps.RunIsTimely` | crates/orchestraitor-campaign/src/loop_run.rs:964-1044 | Between any two points of a run every row started or ended in between bears a second in between |
| `LoopRetries.RunRetriesFollow` | crates/orchestraitor-campaign/src/loop_run.rs:1935-1980 | Over every run each task's retry entry is the one from before, moved once by the run's one row for that task: a failure adds an attempt, extends the streak without progress or resets it, and sets the backoff; a completion clears streak and backoff |
| `LoopRetries.EntriesStand` | crates/orchestraitor-campaign/src/loop_run.rs:1935-1980 | From the end of a row on its task's retry entry and the row itself stay for the rest of the run |
| `LoopRetries.StreakFollowsResult` | crates/orchestraitor-campaign/src/loop_run.rs:1935-1980 | A worker whose natural result the loop takes: at the end of the run its task's no-progress streak is one more than before if the result was a failure without progress, and zero otherwise |
| `LoopScenarios.FatalStartStrands` | crates/orchestraitor-campaign/src/loop_run.rs:1676-1713 | For every such configuration a concrete run that ends fatally in a starter error with another worker in flight |
| `LoopScenarios.CompletedCanBeSwept` | crates/orchestraitor-campaign/src/loop_run.rs:1048-1087 | In that run the first worker completes and its row is an unattributed abort |
| `LoopArbitration.BeatsAreRecorded` | crates/orchestraitor-campaign/src/loop_run.rs:1120-1144 | Every fresh beat, and no other, moves its slot's beat time and reaches its row with the current second; no beat of a run is rejected |
| `LoopPacing.GuardsPace` | crates/orchestraitor-campaign/src/loop_run.rs:964-1020 | A poll starts exactly with no stop declared, a free worker, both pacing deadlines reached, and budget, spend and cycle caps not used up; it is counted once, arms the cadence, and ends in a stop, a fatal starter, a counted spawn that resets the backoff, or a backoff; without a poll no pacing field moves and nothing is spawned |
| `LoopPacing.FruitlessPollBacksOff` | crates/orchestraitor-campaign/src/loop_run.rs:1782-1790 | A poll that neither stopped nor spawned sets the next pass to now plus the next delay of the series |
| `LoopPacing.DelaysDouble` | crates/orchestraitor-campaign/src/loop_run.rs:1782-1790 | The delays start with the base and double up to the maximum; from the 32nd on they stay |
| `LoopPacing.PollsAreSpaced` | crates/orchestraitor-campaign/src/loop_run.rs:1260-1284 | Over every run two polls start at least the configured interval apart, and a poll starts no earlier than the deadline its predecessor set |
| `LoopPacing.CyclesAreBounded` | crates/orchestraitor-campaign/src/loop_run.rs:997-1004 | Over every run the number of polls never exceeds the cycle bound |
| `LoopRunner.Runner.KillWhere` | crates/orchestraitor-campaign/src/loop_run.rs:1221-1229 | The loop over the slots sets the intent and aborts exactly the slots the rule hits, and only slots without an intent |
| `LoopRunner.Runner.RecordTaskOutcome` | crates/orchestraitor-campaign/src/loop_run.rs:1935-1980 | Moves the retry table as the machine says and returns `Stuck` exactly when the recorded failure reached the budget |
| `LoopRunner.Runner.ReadOutcome` | crates/orchestraitor-campaign/src/loop_run.rs:1808-1859 | A natural result gives its own status, `Completed` exactly for a completed run; a cancellation is attributed to the intent |
| `LoopRunner.Runner.ReapFinished` | crates/orchestraitor-campaign/src/loop_run.rs:1800-1921 | The index loop with removals records every finished handle in slot order as the machine's reap does; a rejected write is fatal |
| `LoopRunner.Runner.ObserveBeats` | crates/orchestraitor-campaign/src/loop_run.rs:1120-1144 | Every fresh beat moves the slot's beat time and is persisted; a rejected beat is fatal |
| `LoopRunner.Runner.Supervise` | crates/orchestraitor-campaign/src/loop_run.rs:1114-1163 | Natural completions, beats, the two kill sweeps and the second reap, in this order, equal the machine's supervision step |
| `LoopRunner.Runner.DrainStep` | crates/orchestraitor-campaign/src/loop_run.rs:1171-1199 | At the deadline or with no slot left, kills with the drain reason, reaps, and restarts the window when a slot remains |
| `LoopRunner.Runner.ApplySignal` | crates/orchestraitor-campaign/src/loop_run.rs:573-603 | First signal, preemption of a budget drain, and short-circuit: a declared stop stays, the deadline is within the shutdown budget of now, and every send is seen |
| `LoopRunner.Runner.WaitTick` | crates/orchestraitor-campaign/src/loop_run.rs:876-913 | The race of the channel and the sleep: no slot moves, a declared stop stays, and a new one is a shutdown with an applied signal |
| `LoopRunner.Runner.ExcludedTasks` | crates/orchestraitor-campaign/src/loop_run.rs:1736-1779 | The loops over slots, rows and retry entries return exactly the busy tasks plus the tasks a guard holds back, each with its reason |
| `LoopRunner.Runner.HeldBack` | crates/orchestraitor-campaign/src/loop_run.rs:1745-1774 | Exactly the retry entries over budget or inside a backoff window that are not busy; the budget is the reason when both hold |
| `LoopRunner.Runner.KickoffGate` | crates/orchestraitor-campaign/src/loop_run.rs:1439-1498 | Decides as the armed conditions say, returns the peeked events, and remembers this board: its free ready tasks, its blocked tasks, this day, and no release |
| `LoopRunner.Runner.RetainReady` | crates/orchestraitor-campaign/src/loop_run.rs:1591-1595 | Keeps the ready items outside the exclusions, in order |
| `LoopRunner.Runner.PlanAndSpawn` | crates/orchestraitor-campaign/src/loop_run.rs:1558-1713 | One pass from a polled board: exclusions, gate, one decision record, selective drain, row before spawn, spawn failure or starter error, pacing |
| `LoopRunner.Runner.Pass` | crates/orchestraitor-campaign/src/loop_run.rs:1251-1400 | Capacity and pacing gates, poll count, and the three-way race of poll, signal and budget with its rechecks |
| `LoopRunner.Runner.CheckGuards` | crates/orchestraitor-campaign/src/loop_run.rs:964-1020 | The guard table in arbitration order: drain, run budget, spend cap, cycle bound, pass; with no stop declared each cause declares its own reason; with one declared no row starts, and it exits only with a stop and no slot |
| `LoopRunner.Runner.Run` | crates/orchestraitor-campaign/src/loop_run.rs:931-1105 | Over any script the object ends where the machine does, the sweep of a fatal exit included, and after a clean exit every row it started is terminal |
| `LoopRunner.Runner.SweepStranded` | crates/orchestraitor-campaign/src/loop_run.rs:1048-1087 | Aborts every slot, awaits each handle, drops its result, and finishes its row |
| `ContextIndex.HoldsIsUnique` | crates/orchestraitor-context/src/index.rs:210-223 | The path map and the source bytes of a tree are determined by the tree: two indexes that hold it are equal, so an incremental index equals a fresh one |
| `ContextIndex.MidwayStep` | crates/orchestraitor-context/src/index.rs:226-307 | Indexing one more file keeps the halfway invariant, whatever the index held before: files seen so far are held (last path per digest wins) and the rest of the old index is untouched |
| `ContextIndex.EvictionCompletes` | crates/orchestraitor-context/src/index.rs:147-161 | Evicting the paths that were not traversed turns the halfway state into exactly the tree |
| `ContextIndex.EveryDigestIsStored` | crates/orchestraitor-context/src/index.rs:280-307 | Every traversed digest is stored with the bytes of the last file that has it |
| `Indexer.Index.PurgeDigestData` | crates/orchestraitor-context/src/index.rs:103-113 | Drops the blob and bytes of the digest, and keeps exactly the symbols and references of other digests and the calls whose two ends remain |
| `Indexer.Index.RemovePath` | crates/orchestraitor-context/src/index.rs:117-126 | Detaches a path and, since anchors are unique, its digest; all records stay live |
| `Indexer.Index.ReassociatePath` | crates/orchestraitor-context/src/index.rs:130-143 | The loop leaves the path as the only one that maps to the digest |
| `Indexer.Index.ClassifyAge` | crates/orchestraitor-context/src/index.rs:244-278 | Reuse exactly when the digest is already held after a changed path lost its old blob, with the matching counter |
| `Indexer.Index.ParseBlob` | crates/orchestraitor-context/src/parser.rs:15-45 | A successful parse leaves every reported id with this path, this digest and the name of its last occurrence, and every other id as it was; a failed one stores nothing |
| `Indexer.Index.UpsertBlob` | crates/orchestraitor-context/src/index.rs:280-307 | The path becomes the anchor of the digest with these bytes, paths and blobs stay in bijection; a fresh blob stores what its parse reports under this path and digest and a reused one keeps the symbols; it succeeds exactly when the blob is reused or its parse succeeds |
| `Indexer.Index.IndexPath` | crates/orchestraitor-context/src/index.rs:226-241 | One file: observed is processed plus skipped, processed exactly when its digest was not held; anchors, blobs and symbols move as one step of a pass; a readable file whose parse succeeds is indexed, an unreadable file or a failed parse ends the pass |
| `Indexer.Index.EvictOrphanedPaths` | crates/orchestraitor-context/src/index.rs:147-161 | Keeps exactly the traversed paths with their blobs, and exactly the symbols of the digests that remain, unchanged |
| `Indexer.AllReferences` | crates/orchestraitor-context/src/index.rs:163-177 | The references are exactly the occurrences of every symbol in its own live blob |
| `Indexer.AllCalls` | crates/orchestraitor-context/src/index.rs:178-186 | The calls are exactly the pairs of different symbols where one's body mentions the other |
| `Indexer.RepositoryIndexer.IndexRepository` | crates/orchestraitor-context/src/index.rs:210-223 | A pass over readable files that all parse succeeds; after any earlier index, a successful pass holds exactly this tree, every id a processed file parsed is there as its last writer stored it, every other symbol is an earlier one whose digest stayed, every symbol and reference belongs to a live blob, the processed count is the number of files that were parsed, and observed = processed + skipped = files; a failed pass publishes nothing |
| `IndexSymbols.ParsedIsPresent` | crates/orchestraitor-context/src/index.rs:226-307 | Every id that a file processed in a successful pass reports is present at the end, as the last such file of the pass wrote it |
| `Indexer.Index.SymbolsComeFromBytes` | crates/orchestraitor-context/src/index.rs:280-307 | When different contents have different digests, every symbol of an index is what parsing the stored bytes of its digest under its path reports |
| `Indexer.CompareWithFresh` | crates/orchestraitor-context/src/index.rs:210-223 | One indexer over any list of trees, whatever became of the earlier ones, and a fresh one over the last tree agree on the path map and the source bytes when both passes over that tree succeed, which they do when its files are readable and parse |
| `AttachIssue.AttemptIsSafe` | crates/orchestraitor-board/src/client.rs:412-556 | Whatever call fails, before or after its effect: no duplicate item, no set field, type or other project's item changed, only the lane's label added, `true` only when this attempt added the item, and `Ok` only with status, priority, type and label in place |
| `AttachIssue.OkWroteTheLane` | crates/orchestraitor-board/src/client.rs:412-556 | After `Ok` the status and the priority are the lane's own values where the item had none and the old ones elsewhere, the type likewise, and the lane's label is on the issue |
| `AttachIssue.CleanAttemptSucceeds` | crates/orchestraitor-board/src/client.rs:412-556 | A fault-free attempt on a resolvable board succeeds and completes whatever earlier attempts left half done |
| `AttachIssue.AttemptSucceedsExactly` | crates/orchestraitor-board/src/client.rs:412-556 | For every board and every combination of faults: an attempt succeeds if and only if nothing it reads is cut off, everything it finds missing can be resolved, and every call it needs is clean |
| `AttachIssue.ErrorsAreNamed` | crates/orchestraitor-board/src/client.rs:412-556 | Every error of an attempt names a real reason; a transport error means that a call failed, and a read-back never contradicts its write |
| `AttachIssue.CompleteIsStable` | crates/orchestraitor-board/src/client.rs:506-556 | An attempt on a complete item changes nothing but, where the repository lacks the lane's label, that list, and never reports a new item |
| `AttachIssue.AttemptAddsNoSecond` | crates/orchestraitor-board/src/client.rs:440-490 | An attempt never raises the number of the project's items above one, or above what it found |
| `AttachIssue.HistoryIsOnce` | crates/orchestraitor-board/src/client.rs:440-490 | Over every history of attempts and edits in between, removals included, the issue never has more items on the project than one, or than it had at the start, if no edit adds a second item where one is |
| `AttachIssue.HistoryStaysAttached` | crates/orchestraitor-board/src/client.rs:440-490 | Once an attempt succeeded, the item stays attached until an edit takes it off |
| `AttachIssue.TrueMeansDetached` | crates/orchestraitor-board/src/client.rs:412-556 | With no premise on the edits: a success that follows a success returns `true` if and only if some edit between the two took the item off and no further edit put it back |
| `AttachIssue.TrueAtMostOnce` | crates/orchestraitor-board/src/client.rs:412-556 | After a successful attempt no later one returns `true` while no edit takes the item off |
| `AttachIssue.TrueTwice` | crates/orchestraitor-board/src/client.rs:412-556 | The concrete history in which `true` is returned twice: the item is removed between two clean attempts |
| `AttachIssue.BoardClient.WriteSelect` | crates/orchestraitor-board/src/client.rs:597-642 | Resolve, write, read back: the errors and the effect of each step under its faults |
| `AttachIssue.BoardClient.Attach` | crates/orchestraitor-board/src/client.rs:412-556 | The sequence of conditional calls equals the specified attempt, and has its guarantees |
| `BoardProvider.WritesAreReadBack` | crates/orchestraitor-board-contract/src/in_memory.rs:179-320 | An accepted write is what a read sees next, and touches nothing else of the board: no other item, value or edge and no other part of the same item |
| `BoardProvider.AcceptedExactly` | crates/orchestraitor-board-contract/src/in_memory.rs:179-320 | A write is accepted exactly when everything it names exists, the value is of the field's kind and an added edge is new; a refusal names what is missing or wrong and changes nothing |
| `BoardProvider.Provider.Apply` | crates/orchestraitor-board-contract/src/in_memory.rs:179-320 | Each write answers and changes the board as specified; an accepted one is what a read sees next, a refused one changes nothing |
| `BoardProvider.Provider.CreateItem` | crates/orchestraitor-board-contract/src/in_memory.rs:157-177 | The provider mints the next id and stores a new item under it |
| `BoardCache.EventsAreExact` | crates/orchestraitor-board-contract/src/cache.rs:346-485 | Divergence events appear exactly when the read-back differs from the write (for the body: when its version differs and the item had been observed before), and each names the written and the really read value |
| `BoardCache.OneEventPerAxis` | crates/orchestraitor-board-contract/src/cache.rs:346-485 | One event for each axis that differs, with the written and the read value, the body before the title |
| `BoardCache.NoDriftNoEvent` | crates/orchestraitor-board-contract/src/cache.rs:346-485 | Over the in-memory board a write nobody interferes with never looks diverged |
| `BoardCache.CachedBoard.Refresh` | crates/orchestraitor-board-contract/src/cache.rs:234-252 | Caches exactly what the provider holds now; a failed read leaves the cache alone |
| `BoardCache.CachedBoard.CachedRead` | crates/orchestraitor-board-contract/src/cache.rs:170-191 | Answers with the provider's current item and caches it |
| `BoardCache.CachedBoard.RecordDivergence` | crates/orchestraitor-board-contract/src/cache.rs:258-280 | Appends the event and takes the board's item over again, stamped with its own clock reading |
| `BoardCache.ReconciledMeans` | crates/orchestraitor-board-contract/src/cache.rs:346-485 | From any cache and any two boards read back: it succeeds exactly when the item, and a written field, could be read back, and then records exactly the divergences; the item read back is cached with the stamp of the refresh or of the last record, no other entry moves, and an item that is gone leaves the cache alone |
| `BoardCache.CachedBoard.Reconcile` | crates/orchestraitor-board-contract/src/cache.rs:346-485 | Refresh, field read-back and records, each with its own clock reading, leave answer and cache as specified; a failed field read-back leaves the refreshed entry and no event |
| `BoardCache.CachedBoard.WriteThrough` | crates/orchestraitor-board-contract/src/cache.rs:346-485 | The provider ends where its own write and the others' edits leave it, a refused write leaves the cache unchanged, an accepted one is reconciled with exactly the divergences recorded, and every cached item stays a state the provider really held |
| `BoardCache.CachedBoard.CreateItem` | crates/orchestraitor-board-contract/src/cache.rs:335-344 | Passed through: the provider mints the id and holds the new item, and the cache does not move |
| `BoardCache.CachedBoard.WriteEdge` | crates/orchestraitor-board-contract/src/cache.rs:491-505 | Passed through: the provider answers and changes as for its own write, and the cache does not move |
| `BoardCache.CachedBoard.UndisturbedWrite` | crates/orchestraitor-board-contract/src/cache.rs:346-485 | Without interference the cache answers as the bare provider, ends with the provider's item, and emits no event |
| `BoardCache.CachedBoard.DrainEvents` | crates/orchestraitor-board-contract/src/cache.rs:211-214 | Returns the pending events and empties the list, nothing else |
| `OutputCap.TotalIsBounded` | crates/orchestraitor-arb-client/src/bash_child.rs:61-92 | Over every interleaving the shared total is what both buffers hold plus what is between add and append, and never exceeds the limit by more than two chunks |
| `OutputCap.WithinLimitFinishes` | crates/orchestraitor-arb-client/src/bash_child.rs:412-471 | For all chunks within the limit some schedule ends with exactly those bytes and that exit code |
| `OutputCap.CrossingEnds` | crates/orchestraitor-arb-client/src/bash_child.rs:61-92 | And for the first chunk that crosses the limit: its drain kills once and ends, and the wait reports the overflow |
| `OutputCap.OverflowIsReported` | crates/orchestraitor-arb-client/src/bash_child.rs:382-464 | A returned wait reports `output-exceeded` exactly when the bytes read from both pipes exceed the limit, exactly when some drain issued the group kill |
| `OutputCap.FinishedIsComplete` | crates/orchestraitor-arb-client/src/bash_child.rs:417-464 | A finished result is within the limit, holds everything read from both pipes, and no drain killed anything |
| `OutputCap.AnswerIsDecided` | crates/orchestraitor-arb-client/src/bash_child.rs:412-471 | Over every interleaving a wait that did not fail answers at one join: `output-exceeded` first, else `aborted` exactly when a cancellation came before that join, else `script-io` exactly when the write to stdin failed and the first observed exit has no code, else finished with the code of that exit and all bytes of both pipes |
| `OutputCap.WaitFailsExactly` | crates/orchestraitor-arb-client/src/bash_child.rs:412-471 | The wait fails exactly when the first thing it observes is an error |
| `OutputCap.NoReadAfterCrossing` | crates/orchestraitor-arb-client/src/bash_child.rs:61-92 | A drain that crossed the limit never reads its pipe again |
| `OutputCap.OutcomeIsFinal` | crates/orchestraitor-arb-client/src/bash_child.rs:417-471 | No later step changes a returned outcome |
| `OutputCap.DrainStream` | crates/orchestraitor-arb-client/src/bash_child.rs:61-92 | The loop of one thread keeps every byte it read and kills exactly at the first chunk whose add crossed the limit |
| `Fence.FenceFor` | crates/orchestraitor-campaign/src/task_description.rs:39-51 | The loop over the characters gives a fence one wider than the longest backtick run, at least three |
| `Fence.RunsAreBounded` | crates/orchestraitor-campaign/src/task_description.rs:39-51 | No stretch of backticks of the body is longer than the run the fence is built from |
| `Fence.LongestRunExists` | crates/orchestraitor-campaign/src/task_description.rs:39-51 | Some stretch of the body is exactly that long, so the fence is no wider than needed |
| `TaskDescription.FramingSafe` | crates/orchestraitor-campaign/src/task_description.rs:59-71 | The flattened text has the same length and no control, line or paragraph separator character, and differs from the original only in those, turned into spaces |
| `TaskDescription.FramingCannotBeForged` | crates/orchestraitor-campaign/src/task_description.rs:83-96 | Whatever repository, title, address and body say: the first line of the description is the issue's number, repository and title and its third line the address |
| `TaskDescription.Describe` | crates/orchestraitor-campaign/src/task_description.rs:83-133 | The appends build the specified description; it begins with the framing and ends with the sentence for a failed fetch, for an empty body or for a cut, whichever applies, and else with the closing fence; its reader finds no block for a blank or failed body and otherwise the inlined text |
| `TaskDescription.BodyRoundTrip` | crates/orchestraitor-campaign/src/task_description.rs:83-133 | For every non-blank body, reading the first fenced block by section 4.5 of the CommonMark Spec gives the inlined text back up to a final carriage return; the inlined text is the longest prefix within 8192 characters, and the notice is there exactly when text was cut |
| `TaskDescription.BodyRoundTripExact` | crates/orchestraitor-campaign/src/task_description.rs:100-117 | The inlined text comes back exactly if and only if it does not end in a carriage return |
| `TaskDescription.TrailingReturnIsLost` | crates/orchestraitor-campaign/src/task_description.rs:100-117 | A concrete body that ends in a carriage return and loses it |
| `TaskDescription.NoBodyNoBlock` | crates/orchestraitor-campaign/src/task_description.rs:83-133 | For a blank or failed body the description has no fenced block, whatever the title and the address say |

## Left out

- SQLite, migrations and I/O failures of the stores: the stores are sequences and maps with the same update guards. The rejections by those guards are modelled and proved not to happen in a run.
- Overflow of the 64-bit clock and of the stored seconds, and of the report and spend counters: durations are whole nanoseconds and spend whole units without bound.
- A crash inside an iteration: an invocation ends cleanly, fatally, or is killed between two iterations. A crash between the retry record and the finish of a row would count an attempt whose row is later orphaned.
- The journal of loop events, rationale texts, failure-class texts and the summary.
- Validation of the loop configuration: the theorems hold for every configuration, also for those the source refuses.
- The worker crate: worker outcomes, beats and spend are arbitrary inputs; the pacing delay is the capped doubling of its base.
- The order in which terminal counters are incremented within one reap sweep: they follow each row instead of the sweep, which nothing reads in between.
- LoopRunner.Runner.ExcludedTasks: the retry entries are visited in any order, so the skips are a map from task to reason and not a list.
- LoopTermination.RunTerminates: that a wait which hears nothing sleeps a tick, and that an aborted handle resolves before one of the next reaps, are premises on the script, since timer and task runtime decide them.
- Hashing, parsing and text search of the index: they are arbitrary functions. Provenance envelopes, language detection and the directory walk are not modelled; a traversal is any list of distinct paths.
- Agreement of symbols between an incremental and a fresh index: symbols keep the path under which they were first parsed, so only paths and bytes agree.
- Indexer.Index.SymbolsComeFromBytes: presumes that different contents have different digests, as a content-addressed store does; with a collision a symbol still comes from some content of its digest, which is part of the validity of an index.
- GraphQL transport, tokens, response decoding and the node-id cache of the board client: every call is a step that works, fails before its effect, or fails after it.
- Cross references and search of the in-memory board, and the read-only calls the cache passes through.
- BoardCache.EventsAreExact: body divergence is detected by an arbitrary version function, so two bodies with the same version count as equal, as in the source.
- Process spawning, isolation and limits around the interpreter: only the drain counter, the group kill, the cancellation flag and the result of the wait are modelled.
- TaskDescription.Describe: the fixed English sentences are parameters; what is asked of them is that each is one line that does not start with a space, a backtick or a tilde.
- Fence.ReadBlock: an indented opening fence would strip that indentation from its content; the fence that is written has none.
- Routing, roles, guardrail settings, mediation, secrets, the queue and the command line: lookups and filters that would only add easy members.

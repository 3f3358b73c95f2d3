/**
What one run keeps at every point: slots and running rows match, counters
count rows, decisions and rows correspond, and no task runs twice.
 */
module LoopBookkeeping {
  import opened Wrappers
  import opened RunState
  import opened Selection
  import opened LoopModel
  import opened LoopTrace

  // ------------------------------------------------------------- the invariant

  /** The one row a failed starter leaves running without a slot. */
  ghost predicate HasStray(s: Loop) { s.phase == Fatal(StarterFailed) }

  function SlotRuns(slots: seq<Slot>): set<nat> { set k | 0 <= k < |slots| :: slots[k].run }

  /** Row ids of the run that started when the store held `b` rows. */
  ghost predicate OwnRow(b: nat, s: Loop, i: nat) { b <= i < |s.store.rows| }

  ghost predicate SlotMatches(b: nat, s: Loop, slot: Slot)
  {
    OwnRow(b, s, slot.run) && s.store.rows[slot.run].status.Running? && s.store.rows[slot.run].task == slot.task
  }

  /** Every running row of the run, but for the stray one, has a slot. */
  ghost predicate RunningIsCovered(b: nat, s: Loop)
  {
    forall i: nat :: OwnRow(b, s, i) && s.store.rows[i].status.Running? && !(HasStray(s) && i == |s.store.rows| - 1)
      ==> i in SlotRuns(s.slots)
  }

  /** Slots and this run's running rows are in bijection, never more than the cap. */
  ghost predicate SlotsMatchRows(cfg: Config, b: nat, s: Loop)
  {
    && b <= |s.store.rows|
    && |s.slots| <= cfg.maxWorkers
    && (forall i, j :: 0 <= i < j < |s.slots| ==> s.slots[i].run != s.slots[j].run)
    && (forall i :: 0 <= i < |s.slots| ==> SlotMatches(b, s, s.slots[i]))
    && RunningIsCovered(b, s)
    && (HasStray(s) ==> && b < |s.store.rows| && s.store.rows[|s.store.rows| - 1].status.Running?
                        && |s.store.rows| - 1 !in SlotRuns(s.slots))
  }

  /** Every row of the run carries its invocation, a distinct task, and a status a run can reach. */
  ghost predicate RowsAreOwn(cfg: Config, b: nat, s: Loop)
  {
    && (forall i: nat :: OwnRow(b, s, i) ==> s.store.rows[i].invocation == cfg.invocation)
    && (forall i: nat :: OwnRow(b, s, i) ==> !s.store.rows[i].status.Orphaned? && !s.store.rows[i].status.Paused?)
    && (forall i: nat, j: nat ::
          OwnRow(b, s, i) && OwnRow(b, s, j) && i < j ==> s.store.rows[i].task != s.store.rows[j].task)
  }

  function Count(b: nat, s: Loop, status: RunStatus): nat
    requires b <= |s.store.rows|
  {
    Total(OfStatus(status), s.store.rows[b..])
  }

  /** Each terminal counter is the number of this run's rows with that status. */
  ghost predicate CountersCountRows(b: nat, s: Loop)
    requires b <= |s.store.rows|
  {
    && s.counters.completed == Count(b, s, Completed)
    && s.counters.failed == Count(b, s, Failed)
    && s.counters.stalled == Count(b, s, Stalled)
    && s.counters.timedOut == Count(b, s, TimedOut)
    && s.counters.abortedOnStop == Count(b, s, AbortedShutdown)
    && s.counters.stuck == Count(b, s, Stuck)
    && |s.slots| + (if HasStray(s) then 1 else 0) == Count(b, s, Running)
  }

  /** Ids of the `Selected` records from `from` on, in order. */
  function SelectedIds(decisions: seq<Decision>, from: nat): seq<nat>
  {
    if |decisions| <= from then []
    else
      var last := |decisions| - 1;
      SelectedIds(decisions[..last], from) + if decisions[last].Selected? then [last] else []
  }

  ghost predicate RowRecords(decisions: seq<Decision>, id: nat, row: Row)
  {
    && id < |decisions| && decisions[id].Selected? && row.decision == id
    && row.task == decisions[id].task && row.repo == decisions[id].item.repo && row.number == decisions[id].item.number
  }

  /** The k-th row of the run is the k-th selection of the run. */
  ghost predicate RowsAreSelections(b: nat, d: nat, s: Loop)
    requires b <= |s.store.rows|
  {
    && d <= |s.decisions|
    && |SelectedIds(s.decisions, d)| == |s.store.rows| - b
    && forall k :: 0 <= k < |SelectedIds(s.decisions, d)| ==>
         RowRecords(s.decisions, SelectedIds(s.decisions, d)[k], s.store.rows[b + k])
  }

  /** Polls are failures, decisions, or the one pass that declared a stop. */
  ghost predicate PollsAreAccounted(d: nat, s: Loop)
    requires d <= |s.decisions|
  {
    var accounted := s.counters.pollFailures + (|s.decisions| - d);
    accounted <= s.counters.cycles <= accounted + if s.drain.stop.Some? then 1 else 0
  }

  /** Nothing the store held before the run is touched by it. */
  ghost predicate PastIsKept(base: Loop, s: Loop)
  {
    && |base.store.rows| <= |s.store.rows| && s.store.rows[..|base.store.rows|] == base.store.rows
    && |base.decisions| <= |s.decisions| && s.decisions[..|base.decisions|] == base.decisions
  }

  ghost predicate Ledgered(cfg: Config, base: Loop, s: Loop)
  {
    var b, d := |base.store.rows|, |base.decisions|;
    && PastIsKept(base, s)
    && SlotsMatchRows(cfg, b, s) && RowsAreOwn(cfg, b, s) && CountersCountRows(b, s)
    && RowsAreSelections(b, d, s)
    && s.phase != Fatal(StoreRejected)
  }

  /** The whole bookkeeping invariant of a run that started in state `base`. */
  ghost predicate Bookkept(cfg: Config, base: Loop, s: Loop)
  {
    Ledgered(cfg, base, s) && PollsAreAccounted(|base.decisions|, s)
  }

  // ---------------------------------------------------------- slot set helpers

  lemma SlotRunsWithout(slots: seq<Slot>, i: nat)
    requires i < |slots|
    requires forall a, c :: 0 <= a < c < |slots| ==> slots[a].run != slots[c].run
    ensures SlotRuns(WithoutSlot(slots, i)) == SlotRuns(slots) - {slots[i].run}
    ensures forall k :: 0 <= k < |slots| - 1 ==>
              WithoutSlot(slots, i)[k] == if k < i then slots[k] else slots[k + 1]
  {
    var rest := WithoutSlot(slots, i);
    forall r | r in SlotRuns(slots) - {slots[i].run} ensures r in SlotRuns(rest) {
      var k :| 0 <= k < |slots| && slots[k].run == r;
      if k < i { assert rest[k].run == r; } else { assert rest[k - 1].run == r; }
    }
  }

  lemma SlotRunsAppend(slots: seq<Slot>, slot: Slot)
    ensures SlotRuns(slots + [slot]) == SlotRuns(slots) + {slot.run}
  {
    var more := slots + [slot];
    assert more[|slots|].run == slot.run;
    forall r | r in SlotRuns(slots) ensures r in SlotRuns(more) {
      var k :| 0 <= k < |slots| && slots[k].run == r;
      assert more[k].run == r;
    }
  }

  lemma SlotRunsSame(a: seq<Slot>, b: seq<Slot>)
    requires |a| == |b| && forall k :: 0 <= k < |a| ==> a[k].run == b[k].run
    ensures SlotRuns(a) == SlotRuns(b)
  {
    forall r | r in SlotRuns(a) ensures r in SlotRuns(b) {
      var k :| 0 <= k < |a| && a[k].run == r;
      assert b[k].run == r;
    }
    forall r | r in SlotRuns(b) ensures r in SlotRuns(a) {
      var k :| 0 <= k < |b| && b[k].run == r;
      assert a[k].run == r;
    }
  }

  // -------------------------------------------------------- counting one change

  lemma CountUpdate(b: nat, rows: seq<Row>, i: nat, row: Row, status: RunStatus)
    requires b <= i < |rows|
    ensures Total(OfStatus(status), rows[i := row][b..]) + (if rows[i].status == status then 1 else 0)
         == Total(OfStatus(status), rows[b..]) + (if row.status == status then 1 else 0)
  {
    assert rows[i := row][b..] == rows[b..][i - b := row];
    TotalUpdate(OfStatus(status), rows[b..], i - b, row);
  }

  lemma CountAppend(b: nat, rows: seq<Row>, row: Row, status: RunStatus)
    requires b <= |rows|
    ensures Total(OfStatus(status), (rows + [row])[b..])
         == Total(OfStatus(status), rows[b..]) + (if row.status == status then 1 else 0)
  {
    assert (rows + [row])[b..] == rows[b..] + [row];
    TotalAppend(OfStatus(status), rows[b..], row);
  }

  /** Statuses a settled run can be written with. */
  ghost predicate Written(status: RunStatus)
  {
    || status.Completed? || status.Failed? || status.Stalled? || status.TimedOut?
    || status.AbortedShutdown? || status.Stuck?
  }

  /** One running row takes a terminal status and one slot goes: the counters follow. */
  lemma CountersFollowFinish(b: nat, s: Loop, t: Loop, i: nat, row: Row)
    requires OwnRow(b, s, i) && s.store.rows[i].status.Running? && Written(row.status)
    requires CountersCountRows(b, s)
    requires t.store.rows == s.store.rows[i := row] && t.counters == Note(s.counters, row.status)
    requires |t.slots| + 1 == |s.slots| && HasStray(s) == HasStray(t)
    ensures CountersCountRows(b, t)
  {
    CountUpdate(b, s.store.rows, i, row, Completed);
    CountUpdate(b, s.store.rows, i, row, Failed);
    CountUpdate(b, s.store.rows, i, row, Stalled);
    CountUpdate(b, s.store.rows, i, row, TimedOut);
    CountUpdate(b, s.store.rows, i, row, AbortedShutdown);
    CountUpdate(b, s.store.rows, i, row, Stuck);
    CountUpdate(b, s.store.rows, i, row, Running);
  }

  /** A new row is appended: it is running with a slot or stray, or already settled. */
  lemma CountersFollowStart(b: nat, s: Loop, t: Loop, row: Row)
    requires b <= |s.store.rows| && CountersCountRows(b, s) && !HasStray(s)
    requires t.store.rows == s.store.rows + [row]
    requires if row.status.Running?
             then |t.slots| + (if HasStray(t) then 1 else 0) == |s.slots| + 1 && SameOutcomes(s.counters, t.counters)
             else Written(row.status) && t.slots == s.slots && !HasStray(t)
                  && SameOutcomes(Note(s.counters, row.status), t.counters)
    ensures CountersCountRows(b, t)
  {
    CountAppend(b, s.store.rows, row, Completed);
    CountAppend(b, s.store.rows, row, Failed);
    CountAppend(b, s.store.rows, row, Stalled);
    CountAppend(b, s.store.rows, row, TimedOut);
    CountAppend(b, s.store.rows, row, AbortedShutdown);
    CountAppend(b, s.store.rows, row, Stuck);
    CountAppend(b, s.store.rows, row, Running);
  }

  ghost predicate SameOutcomes(a: Counters, c: Counters)
  {
    && a.completed == c.completed && a.failed == c.failed && a.stalled == c.stalled
    && a.timedOut == c.timedOut && a.abortedOnStop == c.abortedOnStop && a.stuck == c.stuck
  }

  // ------------------------------------------------------------ reaping a slot

  /** The row a reap writes. */
  function ReapedRow(cfg: Config, s: Loop, i: nat, finish: Finish): Row
    requires i < |s.slots| && s.store.IsRunning(s.slots[i].run)
  {
    var slot := s.slots[i];
    var (status, detail) := Arbitrate(finish.outcome, slot.intent);
    var now := NowSecs(cfg, s.clock + finish.dt);
    var recorded := RecordOutcome(cfg, s.store, slot.task, status, NoProgress(finish.outcome), now);
    Finished(s.store.rows[slot.run], FinalStatus(cfg, recorded, slot.task, status), now, SpendOf(finish.outcome),
             detail)
  }

  /** What a reap changes when the slot's row is running; it is then never rejected. */
  lemma ReapEffect(cfg: Config, s: Loop, i: nat, finish: Finish)
    requires s.phase.Going? && i < |s.slots| && s.store.IsRunning(s.slots[i].run)
    ensures var t, row := ReapAt(cfg, s, i, finish), ReapedRow(cfg, s, i, finish);
            && Written(row.status)
            && t.store.rows == s.store.rows[s.slots[i].run := row]
            && t.counters == Note(s.counters, row.status)
            && t.slots == WithoutSlot(s.slots, i)
            && t.phase.Going? && t.decisions == s.decisions && t.events == s.events
            && t.drain == s.drain && t.signal == s.signal && t.clock == s.clock + finish.dt
            && t.gate == s.gate.(slotReleased := true)
  {
  }

  /** One running row turns terminal and its slot goes: the other slots still match. */
  lemma OthersStillMatch(b: nat, s: Loop, t: Loop, i: nat, row: Row)
    requires i < |s.slots| && t.slots == WithoutSlot(s.slots, i) && |t.slots| == |s.slots| - 1
    requires forall a, c :: 0 <= a < c < |s.slots| ==> s.slots[a].run != s.slots[c].run
    requires forall k :: 0 <= k < |s.slots| ==> SlotMatches(b, s, s.slots[k])
    requires s.slots[i].run < |s.store.rows| && t.store.rows == s.store.rows[s.slots[i].run := row]
    ensures forall k :: 0 <= k < |t.slots| ==> SlotMatches(b, t, t.slots[k])
  {
    forall k | 0 <= k < |t.slots| ensures SlotMatches(b, t, t.slots[k]) {
      var from := if k < i then k else k + 1;
      assert t.slots[k] == s.slots[from] && SlotMatches(b, s, s.slots[from]) && s.slots[from].run != s.slots[i].run;
    }
  }

  lemma FinishKeepsSlots(cfg: Config, b: nat, s: Loop, t: Loop, i: nat, row: Row)
    requires i < |s.slots| && SlotsMatchRows(cfg, b, s)
    requires t.slots == WithoutSlot(s.slots, i) && HasStray(t) == HasStray(s)
    requires Written(row.status)
    requires s.slots[i].run < |s.store.rows| && t.store.rows == s.store.rows[s.slots[i].run := row]
    ensures SlotsMatchRows(cfg, b, t)
  {
    assert SlotMatches(b, s, s.slots[i]);
    SlotRunsWithout(s.slots, i);
    assert s.slots[i].run in SlotRuns(s.slots);
    OthersStillMatch(b, s, t, i, row);
    WithoutIsDistinct(s.slots, i);
    RunningStillCovered(b, s, t, s.slots[i].run, row);
  }

  lemma WithoutIsDistinct(slots: seq<Slot>, i: nat)
    requires i < |slots| && forall a, c :: 0 <= a < c < |slots| ==> slots[a].run != slots[c].run
    ensures var rest := WithoutSlot(slots, i); forall a, c :: 0 <= a < c < |rest| ==> rest[a].run != rest[c].run
  {
  }

  /** With its row finished and its slot gone, every row still running has a slot. */
  lemma RunningStillCovered(b: nat, s: Loop, t: Loop, run: nat, row: Row)
    requires run < |s.store.rows| && t.store.rows == s.store.rows[run := row] && Written(row.status)
    requires HasStray(t) == HasStray(s) && SlotRuns(t.slots) == SlotRuns(s.slots) - {run}
    requires RunningIsCovered(b, s)
    ensures RunningIsCovered(b, t)
  {
    forall i: nat | OwnRow(b, t, i) && t.store.rows[i].status.Running? && !(HasStray(t) && i == |t.store.rows| - 1)
      ensures i in SlotRuns(t.slots)
    {
      assert OwnRow(b, s, i) && i != run;
    }
  }

  lemma FinishKeepsOwn(cfg: Config, b: nat, s: Loop, t: Loop, run: nat, row: Row)
    requires RowsAreOwn(cfg, b, s) && OwnRow(b, s, run)
    requires Written(row.status) && row.task == s.store.rows[run].task && row.invocation == cfg.invocation
    requires t.store.rows == s.store.rows[run := row]
    ensures RowsAreOwn(cfg, b, t)
  {
  }

  lemma ReapKeepsSlots(cfg: Config, b: nat, s: Loop, i: nat, finish: Finish)
    requires s.phase.Going? && i < |s.slots| && SlotsMatchRows(cfg, b, s) && RowsAreOwn(cfg, b, s)
    ensures SlotsMatchRows(cfg, b, ReapAt(cfg, s, i, finish)) && RowsAreOwn(cfg, b, ReapAt(cfg, s, i, finish))
  {
    assert SlotMatches(b, s, s.slots[i]);
    ReapEffect(cfg, s, i, finish);
    FinishKeepsSlots(cfg, b, s, ReapAt(cfg, s, i, finish), i, ReapedRow(cfg, s, i, finish));
    FinishKeepsOwn(cfg, b, s, ReapAt(cfg, s, i, finish), s.slots[i].run, ReapedRow(cfg, s, i, finish));
  }

  lemma ReapKeeps(cfg: Config, base: Loop, s: Loop, i: nat, finish: Finish)
    requires Bookkept(cfg, base, s) && s.phase.Going? && i < |s.slots|
    ensures Bookkept(cfg, base, ReapAt(cfg, s, i, finish))
  {
    var b := |base.store.rows|;
    var t := ReapAt(cfg, s, i, finish);
    assert SlotMatches(b, s, s.slots[i]);
    ReapEffect(cfg, s, i, finish);
    ReapKeepsSlots(cfg, b, s, i, finish);
    CountersFollowFinish(b, s, t, s.slots[i].run, ReapedRow(cfg, s, i, finish));
    assert t.store.rows[..b] == s.store.rows[..b];
    KeepsSelections(b, |base.decisions|, s, t);
  }

  /** Row identities and decisions are unchanged, so the correspondence stands. */
  lemma KeepsSelections(b: nat, d: nat, s: Loop, t: Loop)
    requires b <= |s.store.rows| == |t.store.rows| && t.decisions == s.decisions
    requires RowsAreSelections(b, d, s)
    requires forall k :: b <= k < |s.store.rows| ==> SameIdentity(s.store.rows[k], t.store.rows[k])
    ensures RowsAreSelections(b, d, t)
  {
    var ids := SelectedIds(s.decisions, d);
    forall k | 0 <= k < |ids| ensures RowRecords(t.decisions, ids[k], t.store.rows[b + k]) {
      assert RowRecords(s.decisions, ids[k], s.store.rows[b + k]);
      assert SameIdentity(s.store.rows[b + k], t.store.rows[b + k]);
    }
  }

  ghost predicate SameIdentity(a: Row, c: Row)
  {
    && a.decision == c.decision && a.task == c.task && a.repo == c.repo
    && a.number == c.number && a.invocation == c.invocation
  }

  // --------------------------------------------------------- the other micros

  lemma BeatKeepsSlots(cfg: Config, b: nat, s: Loop, i: nat, beat: nat)
    requires SlotsMatchRows(cfg, b, s) && RowsAreOwn(cfg, b, s) && s.phase.Going? && i < |s.slots|
    ensures SlotsMatchRows(cfg, b, BeatAt(cfg, s, i, beat)) && RowsAreOwn(cfg, b, BeatAt(cfg, s, i, beat))
  {
    var t := BeatAt(cfg, s, i, beat);
    assert SlotMatches(b, s, s.slots[i]);
    SlotRunsSame(s.slots, t.slots);
    forall k | 0 <= k < |t.slots| ensures SlotMatches(b, t, t.slots[k]) {
      assert SlotMatches(b, s, s.slots[k]);
    }
  }

  lemma BeatKeeps(cfg: Config, base: Loop, s: Loop, i: nat, beat: nat)
    requires Bookkept(cfg, base, s) && s.phase.Going? && i < |s.slots|
    ensures Bookkept(cfg, base, BeatAt(cfg, s, i, beat))
  {
    var b := |base.store.rows|;
    var t := BeatAt(cfg, s, i, beat);
    assert SlotMatches(b, s, s.slots[i]);
    BeatKeepsSlots(cfg, b, s, i, beat);
    assert t.store.rows[..b] == s.store.rows[..b];
    KeepsSelections(b, |base.decisions|, s, t);
    BeatCounts(b, s, t, s.slots[i].run);
  }

  lemma BeatCounts(b: nat, s: Loop, t: Loop, run: nat)
    requires OwnRow(b, s, run) && CountersCountRows(b, s)
    requires |t.store.rows| == |s.store.rows| && t.store.rows == s.store.rows[run := t.store.rows[run]]
    requires t.store.rows[run].status == s.store.rows[run].status
    requires t.counters == s.counters && |t.slots| == |s.slots| && HasStray(s) == HasStray(t)
    ensures CountersCountRows(b, t)
  {
    var row := t.store.rows[run];
    CountUpdate(b, s.store.rows, run, row, Completed);
    CountUpdate(b, s.store.rows, run, row, Failed);
    CountUpdate(b, s.store.rows, run, row, Stalled);
    CountUpdate(b, s.store.rows, run, row, TimedOut);
    CountUpdate(b, s.store.rows, run, row, AbortedShutdown);
    CountUpdate(b, s.store.rows, run, row, Stuck);
    CountUpdate(b, s.store.rows, run, row, Running);
  }

  /** Only slot intents, gate, events, drain, signals, clock, skip counts or phase move. */
  ghost predicate SameLedger(s: Loop, t: Loop)
  {
    && t.store == s.store && t.decisions == s.decisions && SameOutcomes(s.counters, t.counters)
    && |t.slots| == |s.slots|
    && (forall k :: 0 <= k < |s.slots| ==> t.slots[k].run == s.slots[k].run && t.slots[k].task == s.slots[k].task)
    && HasStray(t) == HasStray(s) && t.phase != Fatal(StoreRejected)
  }

  ghost predicate SamePolls(s: Loop, t: Loop)
  {
    && t.counters.cycles == s.counters.cycles && t.counters.pollFailures == s.counters.pollFailures
    && (s.drain.stop.Some? ==> t.drain.stop.Some?)
  }

  lemma LedgerKeeps(cfg: Config, base: Loop, s: Loop, t: Loop)
    requires Ledgered(cfg, base, s) && SameLedger(s, t)
    ensures Ledgered(cfg, base, t)
    ensures Bookkept(cfg, base, s) && SamePolls(s, t) ==> Bookkept(cfg, base, t)
  {
    var b := |base.store.rows|;
    SlotRunsSame(s.slots, t.slots);
    forall k | 0 <= k < |t.slots| ensures SlotMatches(b, t, t.slots[k]) {
      assert SlotMatches(b, s, s.slots[k]);
    }
    KeepsSelections(b, |base.decisions|, s, t);
  }

  lemma SameStateKeeps(cfg: Config, base: Loop, s: Loop, t: Loop)
    requires Bookkept(cfg, base, s) && SameLedger(s, t) && SamePolls(s, t)
    ensures Bookkept(cfg, base, t)
  {
    LedgerKeeps(cfg, base, s, t);
  }

  lemma KillKeeps(cfg: Config, base: Loop, s: Loop, rule: KillRule, intent: Intent)
    requires Bookkept(cfg, base, s)
    ensures Bookkept(cfg, base, KillWhere(cfg, s, rule, intent))
  {
    SameStateKeeps(cfg, base, s, KillWhere(cfg, s, rule, intent));
  }

  lemma MicroKeeps(cfg: Config, base: Loop, s: Loop, m: Micro)
    requires Bookkept(cfg, base, s)
    ensures Bookkept(cfg, base, Exec(cfg, s, m))
  {
    if s.phase.Going? {
      match m
      case ReapSlot(i, finish) => if i < |s.slots| { ReapKeeps(cfg, base, s, i, finish); }
      case BeatSlot(j, beat) => if j < |s.slots| { BeatKeeps(cfg, base, s, j, beat); }
      case Kill(rule, intent) => KillKeeps(cfg, base, s, rule, intent);
      case Advance(dt) => SameStateKeeps(cfg, base, s, Tick(s, dt));
    }
  }

  lemma {:induction false} TraceKeeps(cfg: Config, base: Loop, s: Loop, trace: seq<Micro>)
    requires Bookkept(cfg, base, s)
    ensures Bookkept(cfg, base, ExecAll(cfg, s, trace))
    decreases |trace|
  {
    if trace != [] {
      MicroKeeps(cfg, base, s, trace[0]);
      TraceKeeps(cfg, base, Exec(cfg, s, trace[0]), trace[1..]);
    }
  }

  // ------------------------------------------------------------------ planning

  lemma {:induction false} RetainMeaning(items: seq<ReadyItem>, excluded: set<string>)
    ensures forall item :: item in Retain(items, excluded) <==> item in items && ItemTask(item) !in excluded
  {
    if items != [] {
      var last := |items| - 1;
      RetainMeaning(items[..last], excluded);
      assert items == items[..last] + [items[last]];
    }
  }

  /** Whatever the provider proposes, a selected task was ready and is not excluded. */
  lemma SelectionAvoidsExcluded(snapshot: BoardSnapshot, excluded: set<string>, consulted: Consultation)
    ensures var d := CampaignDecision(snapshot.(ready := Retain(snapshot.ready, excluded)), consulted);
            d.Selected? ==> d.task !in excluded && d.item in snapshot.ready && d.task == ItemTask(d.item)
  {
    RetainMeaning(snapshot.ready, excluded);
    DecisionIsEligible(snapshot.(ready := Retain(snapshot.ready, excluded)), consulted);
  }

  lemma BusyCoversOwnRows(cfg: Config, b: nat, s: Loop)
    requires b <= |s.store.rows| && RowsAreOwn(cfg, b, s)
    ensures forall i: nat :: OwnRow(b, s, i) ==> s.store.rows[i].task in BusyTasks(cfg, s)
  {
  }

  /** The record the row refers to was just appended. */
  lemma SelectionGrows(b: nat, d: nat, s: Loop, t: Loop, row: Row)
    requires b <= |s.store.rows| && RowsAreSelections(b, d, s)
    requires |t.decisions| == |s.decisions| + 1 && t.decisions[..|s.decisions|] == s.decisions
    requires t.store.rows == s.store.rows + [row] && RowRecords(t.decisions, |s.decisions|, row)
    ensures RowsAreSelections(b, d, t)
  {
    var ids, more := SelectedIds(s.decisions, d), SelectedIds(t.decisions, d);
    assert more == ids + [|s.decisions|];
    forall k | 0 <= k < |more| ensures RowRecords(t.decisions, more[k], t.store.rows[b + k]) {
      if k < |ids| { assert RowRecords(s.decisions, ids[k], s.store.rows[b + k]); }
    }
  }

  lemma NoOpGrows(b: nat, d: nat, s: Loop, t: Loop)
    requires b <= |s.store.rows| && RowsAreSelections(b, d, s)
    requires |t.decisions| == |s.decisions| + 1 && t.decisions[..|s.decisions|] == s.decisions
    requires t.decisions[|s.decisions|].NoOp? && t.store.rows == s.store.rows
    ensures RowsAreSelections(b, d, t)
  {
    var ids := SelectedIds(s.decisions, d);
    assert SelectedIds(t.decisions, d) == ids;
    forall k | 0 <= k < |ids| ensures RowRecords(t.decisions, ids[k], t.store.rows[b + k]) {
      assert RowRecords(s.decisions, ids[k], s.store.rows[b + k]);
    }
  }

  /** How the slots move when a row is appended. */
  ghost predicate SlotsFollowStart(s: Loop, t: Loop, row: Row)
  {
    if !row.status.Running? then t.slots == s.slots && t.phase.Going? && Written(row.status)
    else if HasStray(t) then t.slots == s.slots
    else && |t.slots| == |s.slots| + 1 && t.slots[..|s.slots|] == s.slots
         && t.slots[|s.slots|].run == |s.store.rows| && t.slots[|s.slots|].task == row.task
  }

  lemma StartKeepsSlots(cfg: Config, b: nat, s: Loop, t: Loop, row: Row)
    requires SlotsMatchRows(cfg, b, s) && RowsAreOwn(cfg, b, s) && s.phase.Going?
    requires t.store.rows == s.store.rows + [row] && SlotsFollowStart(s, t, row) && |s.slots| < cfg.maxWorkers
    requires row.invocation == cfg.invocation && !row.status.Orphaned? && !row.status.Paused?
    requires forall i: nat :: OwnRow(b, s, i) ==> s.store.rows[i].task != row.task
    ensures SlotsMatchRows(cfg, b, t) && RowsAreOwn(cfg, b, t)
  {
    if |t.slots| > |s.slots| {
      SlotRunsAppend(s.slots, t.slots[|s.slots|]);
      assert t.slots == s.slots + [t.slots[|s.slots|]];
    }
    forall k | 0 <= k < |t.slots| ensures SlotMatches(b, t, t.slots[k]) {
      if k < |s.slots| { assert SlotMatches(b, s, s.slots[k]) && t.slots[k] == s.slots[k]; }
    }
    forall i: nat | OwnRow(b, t, i) && t.store.rows[i].status.Running? && !(HasStray(t) && i == |t.store.rows| - 1)
      ensures i in SlotRuns(t.slots)
    {
      if i < |s.store.rows| { assert OwnRow(b, s, i); }
    }
  }

  lemma StartKeeps(cfg: Config, base: Loop, s: Loop, t: Loop, row: Row)
    requires Ledgered(cfg, base, s) && s.phase.Going? && |s.slots| < cfg.maxWorkers
    requires |t.decisions| == |s.decisions| + 1 && t.decisions[..|s.decisions|] == s.decisions
    requires t.store.rows == s.store.rows + [row] && RowRecords(t.decisions, |s.decisions|, row)
    requires row.invocation == cfg.invocation && row.task !in BusyTasks(cfg, s)
    requires SlotsFollowStart(s, t, row) && t.phase != Fatal(StoreRejected)
    requires !row.status.Orphaned? && !row.status.Paused?
    requires SameOutcomes(if row.status.Running? then s.counters else Note(s.counters, row.status), t.counters)
    ensures Ledgered(cfg, base, t)
  {
    var b, d := |base.store.rows|, |base.decisions|;
    BusyCoversOwnRows(cfg, b, s);
    StartKeepsSlots(cfg, b, s, t, row);
    CountersFollowStart(b, s, t, row);
    SelectionGrows(b, d, s, t, row);
    assert t.store.rows[..b] == s.store.rows[..b] && t.decisions[..d] == s.decisions[..d];
  }

  /** The row a spawn leaves behind. */
  function SpawnedRow(cfg: Config, s: Loop, decision: Decision, start: StartIn): Row
    requires decision.Selected? && s.decisions != []
  {
    var row := NewRow(Request(cfg, s, decision));
    if !start.SpawnFailed? then row
    else
      var now := NowSecs(cfg, s.clock);
      var started := s.store.Start(Request(cfg, s, decision));
      var recorded := RecordOutcome(cfg, started, decision.task, Failed, false, now);
      Finished(row, FinalStatus(cfg, recorded, decision.task, Failed), now, 0, SpawnMessage)
  }

  lemma SpawnEffect(cfg: Config, s: Loop, decision: Decision, start: StartIn)
    requires decision.Selected? && s.decisions != [] && s.phase.Going?
    ensures var t, row := Spawn(cfg, s, decision, start), SpawnedRow(cfg, s, decision, start);
            && t.store.rows == s.store.rows + [row] && t.decisions == s.decisions
            && SlotsFollowStart(s, t, row)
            && t.drain == s.drain && t.signal == s.signal && t.events == s.events
            && t.phase == (if start.StarterError? then Fatal(StarterFailed) else Going)
            && SameOutcomes(if row.status.Running? then s.counters else Note(s.counters, row.status), t.counters)
            && t.counters.cycles == s.counters.cycles && t.counters.pollFailures == s.counters.pollFailures
            && s.clock <= t.clock
  {
    if start.SpawnFailed? {
      var run := |s.store.rows|;
      var row := NewRow(Request(cfg, s, decision));
      var recorded := RecordOutcome(cfg, s.store.Start(Request(cfg, s, decision)), decision.task, Failed, false,
                                    NowSecs(cfg, s.clock));
      assert recorded.rows == s.store.rows + [row] && recorded.rows[run] == row;
      assert (s.store.rows + [row])[run := SpawnedRow(cfg, s, decision, start)]
          == s.store.rows + [SpawnedRow(cfg, s, decision, start)];
    }
  }

  lemma PlanKeeps(cfg: Config, base: Loop, s: Loop, excluded: set<string>, peeked: set<nat>, plan: PlanIn)
    requires Ledgered(cfg, base, s) && s.phase.Going? && |s.slots| < cfg.maxWorkers
    requires BusyTasks(cfg, s) <= excluded
    ensures var t := Plan(cfg, s, excluded, peeked, plan);
            && Ledgered(cfg, base, t) && t.drain == s.drain
            && |t.decisions| == |s.decisions| + 1
            && t.counters.cycles == s.counters.cycles && t.counters.pollFailures == s.counters.pollFailures
  {
    var snapshot := plan.snapshot.(ready := Retain(plan.snapshot.ready, excluded));
    var decision := CampaignDecision(snapshot, plan.consulted);
    var recorded := s.(decisions := s.decisions + [decision],
                       events := DrainEvents(Arrive(s.events, plan.arrivals), peeked));
    var t := Plan(cfg, s, excluded, peeked, plan);
    if decision.Selected? {
      SelectionAvoidsExcluded(plan.snapshot, excluded, plan.consulted);
      SpawnEffect(cfg, recorded, decision, plan.start);
      StartKeeps(cfg, base, s, t, SpawnedRow(cfg, recorded, decision, plan.start));
    } else {
      RecordNoOpKeeps(cfg, base, s, t, decision);
    }
  }

  lemma RecordNoOpKeeps(cfg: Config, base: Loop, s: Loop, t: Loop, decision: Decision)
    requires Ledgered(cfg, base, s) && s.phase.Going? && decision.NoOp?
    requires t.decisions == s.decisions + [decision] && t.store == s.store && t.slots == s.slots
    requires SameOutcomes(s.counters, t.counters) && t.phase.Going?
    ensures Ledgered(cfg, base, t)
  {
    NoOpGrows(|base.store.rows|, |base.decisions|, s, t);
    assert t.decisions[..|base.decisions|] == s.decisions[..|base.decisions|];
    forall k | 0 <= k < |t.slots| ensures SlotMatches(|base.store.rows|, t, t.slots[k]) {
      assert SlotMatches(|base.store.rows|, s, s.slots[k]);
    }
  }

  lemma PlanAndSpawnKeeps(cfg: Config, base: Loop, s: Loop, plan: PlanIn)
    requires Ledgered(cfg, base, s) && s.phase.Going? && |s.slots| < cfg.maxWorkers
    ensures var t := PlanAndSpawn(cfg, s, plan);
            && Ledgered(cfg, base, t) && t.drain == s.drain
            && |t.decisions| == |s.decisions| + 1
            && t.counters.cycles == s.counters.cycles && t.counters.pollFailures == s.counters.pollFailures
  {
    var gated := Gated(cfg, s, plan.snapshot);
    GatedKeeps(cfg, base, s, plan.snapshot);
    var now := NowSecs(cfg, s.clock);
    if Proceeds(cfg, s, now, plan.snapshot) {
      PlanKeeps(cfg, base, gated, Excluded(cfg, s, now), Peeked(cfg, s), plan);
    } else {
      RecordNoOpKeeps(cfg, base, gated, RecordKickoffSkip(cfg, gated), NoOp(KickoffGate));
    }
  }

  lemma GatedKeeps(cfg: Config, base: Loop, s: Loop, snapshot: BoardSnapshot)
    requires Ledgered(cfg, base, s) && s.phase.Going?
    ensures Ledgered(cfg, base, Gated(cfg, s, snapshot))
    ensures BusyTasks(cfg, Gated(cfg, s, snapshot)) == BusyTasks(cfg, s)
  {
    LedgerKeeps(cfg, base, s, Gated(cfg, s, snapshot));
  }

  // ------------------------------------------------------- passes and the loop

  /** One poll more than accounted for, in a state whose ledger is in order. */
  ghost predicate PollIsOpen(cfg: Config, base: Loop, s: Loop)
  {
    && Ledgered(cfg, base, s) && s.phase.Going?
    && s.counters.cycles == s.counters.pollFailures + (|s.decisions| - |base.decisions|) + 1
  }

  /** A pass that declares a stop closes the poll without a decision. */
  lemma StopClosesPoll(cfg: Config, base: Loop, s: Loop, t: Loop)
    requires PollIsOpen(cfg, base, s) && SameLedger(s, t) && t.drain.stop.Some?
    requires t.counters.cycles == s.counters.cycles && t.counters.pollFailures == s.counters.pollFailures
    ensures Bookkept(cfg, base, t)
  {
    LedgerKeeps(cfg, base, s, t);
  }

  lemma PollOpens(cfg: Config, base: Loop, s: Loop, top: nat, pass: PassIn, polled: Loop)
    requires Bookkept(cfg, base, s) && s.phase.Going? && s.drain.stop.None?
    requires polled == Tick(Tick(BeginPass(cfg, s, top), pass.dtBudget), pass.dt)
                       .(signal := Deliver(s.signal, pass.sends, pass.closes),
                         events := Arrive(s.events, pass.arrivals))
    ensures PollIsOpen(cfg, base, polled) && polled.drain.stop.None? && |polled.slots| == |s.slots|
  {
    LedgerKeeps(cfg, base, s, polled);
  }

  lemma PassKeeps(cfg: Config, base: Loop, s: Loop, top: nat, pass: PassIn)
    requires Bookkept(cfg, base, s) && s.phase.Going? && s.drain.stop.None?
    ensures Bookkept(cfg, base, Pass(cfg, s, top, pass))
  {
    if !PassGated(cfg, s, top) {
      var begun := Tick(BeginPass(cfg, s, top), pass.dtBudget);
      var polled := Tick(begun, pass.dt)
                    .(signal := Deliver(s.signal, pass.sends, pass.closes), events := Arrive(s.events, pass.arrivals));
      PollOpens(cfg, base, s, top, pass, polled);
      PolledKeeps(cfg, base, begun, polled, pass, Pass(cfg, s, top, pass));
    }
  }

  /** The three ways an open poll ends. */
  lemma PolledKeeps(cfg: Config, base: Loop, begun: Loop, polled: Loop, pass: PassIn, t: Loop)
    requires PollIsOpen(cfg, base, polled) && polled.drain.stop.None? && |polled.slots| < cfg.maxWorkers
    requires t == if pass.signalFirst && polled.signal.sends > polled.signal.cloneSeen
                  then ShutdownFromPass(cfg, Tick(polled, pass.dtAfter), true)
                  else if pass.budgetFirst && begun.clock <= cfg.runBudget <= polled.clock
                  then BudgetStop(cfg, Tick(polled, pass.dtAfter)) else AfterPoll(cfg, polled, pass)
    ensures Bookkept(cfg, base, t)
  {
    if pass.signalFirst && polled.signal.sends > polled.signal.cloneSeen {
      SignalEndsPoll(cfg, base, polled, pass.dtAfter, true);
    } else if pass.budgetFirst && begun.clock <= cfg.runBudget <= polled.clock {
      BudgetEndsPoll(cfg, base, polled, pass.dtAfter);
    } else {
      AfterPollKeeps(cfg, base, polled, pass);
    }
  }

  function BudgetStop(cfg: Config, s: Loop): Loop
  {
    Declare(s, RunBudgetExhausted, At(s.clock + cfg.shutdownBudget))
  }

  lemma BudgetEndsPoll(cfg: Config, base: Loop, s: Loop, dt: nat)
    requires PollIsOpen(cfg, base, s)
    ensures Bookkept(cfg, base, BudgetStop(cfg, Tick(s, dt)))
  {
    StopClosesPoll(cfg, base, s, BudgetStop(cfg, Tick(s, dt)));
  }

  lemma SignalEndsPoll(cfg: Config, base: Loop, s: Loop, dt: nat, marksClone: bool)
    requires PollIsOpen(cfg, base, s)
    ensures Bookkept(cfg, base, ShutdownFromPass(cfg, Tick(s, dt), marksClone))
  {
    StopClosesPoll(cfg, base, s, ShutdownFromPass(cfg, Tick(s, dt), marksClone));
  }

  lemma PollErrorKeeps(cfg: Config, base: Loop, s: Loop, pass: PassIn)
    requires PollIsOpen(cfg, base, s) && s.drain.stop.None? && pass.result.PollError?
    ensures Bookkept(cfg, base, AfterPoll(cfg, s, pass))
  {
    LedgerKeeps(cfg, base, s, AfterPoll(cfg, s, pass));
  }

  lemma PlannedKeeps(cfg: Config, base: Loop, s: Loop, dt: nat, plan: PlanIn)
    requires PollIsOpen(cfg, base, s) && s.drain.stop.None? && |s.slots| < cfg.maxWorkers
    ensures Bookkept(cfg, base, PlanAndSpawn(cfg, Tick(s, dt), plan))
  {
    LedgerKeeps(cfg, base, s, Tick(s, dt));
    PlanAndSpawnKeeps(cfg, base, Tick(s, dt), plan);
  }

  lemma AfterPollKeeps(cfg: Config, base: Loop, s: Loop, pass: PassIn)
    requires PollIsOpen(cfg, base, s) && s.drain.stop.None? && |s.slots| < cfg.maxWorkers
    ensures Bookkept(cfg, base, AfterPoll(cfg, s, pass))
  {
    if pass.result.PollError? {
      PollErrorKeeps(cfg, base, s, pass);
    } else {
      var later := Tick(s, pass.dtAfter);
      if s.clock >= cfg.runBudget {
        assert AfterPoll(cfg, s, pass) == BudgetStop(cfg, later);
        BudgetEndsPoll(cfg, base, s, pass.dtAfter);
      } else if !s.signal.closed && s.signal.sends > s.signal.cloneSeen {
        assert AfterPoll(cfg, s, pass) == ShutdownFromPass(cfg, later, false);
        SignalEndsPoll(cfg, base, s, pass.dtAfter, false);
      } else {
        assert AfterPoll(cfg, s, pass) == PlanAndSpawn(cfg, later, pass.result.plan);
        PlannedKeeps(cfg, base, s, pass.dtAfter, pass.result.plan);
      }
    }
  }

  lemma DrainSweepKeeps(cfg: Config, base: Loop, s: Loop, step: DrainIn)
    requires Bookkept(cfg, base, s) && s.phase.Going? && s.drain.stop.Some?
    ensures Bookkept(cfg, base, DrainSweep(cfg, s, step)) && DrainSweep(cfg, s, step).drain.stop.Some?
  {
    var trace := DrainIsTrace(cfg, s, step);
    TraceKeeps(cfg, base, s, trace);
    TraceFrame(cfg, s, trace);
  }

  lemma DrainKeeps(cfg: Config, base: Loop, s: Loop, top: nat, step: Iter)
    requires Bookkept(cfg, base, s) && s.phase.Going? && s.drain.stop.Some?
    ensures Bookkept(cfg, base, Guards(cfg, s, top, step))
  {
    DrainSweepKeeps(cfg, base, s, step.drain);
    DrainEnds(cfg, s, top, step);
    SameStateKeeps(cfg, base, DrainSweep(cfg, s, step.drain), Guards(cfg, s, top, step));
  }

  /** After its sweep a drain only restarts the window or exits. */
  lemma DrainEnds(cfg: Config, s: Loop, top: nat, step: Iter)
    requires s.drain.stop.Some?
    ensures var swept, t := DrainSweep(cfg, s, step.drain), Guards(cfg, s, top, step);
            && t.store == swept.store && t.slots == swept.slots && t.decisions == swept.decisions
            && t.counters == swept.counters && t.drain.stop == swept.drain.stop && t.clock == swept.clock
            && (t.phase == swept.phase || (swept.phase.Going? && t.phase.Exited?))
  {
  }

  /** A budget guard fires: the stop is declared and nothing else moves. */
  lemma BudgetGuardsKeep(cfg: Config, base: Loop, s: Loop, top: nat, step: Iter)
    requires Bookkept(cfg, base, s) && s.drain.stop.None?
    requires top >= cfg.runBudget || s.store.DailySpend(NowSecs(cfg, top)) >= cfg.spendCap
             || (cfg.maxCycles.Some? && s.counters.cycles >= cfg.maxCycles.value)
    ensures Bookkept(cfg, base, Guards(cfg, s, top, step))
  {
    LedgerKeeps(cfg, base, s, Guards(cfg, s, top, step));
  }

  lemma GuardsKeep(cfg: Config, base: Loop, s: Loop, top: nat, step: Iter)
    requires Bookkept(cfg, base, s) && s.phase.Going?
    ensures Bookkept(cfg, base, Guards(cfg, s, top, step))
  {
    if s.drain.stop.Some? {
      DrainKeeps(cfg, base, s, top, step);
    } else if top >= cfg.runBudget || s.store.DailySpend(NowSecs(cfg, top)) >= cfg.spendCap
              || (cfg.maxCycles.Some? && s.counters.cycles >= cfg.maxCycles.value) {
      BudgetGuardsKeep(cfg, base, s, top, step);
    } else {
      assert Guards(cfg, s, top, step) == Pass(cfg, s, top, step.pass);
      PassKeeps(cfg, base, s, top, step.pass);
    }
  }

  /** What elementary steps leave alone: stops, signals, decisions, events and poll counts. */
  ghost predicate Framed(s: Loop, t: Loop)
  {
    && t.drain == s.drain && t.signal == s.signal && t.decisions == s.decisions && t.events == s.events
    && t.counters.cycles == s.counters.cycles && t.counters.pollFailures == s.counters.pollFailures
    && t.gate == s.gate.(slotReleased := t.gate.slotReleased)
    && |t.store.rows| == |s.store.rows| && |t.slots| <= |s.slots| && s.clock <= t.clock
    && (t.phase == s.phase || t.phase == Fatal(StoreRejected))
  }

  lemma SettleFrame(cfg: Config, s: Loop, run: nat, task: string, status: RunStatus, detail: Detail,
                    noProgress: bool, spend: nat, now: nat)
    ensures Framed(s, Settle(cfg, s, run, task, status, detail, noProgress, spend, now))
    ensures Settle(cfg, s, run, task, status, detail, noProgress, spend, now).slots == s.slots
    ensures Settle(cfg, s, run, task, status, detail, noProgress, spend, now).clock == s.clock
  {
  }

  lemma ReapFrame(cfg: Config, s: Loop, i: nat, finish: Finish)
    requires i < |s.slots|
    ensures Framed(s, ReapAt(cfg, s, i, finish))
  {
    var slot := s.slots[i];
    var clock := s.clock + finish.dt;
    var (status, detail) := Arbitrate(finish.outcome, slot.intent);
    SettleFrame(cfg, s.(slots := WithoutSlot(s.slots, i), clock := clock), slot.run, slot.task, status, detail,
                NoProgress(finish.outcome), SpendOf(finish.outcome), NowSecs(cfg, clock));
  }

  lemma MicroFrame(cfg: Config, s: Loop, m: Micro)
    ensures Framed(s, Exec(cfg, s, m))
  {
    if s.phase.Going? && m.ReapSlot? && m.i < |s.slots| { ReapFrame(cfg, s, m.i, m.finish); }
  }

  lemma {:induction false} TraceFrame(cfg: Config, s: Loop, trace: seq<Micro>)
    ensures Framed(s, ExecAll(cfg, s, trace))
    decreases |trace|
  {
    if trace != [] {
      MicroFrame(cfg, s, trace[0]);
      TraceFrame(cfg, Exec(cfg, s, trace[0]), trace[1..]);
    }
  }

  lemma SuperviseKeeps(cfg: Config, base: Loop, s: Loop, dt: nat, step: SuperviseIn)
    requires Bookkept(cfg, base, s) && s.phase.Going?
    ensures Bookkept(cfg, base, Supervise(cfg, Tick(s, dt), step))
  {
    var top := Tick(s, dt);
    LedgerKeeps(cfg, base, s, top);
    var trace := SuperviseIsTrace(cfg, top, step);
    TraceKeeps(cfg, base, top, trace);
  }

  lemma WaitKeeps(cfg: Config, base: Loop, s: Loop, step: WaitIn)
    requires Bookkept(cfg, base, s) && s.phase.Going?
    ensures Bookkept(cfg, base, Wait(cfg, s, step))
  {
    LedgerKeeps(cfg, base, s, Wait(cfg, s, step));
  }

  /** One whole iteration keeps the bookkeeping invariant. */
  lemma IterateKeeps(cfg: Config, base: Loop, s: Loop, step: Iter)
    requires Bookkept(cfg, base, s)
    ensures Bookkept(cfg, base, Iterate(cfg, s, step))
  {
    if s.phase.Going? {
      SuperviseKeeps(cfg, base, s, step.dtTop, step.supervise);
      var top := Tick(s, step.dtTop);
      var supervised := Supervise(cfg, top, step.supervise);
      if supervised.phase.Going? {
        GuardsKeep(cfg, base, supervised, top.clock, step);
        var guarded := Guards(cfg, supervised, top.clock, step);
        if guarded.phase.Going? { WaitKeeps(cfg, base, guarded, step.wait); }
      }
    }
  }

  ghost predicate IsStart(base: Loop)
  {
    && base.slots == [] && base.counters == NO_COUNTS && base.phase.Going?
    && base.drain == DrainState(None, None, Unbounded)
    && base.signal.mainSeen == base.signal.cloneSeen <= base.signal.sends
    && base.signal.applied == [] && !base.signal.sourceGone && base.clock == 0
  }

  /** A run begins idle and remembers no board, and either receiver still has to hear every signal that is waiting. */
  lemma RunBeginsFresh(store: Store, decisions: seq<Decision>, events: EventQueue, previousDay: Option<nat>,
                       unseen: nat)
    ensures var s := InitialLoop(store, decisions, events, previousDay, unseen);
            && IsStart(s) && s.store == store && s.decisions == decisions && s.events == events
            && s.gate.previousReady == {} && s.gate.previousBlocked == {} && !s.gate.slotReleased
            && s.gate.lastPassDay == previousDay && s.gate.nextPass == s.gate.nextPoll == s.gate.backoffIndex == 0
            && s.signal.sends == s.signal.mainSeen + unseen == s.signal.cloneSeen + unseen && !s.signal.closed
  {
  }

  lemma StartIsBookkept(cfg: Config, base: Loop)
    requires IsStart(base)
    ensures Bookkept(cfg, base, base)
  {
    var b := |base.store.rows|;
    assert base.store.rows[b..] == [] && base.store.rows[..b] == base.store.rows;
    assert base.decisions[..|base.decisions|] == base.decisions;
  }

  /**
  At every point of every run, from any store: slots and this run's running
  rows are in bijection and within the cap, no store write is ever rejected,
  every terminal counter counts its rows, the run's rows are its selections
  one to one and in order with pairwise distinct tasks, polls are accounted
  for, and nothing recorded before the run has changed.
   */
  lemma {:induction false} RunIsBookkept(cfg: Config, base: Loop, script: seq<Iter>)
    requires IsStart(base)
    ensures Bookkept(cfg, base, Run(cfg, base, script))
  {
    if script == [] {
      StartIsBookkept(cfg, base);
    } else {
      RunIsBookkept(cfg, base, script[..|script| - 1]);
      IterateKeeps(cfg, base, Run(cfg, base, script[..|script| - 1]), script[|script| - 1]);
    }
  }
}

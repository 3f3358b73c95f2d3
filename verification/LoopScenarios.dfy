/**
Two runs from an empty store, for every ordinary configuration and every pair
of items: one whose second signal moves the drain deadline past the grace
window, and one whose failed starter makes the sweep drop a completed run.
 */
module LoopScenarios {
  import opened Wrappers
  import opened RunState
  import opened TaskId
  import opened Selection
  import opened Kickoff
  import opened LoopModel
  import opened LoopBookkeeping
  import opened LoopArbitration
  import opened LoopReaping
  import opened LoopGrace

  /** Two workers, positive limits, no poll pacing, and new work as an armed condition. */
  ghost predicate IsOrdinary(cfg: Config)
  {
    && cfg.maxWorkers >= 2 && cfg.stallTimeout > 0 && cfg.workerTimeout > 0 && cfg.runBudget > 0 && cfg.spendCap > 0
    && cfg.maxCycles.None? && cfg.minPollInterval.None? && cfg.kickoff.newEligibleWork
  }

  /** A run that starts with an empty store and an unused channel. */
  function EmptyStart(events: EventQueue, day: Option<nat>): Loop
  {
    InitialLoop(Store([], map[]), [], events, day, 0)
  }

  const QUIET: SuperviseIn := SuperviseIn(map[], 0, map[], 0, 0, map[])
  const NO_DRAIN: DrainIn := DrainIn(0, map[])

  function BoardOf(item: ReadyItem): BoardSnapshot { BoardSnapshot([], [item], [], []) }

  /** A poll that answers at once with one ready item. */
  function PollFor(item: ReadyItem, start: StartIn): PassIn
  {
    PassIn(0, 0, 0, false, 0, false, false, PollOk(PlanIn(BoardOf(item), NotConsulted, 0, start)), 0)
  }

  /** An iteration in which only the poll and the wait do something. */
  function PollingIter(item: ReadyItem, start: StartIn, wait: WaitIn): Iter
  {
    Iter(0, QUIET, NO_DRAIN, PollFor(item, start), wait)
  }

  // ---------------------------------------------------------- iterations without events

  lemma {:induction false} ReapNothing(cfg: Config, s: Loop, i: nat)
    ensures ReapFrom(cfg, s, i, map[]) == s
    decreases |s.slots| - i
  {
    if s.phase.Going? && i < |s.slots| { ReapNothing(cfg, s, i + 1); }
  }

  lemma {:induction false} BeatNothing(cfg: Config, s: Loop, i: nat)
    ensures BeatFrom(cfg, s, i, map[]) == s
    decreases |s.slots| - i
  {
    if s.phase.Going? && i < |s.slots| { BeatNothing(cfg, s, i + 1); }
  }

  ghost predicate AllLive(cfg: Config, s: Loop)
  {
    forall k :: 0 <= k < |s.slots| ==> IsLive(cfg, s.slots[k], s.clock, 0)
  }

  lemma KillNothing(cfg: Config, s: Loop)
    requires AllLive(cfg, s)
    ensures KillSweeps(cfg, s, QUIET) == s
  {
    var first := KillWhere(cfg, Tick(s, 0), Stale, Stall);
    assert first.slots == s.slots;
    assert KillSweeps(cfg, s, QUIET).slots == s.slots;
  }

  lemma QuietSupervision(cfg: Config, s: Loop)
    requires s.phase.Going? && AllLive(cfg, s)
    ensures Supervise(cfg, s, QUIET) == s
  {
    ReapNothing(cfg, s, 0);
    BeatNothing(cfg, s, 0);
    KillNothing(cfg, s);
  }

  lemma QuietIterate(cfg: Config, s: Loop, item: ReadyItem, start: StartIn, wait: WaitIn)
    requires s.phase.Going? && AllLive(cfg, s)
    ensures var step := PollingIter(item, start, wait);
            var g := Guards(cfg, s, s.clock, step);
            Iterate(cfg, s, step) == if g.phase.Going? then Wait(cfg, g, wait) else g
  {
    assert Tick(s, 0) == s;
    QuietSupervision(cfg, s);
  }

  // -------------------------------------------------------------------- one planned pass

  /** A live loop under no stop, with a free worker and nothing in the way of a poll at its current instant. */
  ghost predicate IsOpen(cfg: Config, s: Loop)
  {
    && s.phase.Going? && s.drain.stop.None? && |s.slots| < cfg.maxWorkers && s.clock < cfg.runBudget
    && s.gate.nextPass <= s.clock && s.gate.nextPoll <= s.clock && s.signal.sends == s.signal.cloneSeen
    && s.store.retry == map[] && s.store.DailySpend(NowSecs(cfg, s.clock)) < cfg.spendCap
  }

  /** The item's task is new to the run, and idle loops did not know it as ready. */
  ghost predicate IsNewTo(s: Loop, item: ReadyItem)
  {
    && (forall k :: 0 <= k < |s.slots| ==> s.slots[k].task != ItemTask(item))
    && (forall i :: 0 <= i < |s.store.rows| ==> s.store.rows[i].task != ItemTask(item))
    && ItemTask(item) !in s.gate.previousReady
  }

  lemma OneItemIsSelected(item: ReadyItem, excluded: set<string>)
    requires ItemTask(item) !in excluded
    ensures Retain([item], excluded) == [item]
    ensures CampaignDecision(BoardOf(item), NotConsulted) == Selected(item, ItemTask(item))
  {
    assert [item][..0] == [] && Retain([], excluded) == [];
    DecisionIsEligible(BoardOf(item), NotConsulted);
    assert CampaignDecision(BoardOf(item), NotConsulted).item in [item];
  }

  lemma TasksOfOne(item: ReadyItem)
    ensures TasksOf([item]) == {ItemTask(item)}
  {
    assert [item][0] == item;
    assert ItemTask([item][0]) in TasksOf([item]);
  }

  lemma NewIsNotExcluded(cfg: Config, s: Loop, item: ReadyItem)
    requires IsNewTo(s, item) && s.store.retry == map[]
    ensures ItemTask(item) !in Excluded(cfg, s, NowSecs(cfg, s.clock))
  {
  }

  lemma NewProceeds(cfg: Config, s: Loop, item: ReadyItem)
    requires IsOrdinary(cfg) && IsNewTo(s, item) && s.store.retry == map[]
    ensures Proceeds(cfg, s, NowSecs(cfg, s.clock), BoardOf(item))
  {
    NewIsNotExcluded(cfg, s, item);
    TasksOfOne(item);
    var o := Observe(cfg, s, NowSecs(cfg, s.clock), BoardOf(item));
    assert ItemTask(item) in o.readyIds && ItemTask(item) !in o.previousReadyIds;
    assert Fires(cfg.kickoff, o, NewEligibleWork);
  }

  lemma PollAnswers(cfg: Config, s: Loop, item: ReadyItem, start: StartIn)
    requires IsOpen(cfg, s)
    ensures Pass(cfg, s, s.clock, PollFor(item, start))
              == AfterPoll(cfg, BeginPass(cfg, s, s.clock), PollFor(item, start))
  {
    assert Arrive(s.events, 0) == s.events && Deliver(s.signal, 0, false) == s.signal;
    var begun := BeginPass(cfg, s, s.clock);
    assert Tick(Tick(begun, 0), 0).(signal := Deliver(s.signal, 0, false), events := Arrive(s.events, 0)) == begun;
  }

  lemma PollReachesPlan(cfg: Config, s: Loop, item: ReadyItem, start: StartIn)
    requires s.clock < cfg.runBudget && s.signal.sends == s.signal.cloneSeen
    ensures AfterPoll(cfg, s, PollFor(item, start)) == PlanAndSpawn(cfg, s, PollFor(item, start).result.plan)
  {
    assert Tick(s, 0) == s;
  }

  /** What planning does with one new item. */
  ghost predicate IsPlannedFor(s: Loop, t: Loop, item: ReadyItem, start: StartIn)
  {
    && |t.store.rows| == |s.store.rows| + 1 && t.store.rows[..|s.store.rows|] == s.store.rows
    && t.store.rows[|s.store.rows|].task == ItemTask(item) && t.store.rows[|s.store.rows|].spend == 0
    && t.store.retry == s.store.retry && t.drain == s.drain && t.signal == s.signal && t.clock == s.clock
    && (start.Started? ==>
          && t.phase.Going? && t.gate.nextPass == s.clock && t.gate.nextPoll == s.gate.nextPoll
          && t.gate.previousReady == {ItemTask(item)}
          && t.slots == s.slots + [Slot(|s.store.rows|, ItemTask(item), s.clock, s.clock, None, false)])
    && (start.StarterError? ==> t.phase == Fatal(StarterFailed) && t.slots == s.slots)
  }

  lemma SpawnPlans(cfg: Config, s: Loop, item: ReadyItem, start: StartIn)
    requires s.phase.Going? && s.decisions != [] && !start.SpawnFailed? && s.gate.previousReady == {ItemTask(item)}
    ensures IsPlannedFor(s, Spawn(cfg, s, Selected(item, ItemTask(item)), start), item, start)
  {
  }

  lemma NewIsPlanned(cfg: Config, s: Loop, item: ReadyItem, start: StartIn)
    requires IsOrdinary(cfg) && s.phase.Going? && IsNewTo(s, item) && s.store.retry == map[] && !start.SpawnFailed?
    ensures IsPlannedFor(s, PlanAndSpawn(cfg, s, PollFor(item, start).result.plan), item, start)
  {
    var plan, now := PollFor(item, start).result.plan, NowSecs(cfg, s.clock);
    var excluded, gated := Excluded(cfg, s, now), Gated(cfg, s, plan.snapshot);
    NewIsNotExcluded(cfg, s, item);
    NewProceeds(cfg, s, item);
    OneItemIsSelected(item, excluded);
    TasksOfOne(item);
    assert plan.snapshot.(ready := Retain(plan.snapshot.ready, excluded)) == BoardOf(item);
    var recorded := gated.(decisions := gated.decisions + [Selected(item, ItemTask(item))],
                           events := DrainEvents(Arrive(gated.events, 0), Peeked(cfg, s)));
    assert gated.gate.previousReady == {ItemTask(item)};
    assert PlanAndSpawn(cfg, s, plan) == Spawn(cfg, recorded, Selected(item, ItemTask(item)), start);
    SpawnPlans(cfg, recorded, item, start);
  }

  lemma OpenGuardsPass(cfg: Config, s: Loop, step: Iter)
    requires IsOpen(cfg, s) && cfg.maxCycles.None?
    ensures Guards(cfg, s, s.clock, step) == Pass(cfg, s, s.clock, step.pass)
  {
  }

  /** What one polling iteration of an open loop does before its wait. */
  lemma OpenLoopGuards(cfg: Config, s: Loop, item: ReadyItem, start: StartIn, wait: WaitIn)
    requires IsOrdinary(cfg) && IsOpen(cfg, s) && IsNewTo(s, item) && !start.SpawnFailed?
    ensures IsPlannedFor(BeginPass(cfg, s, s.clock), Guards(cfg, s, s.clock, PollingIter(item, start, wait)), item,
                         start)
  {
    var begun := BeginPass(cfg, s, s.clock);
    PollAnswers(cfg, s, item, start);
    PollReachesPlan(cfg, begun, item, start);
    NewIsPlanned(cfg, begun, item, start);
    OpenGuardsPass(cfg, s, PollingIter(item, start, wait));
  }

  // ------------------------------------------------------------------- the first iteration

  lemma StartIsOpen(cfg: Config, events: EventQueue, day: Option<nat>, item: ReadyItem)
    requires IsOrdinary(cfg)
    ensures var base := EmptyStart(events, day);
            IsStart(base) && IsOpen(cfg, base) && IsNewTo(base, item) && AllLive(cfg, base)
  {
  }

  /** One worker just started at instant 0, whatever the wait then did. */
  ghost predicate HasFirst(cfg: Config, s: Loop, first: ReadyItem)
  {
    && s.phase.Going? && |s.slots| == 1 && s.slots[0] == Slot(0, ItemTask(first), 0, 0, None, false)
    && |s.store.rows| == 1 && s.store.rows[0].task == ItemTask(first) && s.store.rows[0].spend == 0
    && s.store.retry == map[] && s.gate.nextPass == 0 && s.gate.nextPoll == 0
    && s.gate.previousReady == {ItemTask(first)}
    && s.clock == 0
  }

  lemma FirstIteration(cfg: Config, events: EventQueue, day: Option<nat>, first: ReadyItem, wait: WaitIn)
    returns (g: Loop)
    requires IsOrdinary(cfg)
    ensures HasFirst(cfg, g, first) && g.drain == DrainState(None, None, Unbounded)
    ensures g.signal == Channel(0, false, 0, 0, false, [])
    ensures Iterate(cfg, EmptyStart(events, day), PollingIter(first, Started, wait)) == Wait(cfg, g, wait)
  {
    var base := EmptyStart(events, day);
    StartIsOpen(cfg, events, day, first);
    QuietIterate(cfg, base, first, Started, wait);
    OpenLoopGuards(cfg, base, first, Started, wait);
    g := Guards(cfg, base, base.clock, PollingIter(first, Started, wait));
  }

  lemma RunOfTwo(cfg: Config, base: Loop, a: Iter, b: Iter)
    ensures Run(cfg, base, [a]) == Iterate(cfg, base, a)
    ensures Run(cfg, base, [a, b]) == Iterate(cfg, Iterate(cfg, base, a), b)
    ensures [a, b][..1] == [a]
  {
    assert [a][..0] == [] && [a, b][..1] == [a];
    assert Run(cfg, base, []) == base;
  }

  // ---------------------------------------------------------------- past the grace window

  /** A signal right after the first worker started, and a second one just after the window has closed. */
  function LateSignal(cfg: Config, first: ReadyItem): seq<Iter>
  {
    [PollingIter(first, Started, WaitIn(0, 1, false, true)),
     PollingIter(first, Started, WaitIn(cfg.shutdownBudget + 1, 1, false, true))]
  }

  lemma FirstSignal(cfg: Config, g: Loop, first: ReadyItem)
    requires IsOrdinary(cfg) && HasFirst(cfg, g, first) && g.drain == DrainState(None, None, Unbounded)
    requires g.signal == Channel(0, false, 0, 0, false, [])
    ensures var s := Wait(cfg, g, WaitIn(0, 1, false, true));
            && HasFirst(cfg, s, first) && s.drain == DrainState(Some(Shutdown), Some(Shutdown), At(cfg.shutdownBudget))
            && s.signal == Channel(1, false, 1, 0, false, [Applied(0, false)])
  {
  }

  lemma SecondSignal(cfg: Config, s: Loop, first: ReadyItem)
    requires IsOrdinary(cfg) && cfg.shutdownBudget > 0 && HasFirst(cfg, s, first)
    requires s.drain == DrainState(Some(Shutdown), Some(Shutdown), At(cfg.shutdownBudget))
    requires s.signal == Channel(1, false, 1, 0, false, [Applied(0, false)])
    ensures var late := cfg.shutdownBudget + 1;
            var t := Iterate(cfg, s, PollingIter(first, Started, WaitIn(late, 1, false, true)));
            t.drain.deadline == At(late) && t.signal.applied == [Applied(0, false), Applied(late, true)]
  {
    var wait := WaitIn(cfg.shutdownBudget + 1, 1, false, true);
    QuietIterate(cfg, s, first, Started, wait);
    assert DrainStep(cfg, s, NO_DRAIN) == Tick(s, 0) == s;
    assert Guards(cfg, s, s.clock, PollingIter(first, Started, wait)) == s;
  }

  /** The bound does fail, for every ordinary configuration: this run ends one unit past the window. */
  lemma GraceCanBeExceeded(cfg: Config, events: EventQueue, day: Option<nat>, first: ReadyItem)
    requires IsOrdinary(cfg) && cfg.shutdownBudget > 0
    ensures IsStart(EmptyStart(events, day))
    ensures var s, late := Run(cfg, EmptyStart(events, day), LateSignal(cfg, first)), cfg.shutdownBudget + 1;
            && s.signal.applied == [Applied(0, false), Applied(late, true)] && s.drain.deadline == At(late)
            && !GraceHolds(cfg, s)
  {
    var base, script := EmptyStart(events, day), LateSignal(cfg, first);
    var g := FirstIteration(cfg, events, day, first, WaitIn(0, 1, false, true));
    FirstSignal(cfg, g, first);
    SecondSignal(cfg, Wait(cfg, g, WaitIn(0, 1, false, true)), first);
    RunOfTwo(cfg, base, script[0], script[1]);
  }

  // ------------------------------------------------------------ a completed run that is swept

  const NO_SIGNAL: WaitIn := WaitIn(0, 0, false, false)

  /** The second item's starter fails for good while the first worker is in flight. */
  function FatalStart(first: ReadyItem, second: ReadyItem): seq<Iter>
  {
    [PollingIter(first, Started, NO_SIGNAL), PollingIter(second, StarterError, NO_SIGNAL)]
  }

  lemma TasksDiffer(first: ReadyItem, second: ReadyItem)
    requires first.number != second.number
    ensures ItemTask(first) != ItemTask(second)
  {
    if ItemTask(first) == ItemTask(second) {
      EqualIdsIdentifyWork(first.repo, first.number, second.repo, second.number);
    }
  }

  lemma OpenForSecond(cfg: Config, g: Loop, first: ReadyItem, second: ReadyItem)
    requires IsOrdinary(cfg) && HasFirst(cfg, g, first) && first.number != second.number
    requires g.drain == DrainState(None, None, Unbounded) && g.signal == Channel(0, false, 0, 0, false, [])
    ensures var s := Wait(cfg, g, NO_SIGNAL);
            HasFirst(cfg, s, first) && IsOpen(cfg, s) && IsNewTo(s, second) && AllLive(cfg, s) && InFlight(s, 0)
  {
    var s := Wait(cfg, g, NO_SIGNAL);
    TasksDiffer(first, second);
    TotalZero(SpendOn(DayStart(NowSecs(cfg, s.clock))), s.store.rows);
    assert s.slots[0].run in SlotRuns(s.slots);
  }

  lemma SecondStartIsFatal(cfg: Config, s: Loop, second: ReadyItem)
    requires IsOrdinary(cfg) && IsOpen(cfg, s) && IsNewTo(s, second) && AllLive(cfg, s) && InFlight(s, 0)
    ensures var t := Iterate(cfg, s, PollingIter(second, StarterError, NO_SIGNAL)); t.phase.Fatal? && InFlight(t, 0)
  {
    QuietIterate(cfg, s, second, StarterError, NO_SIGNAL);
    OpenLoopGuards(cfg, s, second, StarterError, NO_SIGNAL);
  }

  /** For every ordinary configuration: a run that ends fatally with its first worker in flight. */
  lemma FatalStartStrands(cfg: Config, events: EventQueue, day: Option<nat>, first: ReadyItem, second: ReadyItem)
    requires IsOrdinary(cfg) && first.number != second.number
    ensures var base, script := EmptyStart(events, day), FatalStart(first, second);
            && IsStart(base) && InFlight(Run(cfg, base, script[..1]), 0)
            && Run(cfg, base, script).phase.Fatal? && InFlight(Run(cfg, base, script), 0)
  {
    var base, script := EmptyStart(events, day), FatalStart(first, second);
    var g := FirstIteration(cfg, events, day, first, NO_SIGNAL);
    OpenForSecond(cfg, g, first, second);
    SecondStartIsFatal(cfg, Wait(cfg, g, NO_SIGNAL), second);
    RunOfTwo(cfg, base, script[0], script[1]);
  }

  /** In that run the sweep drops the first worker's result: it completed and is recorded as an abort. */
  lemma CompletedCanBeSwept(cfg: Config, events: EventQueue, day: Option<nat>, first: ReadyItem, second: ReadyItem,
                            spend: nat)
    requires IsOrdinary(cfg) && first.number != second.number
    ensures var s := Run(cfg, EmptyStart(events, day), FatalStart(first, second));
            var end := FatalSweep(cfg, s, [Finish(Ran(true, false, spend), 0)]);
            && s.phase.Fatal? && 0 < |end.store.rows|
            && IsSwept(end.store.rows[0]) && !end.store.rows[0].status.Completed?
  {
    FatalStartStrands(cfg, events, day, first, second);
    NaturalResultsWin(cfg, EmptyStart(events, day), FatalStart(first, second), 1, 0, Ran(true, false, spend),
                      [Finish(Ran(true, false, spend), 0)]);
  }
}

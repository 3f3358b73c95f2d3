/**
The foreground loop as a deterministic machine. Everything the environment
decides (how far the clock moves between two readings, which handles resolved
and how, which beats arrived, what the poll and the starter returned, which
shutdown signals were sent) is an input, so a run is a fold over a script.
Durations are whole nanoseconds and spend is a whole number of units.
 */
module LoopModel {
  import opened Wrappers
  import opened RunState
  import opened Selection
  import opened Kickoff

  const NANOS_PER_SEC: nat := 1_000_000_000

  // ------------------------------------------------------------- configuration

  datatype Config = Config(
    invocation: string, startSecs: nat,
    maxWorkers: nat, stallTimeout: nat, workerTimeout: nat, runBudget: nat,
    spendCap: nat, shutdownBudget: nat, maxCycles: Option<nat>, minPollInterval: Option<nat>,
    retryBase: nat, retryMax: nat, maxTaskAttempts: nat, taskRetryBackoff: nat,
    kickoff: KickoffSettings)

  /** Unix seconds at an elapsed time. */
  function NowSecs(cfg: Config, elapsed: nat): nat { cfg.startSecs + elapsed / NANOS_PER_SEC }

  /** The retry backoff in the whole seconds the store keeps. */
  function BackoffSecs(cfg: Config): nat { cfg.taskRetryBackoff / NANOS_PER_SEC }

  /** `base * 2^n`, capped. */
  function BackoffDelay(cfg: Config, index: nat): nat
  {
    Min(cfg.retryBase * Pow2(Min(index, 31)), cfg.retryMax)
  }

  // --------------------------------------------------------------------- state

  /** Why the supervisor killed a run; recorded before the abort. */
  datatype Intent = Stall | WorkerTimeout | Drain(reason: StopReason) | Drained

  datatype Slot = Slot(
    run: nat, task: string, lastBeat: nat, started: nat, intent: Option<Intent>, aborted: bool)

  datatype Counters = Counters(
    cycles: nat, spawns: nat, completed: nat, failed: nat, stalled: nat, timedOut: nat,
    abortedOnStop: nat, pollFailures: nat, stuck: nat, taskBudgetSkips: nat)

  /** `Unbounded` is the source's `Duration::MAX`. */
  datatype Deadline = Unbounded | At(time: nat)

  datatype DrainState = DrainState(stop: Option<StopReason>, reason: Option<StopReason>, deadline: Deadline)

  /** One applied shutdown signal: when, and whether it cut the grace window short. */
  datatype Applied = Applied(at: nat, shortCircuit: bool)

  /** The shutdown channel with its main receiver and the pass-time clone. */
  datatype Channel = Channel(
    sends: nat, closed: bool, mainSeen: nat, cloneSeen: nat, sourceGone: bool, applied: seq<Applied>)

  /** Pacing deadlines and the memory the kick-off gate compares against. */
  datatype Gate = Gate(
    backoffIndex: nat, nextPass: nat, nextPoll: nat, previousReady: set<string>,
    previousBlocked: set<string>, slotReleased: bool, lastPassDay: Option<nat>)

  /** External events by arrival number: pending ones, and what each pass drained. */
  datatype EventQueue = EventQueue(pending: set<nat>, arrived: nat, drained: seq<set<nat>>)

  datatype LoopError = StoreRejected | StarterFailed

  datatype Phase = Going | Exited | Fatal(error: LoopError)

  datatype Loop = Loop(
    store: Store, decisions: seq<Decision>, slots: seq<Slot>, counters: Counters,
    gate: Gate, events: EventQueue, drain: DrainState, signal: Channel, clock: nat, phase: Phase)

  const NO_COUNTS: Counters := Counters(0, 0, 0, 0, 0, 0, 0, 0, 0, 0)

  /** The state `run` starts from; `unseen` signals may already be waiting in the channel. */
  function InitialLoop(store: Store, decisions: seq<Decision>, events: EventQueue,
                       previousDay: Option<nat>, unseen: nat): Loop
  {
    Loop(store, decisions, [], NO_COUNTS,
         Gate(0, 0, 0, {}, {}, false, previousDay), events,
         DrainState(None, None, Unbounded),
         Channel(unseen, false, 0, 0, false, []), 0, Going)
  }

  // ------------------------------------------------------------------- reaping

  /** What a resolved handle returned. */
  datatype WorkerOutcome =
    | Ran(completed: bool, noProgress: bool, spend: nat) | Unusable | Cancelled | Panicked

  /** A handle found finished, and the clock movement before its terminal stamp. */
  datatype Finish = Finish(outcome: WorkerOutcome, dt: nat)

  /** A natural result wins over any intent; a cancellation resolves to the intent. */
  function Arbitrate(outcome: WorkerOutcome, intent: Option<Intent>): (RunStatus, Detail)
  {
    match outcome
    case Ran(completed, _, _) => if completed then (Completed, NaturalCompletion) else (Failed, TypedFailure)
    case Unusable => (Failed, LoopUnusable)
    case Panicked => (Failed, WorkerPanicked)
    case Cancelled =>
      match intent
      case Some(Stall) => (Stalled, StallTimeout)
      case Some(WorkerTimeout) => (TimedOut, WorkerTimeoutKill)
      case Some(Drain(reason)) => (AbortedShutdown, DrainAbort(reason))
      case Some(Drained) => (AbortedShutdown, UnattributedDrainAbort)
      case None => (Failed, AbortedWithoutIntent)
  }

  function SpendOf(outcome: WorkerOutcome): nat { if outcome.Ran? then outcome.spend else 0 }

  predicate NoProgress(outcome: WorkerOutcome) { outcome.Ran? && !outcome.completed && outcome.noProgress }

  function BackoffUntil(cfg: Config, now: nat): Option<nat>
  {
    if cfg.taskRetryBackoff == 0 then None else Some(now + BackoffSecs(cfg))
  }

  /** Retry bookkeeping before the row is finished. */
  function RecordOutcome(cfg: Config, store: Store, task: string, status: RunStatus, noProgress: bool, now: nat): Store
  {
    match status
    case Completed => store.RecordSuccess(task)
    case Failed => store.RecordFailure(task, noProgress, BackoffUntil(cfg, now))
    case Stalled => store.RecordFailure(task, noProgress, BackoffUntil(cfg, now))
    case TimedOut => store.RecordFailure(task, noProgress, BackoffUntil(cfg, now))
    case _ => store
  }

  /** A counted failure that reaches the budget is recorded `Stuck` instead. */
  function FinalStatus(cfg: Config, recorded: Store, task: string, status: RunStatus): RunStatus
  {
    if && (status.Failed? || status.Stalled? || status.TimedOut?)
       && cfg.maxTaskAttempts > 0 && recorded.Attempts(task) >= cfg.maxTaskAttempts
    then Stuck else status
  }

  function Note(c: Counters, status: RunStatus): Counters
  {
    match status
    case Completed => c.(completed := c.completed + 1)
    case Failed => c.(failed := c.failed + 1)
    case Stalled => c.(stalled := c.stalled + 1)
    case TimedOut => c.(timedOut := c.timedOut + 1)
    case AbortedShutdown => c.(abortedOnStop := c.abortedOnStop + 1)
    case Stuck => c.(stuck := c.stuck + 1)
    case _ => c
  }

  /** Records an outcome and finishes the row; the counters follow the written status. */
  function Settle(cfg: Config, s: Loop, run: nat, task: string, status: RunStatus, detail: Detail,
                  noProgress: bool, spend: nat, now: nat): Loop
  {
    var recorded := RecordOutcome(cfg, s.store, task, status, noProgress, now);
    if !recorded.IsRunning(run) then s.(store := recorded, phase := Fatal(StoreRejected))
    else
      var written := FinalStatus(cfg, recorded, task, status);
      s.(store := recorded.Finish(run, written, now, spend, detail), counters := Note(s.counters, written))
  }

  function WithoutSlot(slots: seq<Slot>, i: nat): seq<Slot>
    requires i < |slots|
  {
    slots[..i] + slots[i + 1..]
  }

  function ReapAt(cfg: Config, s: Loop, i: nat, finish: Finish): Loop
    requires i < |s.slots|
  {
    var slot := s.slots[i];
    var clock := s.clock + finish.dt;
    var (status, detail) := Arbitrate(finish.outcome, slot.intent);
    var settled := Settle(cfg, s.(slots := WithoutSlot(s.slots, i), clock := clock), slot.run, slot.task, status,
                          detail, NoProgress(finish.outcome), SpendOf(finish.outcome), NowSecs(cfg, clock));
    if settled.phase.Going? then settled.(gate := settled.gate.(slotReleased := true)) else settled
  }

  /** A join handle reports a cancellation only after it was aborted. */
  predicate CanReturn(slot: Slot, finish: Finish) { finish.outcome.Cancelled? ==> slot.aborted }

  predicate IsFinished(slot: Slot, finished: map<nat, Finish>)
  {
    slot.run in finished && CanReturn(slot, finished[slot.run])
  }

  /** Reaps every finished handle from position `i` on, in slot order. */
  function ReapFrom(cfg: Config, s: Loop, i: nat, finished: map<nat, Finish>): Loop
    decreases |s.slots| - i
  {
    if !s.phase.Going? || i >= |s.slots| then s
    else if IsFinished(s.slots[i], finished)
    then ReapFrom(cfg, ReapAt(cfg, s, i, finished[s.slots[i].run]), i, finished)
    else ReapFrom(cfg, s, i + 1, finished)
  }

  function Reap(cfg: Config, s: Loop, finished: map<nat, Finish>): Loop { ReapFrom(cfg, s, 0, finished) }

  // --------------------------------------------------------------- supervision

  function BeatAt(cfg: Config, s: Loop, i: nat, beat: nat): Loop
    requires i < |s.slots|
  {
    var slot := s.slots[i];
    var beaten := s.(slots := s.slots[i := slot.(lastBeat := s.clock)]);
    if !s.store.IsRunning(slot.run) then beaten.(phase := Fatal(StoreRejected))
    else beaten.(store := s.store.Heartbeat(slot.run, beat, NowSecs(cfg, s.clock)))
  }

  /** Takes every fresh beat at the current clock and persists it. */
  function BeatFrom(cfg: Config, s: Loop, i: nat, beats: map<nat, nat>): Loop
    decreases |s.slots| - i
  {
    if !s.phase.Going? || i >= |s.slots| then s
    else if s.slots[i].run in beats then BeatFrom(cfg, BeatAt(cfg, s, i, beats[s.slots[i].run]), i + 1, beats)
    else BeatFrom(cfg, s, i + 1, beats)
  }

  /** Which slots a kill sweep hits; a slot that already has an intent never. */
  datatype KillRule = Stale | Overdue | Everything

  predicate Hits(cfg: Config, rule: KillRule, slot: Slot, clock: nat)
  {
    && slot.intent.None?
    && match rule
       case Stale => SaturatingSub(clock, slot.lastBeat) >= cfg.stallTimeout
       case Overdue => SaturatingSub(clock, slot.started) >= cfg.workerTimeout
       case Everything => true
  }

  function Killed(cfg: Config, rule: KillRule, intent: Intent, slot: Slot, clock: nat): Slot
  {
    if Hits(cfg, rule, slot, clock) then slot.(intent := Some(intent), aborted := true) else slot
  }

  function KillWhere(cfg: Config, s: Loop, rule: KillRule, intent: Intent): Loop
  {
    s.(slots := seq(|s.slots|, i requires 0 <= i < |s.slots| => Killed(cfg, rule, intent, s.slots[i], s.clock)))
  }

  function Tick(s: Loop, dt: nat): Loop { s.(clock := s.clock + dt) }

  datatype SuperviseIn = SuperviseIn(
    before: map<nat, Finish>, dtBeats: nat, beats: map<nat, nat>,
    dtStall: nat, dtTimeout: nat, after: map<nat, Finish>)

  /** The two kill sweeps of one supervision step, each at its own clock reading. */
  function KillSweeps(cfg: Config, s: Loop, step: SuperviseIn): Loop
  {
    KillWhere(cfg, Tick(KillWhere(cfg, Tick(s, step.dtStall), Stale, Stall), step.dtTimeout), Overdue, WorkerTimeout)
  }

  /** Natural completions first, then beats, then the two kill sweeps, then the kills. */
  function Supervise(cfg: Config, s: Loop, step: SuperviseIn): Loop
  {
    var reaped := Reap(cfg, s, step.before);
    if !reaped.phase.Going? then reaped
    else
      var beaten := BeatFrom(cfg, Tick(reaped, step.dtBeats), 0, step.beats);
      if !beaten.phase.Going? then beaten
      else Reap(cfg, KillSweeps(cfg, beaten, step), step.after)
  }

  // -------------------------------------------------------------------- drains

  function Declare(s: Loop, reason: StopReason, deadline: Deadline): Loop
  {
    s.(drain := DrainState(Some(reason), Some(reason), deadline))
  }

  datatype DrainIn = DrainIn(dt: nat, reaped: map<nat, Finish>)

  predicate Reached(deadline: Deadline, clock: nat) { deadline.At? && clock >= deadline.time }

  function DrainIntent(s: Loop): Intent
  {
    if s.drain.reason.Some? then Drain(s.drain.reason.value) else Drained
  }

  /** At the deadline every slot without an intent gets one, and the rest of the grace restarts. */
  function DrainStep(cfg: Config, s: Loop, step: DrainIn): Loop
  {
    var now := Tick(s, step.dt);
    if now.slots == [] || Reached(now.drain.deadline, now.clock) then
      var reaped := Reap(cfg, KillWhere(cfg, now, Everything, DrainIntent(now)), step.reaped);
      if reaped.phase.Going? && reaped.slots != []
      then reaped.(drain := reaped.drain.(deadline := At(now.clock + cfg.shutdownBudget))) else reaped
    else now
  }

  // ------------------------------------------------------------------- signals

  /** Sends reach the channel until the sender is dropped. */
  function Deliver(c: Channel, sends: nat, closes: bool): Channel
  {
    if c.closed then c else c.(sends := c.sends + sends, closed := closes)
  }

  function Earlier(deadline: Deadline, time: nat): Deadline
  {
    if deadline.At? && deadline.time <= time then deadline else At(time)
  }

  /** The main receiver observed a change at the current clock. */
  function ApplySignal(cfg: Config, s: Loop): Loop
  {
    var grace := s.clock + cfg.shutdownBudget;
    var second := s.drain.stop == Some(Shutdown);
    var drain :=
      match s.drain.stop
      case None => DrainState(Some(Shutdown), Some(Shutdown), At(grace))
      case Some(Shutdown) => s.drain.(deadline := At(s.clock))
      case Some(_) => s.drain.(reason := if s.drain.reason.Some? then Some(Shutdown) else None,
                               deadline := Earlier(s.drain.deadline, grace));
    s.(drain := drain,
       signal := s.signal.(mainSeen := s.signal.sends, applied := s.signal.applied + [Applied(s.clock, second)]))
  }

  datatype WaitIn = WaitIn(dt: nat, sends: nat, closes: bool, channelFirst: bool)

  /** One tick: the channel and the sleep race; a dropped sender is noticed once. */
  function Wait(cfg: Config, s: Loop, step: WaitIn): Loop
  {
    var now := Tick(s, step.dt).(signal := Deliver(s.signal, step.sends, step.closes));
    if now.signal.sourceGone || !step.channelFirst then now
    else if now.signal.sends > now.signal.mainSeen then ApplySignal(cfg, now)
    else if now.signal.closed then now.(signal := now.signal.(sourceGone := true))
    else now
  }

  // ------------------------------------------------------------------ planning

  function Pace(cfg: Config, s: Loop): Loop
  {
    s.(gate := s.gate.(nextPass := s.clock + BackoffDelay(cfg, s.gate.backoffIndex),
                       backoffIndex := s.gate.backoffIndex + 1))
  }

  /** Tasks that are in flight or already have a row of this invocation. */
  function BusyTasks(cfg: Config, s: Loop): set<string>
  {
    (set i | 0 <= i < |s.slots| :: s.slots[i].task)
    + (set i | 0 <= i < |s.store.rows| && s.store.rows[i].invocation == cfg.invocation :: s.store.rows[i].task)
  }

  predicate OverBudget(cfg: Config, retry: Retry)
  {
    cfg.maxTaskAttempts > 0 && retry.attempts >= cfg.maxTaskAttempts
  }

  predicate InBackoff(cfg: Config, retry: Retry, now: nat)
  {
    cfg.taskRetryBackoff != 0 && retry.backoffUntil.Some? && now < retry.backoffUntil.value
  }

  /** Tasks the cross-invocation budget or backoff keeps out of this pass. */
  function GuardSkips(cfg: Config, s: Loop, now: nat): set<string>
  {
    set task | task in s.store.retry && task !in BusyTasks(cfg, s)
               && (OverBudget(cfg, s.store.retry[task]) || InBackoff(cfg, s.store.retry[task], now))
  }

  function Excluded(cfg: Config, s: Loop, now: nat): set<string> { BusyTasks(cfg, s) + GuardSkips(cfg, s, now) }

  function TasksOf(items: seq<ReadyItem>): set<string> { set i | 0 <= i < |items| :: ItemTask(items[i]) }

  function Retain(items: seq<ReadyItem>, excluded: set<string>): seq<ReadyItem>
  {
    if items == [] then []
    else
      var last := |items| - 1;
      Retain(items[..last], excluded) + if ItemTask(items[last]) in excluded then [] else [items[last]]
  }

  function Observe(cfg: Config, s: Loop, now: nat, snapshot: BoardSnapshot): KickoffObservation
  {
    KickoffObservation(
      TasksOf(snapshot.ready) - Excluded(cfg, s, now), s.gate.previousReady, s.gate.previousBlocked,
      s.gate.slotReleased, s.gate.lastPassDay.Some? && s.gate.lastPassDay.value != DayStart(now),
      Peeked(cfg, s))
  }

  /** The source is consulted only when its condition is armed and nothing is in flight. */
  function Peeked(cfg: Config, s: Loop): set<nat>
  {
    if cfg.kickoff.externalEvent && s.slots == [] then s.events.pending else {}
  }

  predicate Proceeds(cfg: Config, s: Loop, now: nat, snapshot: BoardSnapshot)
  {
    s.slots != [] || KicksOff(cfg.kickoff, Observe(cfg, s, now, snapshot))
  }

  /** What the gate remembers for the next pass, whether or not this one proceeds. */
  function Remember(cfg: Config, s: Loop, now: nat, snapshot: BoardSnapshot): Gate
  {
    s.gate.(previousReady := TasksOf(snapshot.ready) - Excluded(cfg, s, now),
            previousBlocked := TasksOf(snapshot.blocked), slotReleased := false, lastPassDay := Some(DayStart(now)))
  }

  datatype StartIn = Started | SpawnFailed(dt: nat) | StarterError

  /** `arrivals` are the external events that arrive while the pass is planning. */
  datatype PlanIn = PlanIn(snapshot: BoardSnapshot, consulted: Consultation, arrivals: nat, start: StartIn)

  /** The numbers `from`, ..., `from + n - 1`. */
  function Numbers(from: nat, n: nat): (r: set<nat>)
    ensures forall e :: e in r <==> from <= e < from + n
  {
    if n == 0 then {} else Numbers(from, n - 1) + {from + n - 1}
  }

  function Arrive(events: EventQueue, n: nat): EventQueue
  {
    events.(pending := events.pending + Numbers(events.arrived, n), arrived := events.arrived + n)
  }

  function DrainEvents(events: EventQueue, ids: set<nat>): EventQueue
  {
    if ids == {} then events else events.(pending := events.pending - ids, drained := events.drained + [ids])
  }

  function Request(cfg: Config, s: Loop, decision: Decision): StartRun
    requires decision.Selected? && s.decisions != []
  {
    StartRun(cfg.invocation, |s.decisions| - 1, decision.task, decision.item.repo, decision.item.number,
             NowSecs(cfg, s.clock))
  }

  /** Row first, then spawn: a live worker always has a row. The decision is the last record. */
  function Spawn(cfg: Config, s: Loop, decision: Decision, start: StartIn): Loop
    requires decision.Selected? && s.decisions != []
  {
    var run := |s.store.rows|;
    var started := s.(store := s.store.Start(Request(cfg, s, decision)));
    match start
    case Started =>
      started.(slots := s.slots + [Slot(run, decision.task, s.clock, s.clock, None, false)],
               counters := s.counters.(spawns := s.counters.spawns + 1),
               gate := s.gate.(backoffIndex := 0, nextPass := s.clock))
    case SpawnFailed(dt) =>
      var settled := Settle(cfg, started, run, decision.task, Failed, SpawnMessage, false, 0, NowSecs(cfg, s.clock));
      if !settled.phase.Going? then settled
      else Pace(cfg, Tick(settled.(gate := settled.gate.(previousReady := {decision.task})), dt))
    case StarterError => started.(phase := Fatal(StarterFailed))
  }

  /** The pass may plan: exactly one decision record, then the spawn it asks for. */
  function Plan(cfg: Config, s: Loop, excluded: set<string>, peeked: set<nat>, plan: PlanIn): Loop
  {
    var snapshot := plan.snapshot.(ready := Retain(plan.snapshot.ready, excluded));
    var decision := CampaignDecision(snapshot, plan.consulted);
    var recorded := s.(decisions := s.decisions + [decision],
                       events := DrainEvents(Arrive(s.events, plan.arrivals), peeked));
    if decision.Selected? then Spawn(cfg, recorded, decision, plan.start) else Pace(cfg, recorded)
  }

  /** The gate's side effects: guard skips are counted and the board is remembered. */
  function Gated(cfg: Config, s: Loop, snapshot: BoardSnapshot): Loop
  {
    var now := NowSecs(cfg, s.clock);
    s.(counters := s.counters.(taskBudgetSkips := s.counters.taskBudgetSkips + |GuardSkips(cfg, s, now)|),
       gate := Remember(cfg, s, now, snapshot))
  }

  /** A skipped pass still leaves its one decision record. */
  function RecordKickoffSkip(cfg: Config, s: Loop): Loop
  {
    Pace(cfg, s.(decisions := s.decisions + [NoOp(KickoffGate)]))
  }

  function PlanAndSpawn(cfg: Config, s: Loop, plan: PlanIn): Loop
  {
    var now := NowSecs(cfg, s.clock);
    if Proceeds(cfg, s, now, plan.snapshot)
    then Plan(cfg, Gated(cfg, s, plan.snapshot), Excluded(cfg, s, now), Peeked(cfg, s), plan)
    else RecordKickoffSkip(cfg, Gated(cfg, s, plan.snapshot))
  }

  // -------------------------------------------------------------------- passes

  datatype PollResult = PollOk(plan: PlanIn) | PollError

  /** The poll race: how long it took, what arrived meanwhile, and which ready arm was taken. */
  datatype PassIn = PassIn(
    dtBudget: nat, dt: nat, sends: nat, closes: bool, arrivals: nat,
    signalFirst: bool, budgetFirst: bool, result: PollResult, dtAfter: nat)

  /** The pass saw a send through the clone; the main receiver is advanced with it. */
  function ShutdownFromPass(cfg: Config, s: Loop, marksClone: bool): Loop
  {
    Declare(s, Shutdown, At(s.clock + cfg.shutdownBudget))
    .(signal := s.signal.(mainSeen := s.signal.sends,
                          cloneSeen := if marksClone then s.signal.sends else s.signal.cloneSeen,
                          applied := s.signal.applied + [Applied(s.clock, false)]))
  }

  predicate PassGated(cfg: Config, s: Loop, top: nat)
  {
    |s.slots| >= cfg.maxWorkers || top < s.gate.nextPass || top < s.gate.nextPoll
  }

  /** Counts the poll and arms the cadence. */
  function BeginPass(cfg: Config, s: Loop, top: nat): Loop
  {
    var interval := if cfg.minPollInterval.Some? then cfg.minPollInterval.value else 0;
    s.(counters := s.counters.(cycles := s.counters.cycles + 1),
       gate := s.gate.(nextPoll := Max(s.gate.nextPoll, top) + interval))
  }

  function AfterPoll(cfg: Config, s: Loop, pass: PassIn): Loop
  {
    var later := Tick(s, pass.dtAfter);
    match pass.result
    case PollError =>
      Pace(cfg, later.(counters := s.counters.(pollFailures := s.counters.pollFailures + 1)))
    case PollOk(plan) =>
      if s.clock >= cfg.runBudget then Declare(later, RunBudgetExhausted, At(later.clock + cfg.shutdownBudget))
      else if !s.signal.closed && s.signal.sends > s.signal.cloneSeen then ShutdownFromPass(cfg, later, false)
      else PlanAndSpawn(cfg, later, plan)
  }

  function Pass(cfg: Config, s: Loop, top: nat, pass: PassIn): Loop
  {
    if PassGated(cfg, s, top) then s
    else
      var begun := Tick(BeginPass(cfg, s, top), pass.dtBudget);
      var polled := Tick(begun, pass.dt)
                    .(signal := Deliver(s.signal, pass.sends, pass.closes), events := Arrive(s.events, pass.arrivals));
      if pass.signalFirst && polled.signal.sends > polled.signal.cloneSeen then
        ShutdownFromPass(cfg, Tick(polled, pass.dtAfter), true)
      else if pass.budgetFirst && begun.clock <= cfg.runBudget <= polled.clock then
        var later := Tick(polled, pass.dtAfter);
        Declare(later, RunBudgetExhausted, At(later.clock + cfg.shutdownBudget))
      else AfterPoll(cfg, polled, pass)
  }

  // ------------------------------------------------------------------ the loop

  datatype Iter = Iter(dtTop: nat, supervise: SuperviseIn, drain: DrainIn, pass: PassIn, wait: WaitIn)

  /** The guard table, read top to bottom in arbitration order. */
  function Guards(cfg: Config, s: Loop, top: nat, step: Iter): Loop
  {
    if s.drain.stop.Some? then
      var drained := DrainStep(cfg, s, step.drain);
      if drained.phase.Going? && drained.slots == [] then drained.(phase := Exited) else drained
    else if top >= cfg.runBudget then Declare(s, RunBudgetExhausted, At(top + cfg.shutdownBudget))
    else if s.store.DailySpend(NowSecs(cfg, top)) >= cfg.spendCap then Declare(s, SpendSoftCap, Unbounded)
    else if cfg.maxCycles.Some? && s.counters.cycles >= cfg.maxCycles.value
    then Declare(s, CycleBudget, At(top + cfg.shutdownBudget))
    else Pass(cfg, s, top, step.pass)
  }

  function Iterate(cfg: Config, s: Loop, step: Iter): Loop
  {
    if !s.phase.Going? then s
    else
      var top := Tick(s, step.dtTop);
      var supervised := Supervise(cfg, top, step.supervise);
      if !supervised.phase.Going? then supervised
      else
        var guarded := Guards(cfg, supervised, top.clock, step);
        if !guarded.phase.Going? then guarded else Wait(cfg, guarded, step.wait)
  }

  function Run(cfg: Config, s: Loop, script: seq<Iter>): Loop
  {
    if script == [] then s else Iterate(cfg, Run(cfg, s, script[..|script| - 1]), script[|script| - 1])
  }

  // ------------------------------------------------------------ the fatal sweep

  /** The oldest stranded slot's handle is awaited, its result dropped, and the row finished as an abort. */
  function SweepOne(cfg: Config, s: Loop, dropped: Finish): Loop
    requires s.slots != []
  {
    var clock := s.clock + dropped.dt;
    s.(store := s.store.Finish(s.slots[0].run, AbortedShutdown, NowSecs(cfg, clock), 0, UnattributedDrainAbort),
       counters := s.counters.(abortedOnStop := s.counters.abortedOnStop + 1), slots := s.slots[1..], clock := clock)
  }

  /** Handles beyond the given results resolve at once, as cancellations. */
  function SweepAll(cfg: Config, s: Loop, results: seq<Finish>): Loop
    decreases |s.slots|
  {
    if s.slots == [] then s
    else if results == [] then SweepAll(cfg, SweepOne(cfg, s, Finish(Cancelled, 0)), [])
    else SweepAll(cfg, SweepOne(cfg, s, results[0]), results[1..])
  }

  /** A fatal exit aborts every in-flight slot before the error is returned. */
  function FatalSweep(cfg: Config, s: Loop, results: seq<Finish>): Loop
  {
    if s.phase.Fatal? then SweepAll(cfg, KillWhere(cfg, s, Everything, Drained), results) else s
  }
}

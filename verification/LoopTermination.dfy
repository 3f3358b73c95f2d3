/**
Every run ends: with a clock that moves, handles that resolve once aborted and
finitely many signals, the number of iterations is bounded.
 */
module LoopTermination {
  import opened Wrappers
  import opened LoopModel
  import opened LoopTrace
  import opened LoopBookkeeping
  import opened LoopSignals
  import opened LoopArbitration
  import opened LoopReaping

  // ----------------------------------------------------- what is asked of a run

  /** Every state of a run, from its start to its current end. */
  function States(cfg: Config, base: Loop, script: seq<Iter>): (states: seq<Loop>)
    ensures |states| == |script| + 1 && states[0] == base
  {
    if script == [] then [base]
    else
      var earlier := States(cfg, base, script[..|script| - 1]);
      earlier + [Iterate(cfg, earlier[|script| - 1], script[|script| - 1])]
  }

  /** The channel arm of a wait can be taken: a signal is unseen, or the sender has just gone. */
  predicate HearsChannel(c: Channel, wait: WaitIn)
  {
    && wait.channelFirst && !c.sourceGone
    && (Deliver(c, wait.sends, wait.closes).sends > c.mainSeen || Deliver(c, wait.sends, wait.closes).closed)
  }

  /** An iteration that reaches its wait hears the channel there or sleeps for a whole tick. */
  ghost predicate WaitIsPaid(cfg: Config, s: Loop, step: Iter, tick: nat)
  {
    var top := Tick(s, step.dtTop);
    var supervised := Supervise(cfg, top, step.supervise);
    var guarded := Guards(cfg, supervised, top.clock, step);
    s.phase.Going? && supervised.phase.Going? && guarded.phase.Going? ==>
      step.wait.dt >= tick || HearsChannel(guarded.signal, step.wait)
  }

  ghost predicate WaitsArePaid(cfg: Config, states: seq<Loop>, script: seq<Iter>, tick: nat)
    requires |states| == |script| + 1
  {
    forall k {:trigger WaitIsPaid(cfg, states[k], script[k], tick)} ::
      0 <= k < |script| ==> WaitIsPaid(cfg, states[k], script[k], tick)
  }

  /** Some reap of the iterations `k`, ..., `k + lag - 1` finds the run's handle finished. */
  ghost predicate ResolvesWithin(cfg: Config, states: seq<Loop>, script: seq<Iter>, k: nat, lag: nat, run: nat)
    requires |states| == |script| + 1 && k + lag <= |script|
  {
    exists m: nat :: k <= m < k + lag && FindsFinished(cfg, states[m], script[m], run)
  }

  /**
  The handle of a slot aborted in a state resolves within the next `lag`
  iterations, if the run goes on that long.
   */
  ghost predicate AbortsResolve(cfg: Config, states: seq<Loop>, script: seq<Iter>, lag: nat)
    requires |states| == |script| + 1
  {
    forall k: nat, i: nat {:trigger ResolvesWithin(cfg, states, script, k, lag, states[k].slots[i].run)} ::
      k + lag <= |script| && states[k + lag].phase.Going? && i < |states[k].slots| && states[k].slots[i].aborted
      ==> ResolvesWithin(cfg, states, script, k, lag, states[k].slots[i].run)
  }

  function TotalSends(script: seq<Iter>): nat
  {
    if script == [] then 0
    else TotalSends(script[..|script| - 1]) + script[|script| - 1].pass.sends + script[|script| - 1].wait.sends
  }

  /** Signals that were waiting in the channel when the run began. */
  function Unseen(base: Loop): nat { SaturatingSub(base.signal.sends, base.signal.mainSeen) }

  /** Channel events handled so far: applied signals and the dropped sender. */
  function ChannelWork(s: Loop): nat { |s.signal.applied| + if s.signal.sourceGone then 1 else 0 }

  /** Whole ticks in a span. */
  function Ticks(span: nat, tick: nat): nat
    requires tick > 0
  {
    if span < tick then 0 else 1 + Ticks(span - tick, tick)
  }

  /** Iterations that suffice: channel events twice over, both time bounds, and the lag. */
  function IterationBound(cfg: Config, tick: nat, lag: nat, sends: nat): nat
    requires tick > 0
  {
    2 * (sends + 1) + Ticks(cfg.runBudget, tick) + Ticks(cfg.workerTimeout, tick) + lag + 6
  }

  // -------------------------------------------------- an abstract stopping argument

  /** An iteration moves the clock by a tick unless it handled the channel or ended the loop. */
  predicate Progresses(tick: nat, s: Loop, t: Loop)
  {
    t.clock >= s.clock + tick || ChannelWork(t) > ChannelWork(s) || !t.phase.Going?
  }

  ghost predicate ClockMoves(states: seq<Loop>, tick: nat)
  {
    forall k :: 0 <= k < |states| - 1 ==> Progresses(tick, states[k], states[k + 1])
  }

  /** No aborted slot of the first state is still there in the second. */
  ghost predicate Released(slots: seq<Slot>, later: seq<Slot>)
  {
    forall i, j :: 0 <= i < |slots| && 0 <= j < |later| && slots[i].aborted ==> slots[i].run != later[j].run
  }

  ghost predicate AbortsAreReleased(states: seq<Loop>, lag: nat)
  {
    forall k, n :: 0 <= k && n == k + lag && n < |states| && states[n].phase.Going? ==>
      Released(states[k].slots, states[n].slots)
  }

  /** The facts about one iteration that termination rests on. */
  ghost predicate Linked(cfg: Config, s: Loop, t: Loop)
  {
    && s.clock <= t.clock && ChannelWork(s) <= ChannelWork(t)
    && (t.phase.Going? ==> s.phase.Going?)
    && (t.phase.Going? && s.clock >= cfg.runBudget ==> t.drain.stop.Some?)
    && (s.drain.stop.Some? ==> t.drain.stop.Some? && Survive(s.slots, t.slots))
    && (s.drain.stop.Some? && s.slots == [] ==> !t.phase.Going?)
    && (s.drain.stop.Some? ==> forall time: nat :: StartedBy(s.slots, time) ==> StartedBy(t.slots, time))
    && (s.drain.stop.Some? && t.phase.Going? ==>
          forall time: nat :: StartedBy(s.slots, time) && s.clock >= time + cfg.workerTimeout ==> AllIntended(t.slots))
  }

  /** What every single state satisfies. */
  ghost predicate Sane(s: Loop, work: nat)
  {
    StartedBy(s.slots, s.clock) && IntentsMatchAborts(s.slots) && ChannelWork(s) <= work
  }

  ghost predicate Chain(cfg: Config, states: seq<Loop>, work: nat)
  {
    && (forall k :: 0 <= k < |states| ==> Sane(states[k], work))
    && (forall k :: 0 <= k < |states| - 1 ==> Linked(cfg, states[k], states[k + 1]))
  }

  lemma {:induction false} TimesCovers(tick: nat, span: nat, n: nat)
    requires tick > 0 && n > Ticks(span, tick)
    ensures Times(tick, n) >= span
    decreases n
  {
    if span >= tick { TimesCovers(tick, span - tick, n - 1); }
  }

  lemma {:induction false} LiveBefore(cfg: Config, states: seq<Loop>, work: nat, i: nat, j: nat)
    requires Chain(cfg, states, work) && i <= j < |states| && states[j].phase.Going?
    ensures states[i].phase.Going?
    decreases j - i
  {
    if i < j {
      assert Linked(cfg, states[j - 1], states[j]);
      LiveBefore(cfg, states, work, i, j - 1);
    }
  }

  /** Between two live states, iterations are paid for by ticks or by channel work. */
  lemma {:induction false} IterationsArePaid(cfg: Config, states: seq<Loop>, work: nat, tick: nat, i: nat, j: nat)
    returns (ticks: nat)
    requires Chain(cfg, states, work) && ClockMoves(states, tick) && i <= j < |states| && states[j].phase.Going?
    ensures states[j].clock >= states[i].clock + Times(tick, ticks)
    ensures ticks + ChannelWork(states[j]) - ChannelWork(states[i]) >= j - i
    decreases j - i
  {
    ticks := 0;
    if i < j {
      assert Linked(cfg, states[j - 1], states[j]);
      ticks := IterationsArePaid(cfg, states, work, tick, i, j - 1);
      assert Progresses(tick, states[j - 1], states[j]);
      if states[j].clock >= states[j - 1].clock + tick { ticks := ticks + 1; }
    }
  }

  /** After enough live iterations the clock has moved by any given span. */
  lemma ClockReaches(cfg: Config, states: seq<Loop>, work: nat, tick: nat, i: nat, j: nat, span: nat)
    requires tick > 0 && Chain(cfg, states, work) && ClockMoves(states, tick)
    requires i <= j < |states| && states[j].phase.Going? && j - i >= work + Ticks(span, tick) + 1
    ensures states[j].clock >= states[i].clock + span
  {
    var ticks := IterationsArePaid(cfg, states, work, tick, i, j);
    assert Sane(states[j], work);
    TimesCovers(tick, span, ticks);
  }

  /** From a stopped state on: the stop stands, no slot is younger, no slot is new. */
  lemma {:induction false} StoppedOnward(cfg: Config, states: seq<Loop>, work: nat, i: nat, j: nat)
    requires Chain(cfg, states, work) && i <= j < |states| && states[i].drain.stop.Some?
    ensures states[j].drain.stop.Some? && StartedBy(states[j].slots, states[i].clock)
            && Survive(states[i].slots, states[j].slots)
    decreases j - i
  {
    assert Sane(states[i], work);
    if i == j {
      SurviveSelf(states[i].slots);
    } else {
      StoppedOnward(cfg, states, work, i, j - 1);
      assert Linked(cfg, states[j - 1], states[j]);
      SurviveTrans(states[i].slots, states[j - 1].slots, states[j].slots);
    }
  }

  lemma SurviveSelf(slots: seq<Slot>)
    ensures Survive(slots, slots)
  {
    assert forall k :: 0 <= k < |slots| ==> slots[k].run in SlotRuns(slots);
  }

  lemma SurviveTrans(a: seq<Slot>, b: seq<Slot>, c: seq<Slot>)
    requires Survive(a, b) && Survive(b, c)
    ensures Survive(a, c)
  {
    forall j | 0 <= j < |c| ensures c[j].run in SlotRuns(a) {
      assert c[j].run in SlotRuns(b);
      var k :| 0 <= k < |b| && b[k].run == c[j].run;
    }
  }

  /** Intended slots resolve, and then the empty drain exits. */
  lemma ExitsInTime(cfg: Config, states: seq<Loop>, work: nat, lag: nat, k: nat)
    requires Chain(cfg, states, work) && AbortsAreReleased(states, lag) && k + lag + 1 < |states|
    requires states[k].drain.stop.Some? && AllIntended(states[k].slots)
    ensures !states[k + lag + 1].phase.Going?
  {
    var s, t := states[k], states[k + lag];
    StoppedOnward(cfg, states, work, k, k + lag);
    assert Sane(s, work) && Linked(cfg, t, states[k + lag + 1]);
    if t.phase.Going? { NobodySurvives(s.slots, t.slots); }
  }

  lemma SlotRunsNonempty(slots: seq<Slot>)
    ensures slots == [] <==> SlotRuns(slots) == {}
  {
    if slots != [] { assert slots[0].run in SlotRuns(slots); }
  }

  lemma NobodySurvives(slots: seq<Slot>, later: seq<Slot>)
    requires AllIntended(slots) && IntentsMatchAborts(slots) && Survive(slots, later) && Released(slots, later)
    ensures later == []
  {
    SlotRunsNonempty(later);
    assert SlotRuns(later) <= SlotRuns(slots);
    assert SlotRuns(later) !! SlotRuns(slots);
  }

  /** A live chain has stopped once the run budget is spent. */
  lemma StopsInTime(cfg: Config, states: seq<Loop>, work: nat, tick: nat, n: nat)
    requires tick > 0 && Chain(cfg, states, work) && ClockMoves(states, tick)
    requires n == work + Ticks(cfg.runBudget, tick) + 1 && n + 1 < |states| && states[n + 1].phase.Going?
    ensures states[n + 1].drain.stop.Some?
  {
    assert Linked(cfg, states[n], states[n + 1]);
    ClockReaches(cfg, states, work, tick, 0, n, cfg.runBudget);
  }

  /** Every slot of a live, stopped chain carries an intent once the worker timeout has passed. */
  lemma IntendsInTime(cfg: Config, states: seq<Loop>, work: nat, tick: nat, i: nat, j: nat)
    requires tick > 0 && Chain(cfg, states, work) && ClockMoves(states, tick)
    requires j == i + work + Ticks(cfg.workerTimeout, tick) + 1 && j + 1 < |states|
    requires states[i].drain.stop.Some? && states[j + 1].phase.Going?
    ensures states[j + 1].drain.stop.Some? && AllIntended(states[j + 1].slots)
  {
    assert Linked(cfg, states[j], states[j + 1]);
    ClockReaches(cfg, states, work, tick, i, j, cfg.workerTimeout);
    StoppedOnward(cfg, states, work, i, j);
  }

  lemma ChainEnds(cfg: Config, states: seq<Loop>, work: nat, tick: nat, lag: nat)
    requires tick > 0 && Chain(cfg, states, work) && ClockMoves(states, tick) && AbortsAreReleased(states, lag)
    requires |states| > 2 * work + Ticks(cfg.runBudget, tick) + Ticks(cfg.workerTimeout, tick) + lag + 6
    ensures !states[|states| - 1].phase.Going?
  {
    var n := work + Ticks(cfg.runBudget, tick) + 1;
    var j := n + 1 + work + Ticks(cfg.workerTimeout, tick) + 1;
    if states[|states| - 1].phase.Going? {
      LiveBefore(cfg, states, work, n + 1, |states| - 1);
      StopsInTime(cfg, states, work, tick, n);
      LiveBefore(cfg, states, work, j + 1, |states| - 1);
      IntendsInTime(cfg, states, work, tick, n + 1, j);
      ExitsInTime(cfg, states, work, lag, j + 1);
      LiveBefore(cfg, states, work, j + lag + 2, |states| - 1);
    }
  }

  // ------------------------------------------------------------ monotone parts

  ghost predicate Advances(s: Loop, t: Loop, sends: nat)
  {
    && s.clock <= t.clock && |s.signal.applied| <= |t.signal.applied|
    && (s.signal.sourceGone ==> t.signal.sourceGone)
    && t.signal.sends <= s.signal.sends + sends
  }

  lemma PassAdvances(cfg: Config, s: Loop, top: nat, pass: PassIn)
    requires s.phase.Going?
    ensures Advances(s, Pass(cfg, s, top, pass), pass.sends)
  {
    if !PassGated(cfg, s, top) {
      var begun := Tick(BeginPass(cfg, s, top), pass.dtBudget);
      var polled := Tick(begun, pass.dt)
                    .(signal := Deliver(s.signal, pass.sends, pass.closes), events := Arrive(s.events, pass.arrivals));
      AfterPollAdvances(cfg, polled, pass);
    }
  }

  lemma PlanAdvances(cfg: Config, s: Loop, plan: PlanIn)
    requires s.phase.Going?
    ensures Advances(s, PlanAndSpawn(cfg, s, plan), 0)
  {
    PlanSlots(cfg, s, plan);
  }

  lemma AfterPollAdvances(cfg: Config, s: Loop, pass: PassIn)
    requires s.phase.Going?
    ensures Advances(s, AfterPoll(cfg, s, pass), 0)
  {
    if PollPlans(cfg, s, pass) {
      assert AfterPoll(cfg, s, pass) == PlanAndSpawn(cfg, Tick(s, pass.dtAfter), pass.result.plan);
      PlanAdvances(cfg, Tick(s, pass.dtAfter), pass.result.plan);
    }
  }

  lemma GuardsAdvance(cfg: Config, s: Loop, top: nat, step: Iter)
    requires s.phase.Going?
    ensures Advances(s, Guards(cfg, s, top, step), step.pass.sends)
  {
    if s.drain.stop.Some? {
      var trace := DrainIsTrace(cfg, s, step.drain);
      TraceFrame(cfg, s, trace);
    } else {
      PassAdvances(cfg, s, top, step.pass);
    }
  }

  lemma IterateAdvances(cfg: Config, s: Loop, step: Iter)
    ensures Advances(s, Iterate(cfg, s, step), step.pass.sends + step.wait.sends)
  {
    if s.phase.Going? {
      var top := Tick(s, step.dtTop);
      var trace := SuperviseIsTrace(cfg, top, step.supervise);
      TraceFrame(cfg, top, trace);
      var supervised := Supervise(cfg, top, step.supervise);
      if supervised.phase.Going? { GuardsAdvance(cfg, supervised, top.clock, step); }
    }
  }

  lemma {:induction false} SendsBounded(cfg: Config, base: Loop, script: seq<Iter>)
    ensures Run(cfg, base, script).signal.sends <= base.signal.sends + TotalSends(script)
  {
    if script != [] {
      SendsBounded(cfg, base, script[..|script| - 1]);
      IterateAdvances(cfg, Run(cfg, base, script[..|script| - 1]), script[|script| - 1]);
    }
  }

  // ------------------------------------------------------------- slot ages

  ghost predicate StartedBy(slots: seq<Slot>, time: nat)
  {
    forall i :: 0 <= i < |slots| ==> slots[i].started <= time
  }

  lemma MicroStarted(cfg: Config, s: Loop, m: Micro, time: nat)
    requires StartedBy(s.slots, time)
    ensures StartedBy(Exec(cfg, s, m).slots, time)
  {
    if s.phase.Going? && m.ReapSlot? && m.i < |s.slots| { ReapSlots(cfg, s, m.i, m.finish); }
  }

  lemma {:induction false} TraceStarted(cfg: Config, s: Loop, trace: seq<Micro>, time: nat)
    requires StartedBy(s.slots, time)
    ensures StartedBy(ExecAll(cfg, s, trace).slots, time)
    decreases |trace|
  {
    if trace != [] {
      MicroStarted(cfg, s, trace[0], time);
      TraceStarted(cfg, Exec(cfg, s, trace[0]), trace[1..], time);
    }
  }

  /** No slot is from the future, and while stopping no younger slot appears. */
  lemma IterateStarted(cfg: Config, s: Loop, step: Iter, time: nat)
    requires StartedBy(s.slots, s.clock)
    ensures StartedBy(Iterate(cfg, s, step).slots, Iterate(cfg, s, step).clock)
    ensures s.drain.stop.Some? && StartedBy(s.slots, time) ==> StartedBy(Iterate(cfg, s, step).slots, time)
  {
    IterateAdvances(cfg, s, step);
    if s.phase.Going? {
      var top := Tick(s, step.dtTop);
      var trace := SuperviseIsTrace(cfg, top, step.supervise);
      TraceFrame(cfg, top, trace);
      TraceStarted(cfg, top, trace, s.clock);
      if StartedBy(s.slots, time) { TraceStarted(cfg, top, trace, time); }
      var supervised := Supervise(cfg, top, step.supervise);
      if supervised.phase.Going? {
        GuardsStarted(cfg, supervised, top.clock, step, time);
        GuardsAdvance(cfg, supervised, top.clock, step);
      }
    }
  }

  lemma GuardsStarted(cfg: Config, s: Loop, top: nat, step: Iter, time: nat)
    requires StartedBy(s.slots, s.clock) && s.phase.Going?
    ensures StartedBy(Guards(cfg, s, top, step).slots, Guards(cfg, s, top, step).clock)
    ensures s.drain.stop.Some? && StartedBy(s.slots, time) ==> StartedBy(Guards(cfg, s, top, step).slots, time)
  {
    GuardsAdvance(cfg, s, top, step);
    if s.drain.stop.Some? {
      var trace := DrainIsTrace(cfg, s, step.drain);
      TraceStarted(cfg, s, trace, s.clock);
      if StartedBy(s.slots, time) { TraceStarted(cfg, s, trace, time); }
    } else {
      PassStarted(cfg, s, top, step.pass);
    }
  }

  /** One more slot, started at the earlier clock. */
  lemma OneMoreStarted(slots: seq<Slot>, more: seq<Slot>, clock: nat, later: nat)
    requires StartedBy(slots, clock) && clock <= later
    requires more == slots || (more != [] && more == slots + [more[|more| - 1]] && more[|more| - 1].started == clock)
    ensures StartedBy(more, later)
  {
  }

  lemma PlanStarted(cfg: Config, s: Loop, plan: PlanIn)
    requires StartedBy(s.slots, s.clock) && s.phase.Going?
    ensures StartedBy(PlanAndSpawn(cfg, s, plan).slots, PlanAndSpawn(cfg, s, plan).clock)
  {
    PlanSlots(cfg, s, plan);
    var t := PlanAndSpawn(cfg, s, plan);
    OneMoreStarted(s.slots, t.slots, s.clock, t.clock);
  }

  lemma AfterPollStarted(cfg: Config, s: Loop, pass: PassIn)
    requires StartedBy(s.slots, s.clock) && s.phase.Going?
    ensures StartedBy(AfterPoll(cfg, s, pass).slots, AfterPoll(cfg, s, pass).clock)
  {
    var later := Tick(s, pass.dtAfter);
    OneMoreStarted(s.slots, later.slots, s.clock, later.clock);
    if PollPlans(cfg, s, pass) {
      assert AfterPoll(cfg, s, pass) == PlanAndSpawn(cfg, later, pass.result.plan);
      PlanStarted(cfg, later, pass.result.plan);
    }
  }

  lemma PassStarted(cfg: Config, s: Loop, top: nat, pass: PassIn)
    requires StartedBy(s.slots, s.clock) && s.phase.Going?
    ensures StartedBy(Pass(cfg, s, top, pass).slots, Pass(cfg, s, top, pass).clock)
  {
    PassAdvances(cfg, s, top, pass);
    if !PassGated(cfg, s, top) {
      var begun := Tick(BeginPass(cfg, s, top), pass.dtBudget);
      var polled := Tick(begun, pass.dt)
                    .(signal := Deliver(s.signal, pass.sends, pass.closes), events := Arrive(s.events, pass.arrivals));
      AfterPollStarted(cfg, polled, pass);
    }
  }

  lemma {:induction false} RunStarted(cfg: Config, base: Loop, script: seq<Iter>)
    requires IsStart(base)
    ensures StartedBy(Run(cfg, base, script).slots, Run(cfg, base, script).clock)
  {
    if script != [] {
      RunStarted(cfg, base, script[..|script| - 1]);
      IterateStarted(cfg, Run(cfg, base, script[..|script| - 1]), script[|script| - 1], 0);
    }
  }

  // ----------------------------------------------------------- the three phases

  /** A live iteration that begins past the run budget declares a stop. */
  lemma BudgetStops(cfg: Config, s: Loop, step: Iter)
    requires s.phase.Going? && s.clock >= cfg.runBudget && Iterate(cfg, s, step).phase.Going?
    ensures Iterate(cfg, s, step).drain.stop.Some?
  {
    var top := Tick(s, step.dtTop);
    var trace := SuperviseIsTrace(cfg, top, step.supervise);
    TraceFrame(cfg, top, trace);
    var supervised := Supervise(cfg, top, step.supervise);
    if supervised.drain.stop.Some? {
      var drained := DrainIsTrace(cfg, supervised, step.drain);
      TraceFrame(cfg, supervised, drained);
    }
  }

  /** Supervision past the worker timeout leaves no slot without an intent. */
  lemma TimeoutIntendsAll(cfg: Config, s: Loop, step: SuperviseIn, time: nat)
    requires s.phase.Going? && StartedBy(s.slots, time) && s.clock >= time + cfg.workerTimeout
    ensures Supervise(cfg, s, step).phase.Going? ==> AllIntended(Supervise(cfg, s, step).slots)
  {
    var reaped := Reap(cfg, s, step.before);
    var reaps := ReapIsTrace(cfg, s, 0, step.before);
    TraceStarted(cfg, s, reaps, time);
    TraceFrame(cfg, s, reaps);
    if reaped.phase.Going? {
      var ticked := Tick(reaped, step.dtBeats);
      var beats := BeatsAreTrace(cfg, ticked, 0, step.beats);
      TraceStarted(cfg, ticked, beats, time);
      TraceFrame(cfg, ticked, beats);
      var beaten := BeatFrom(cfg, ticked, 0, step.beats);
      if beaten.phase.Going? {
        SweepsIntendAll(cfg, beaten, step, time);
        ReapIntends(cfg, KillSweeps(cfg, beaten, step), step.after);
      }
    }
  }

  lemma SweepsIntendAll(cfg: Config, s: Loop, step: SuperviseIn, time: nat)
    requires StartedBy(s.slots, time) && s.clock >= time + cfg.workerTimeout
    ensures AllIntended(KillSweeps(cfg, s, step).slots)
  {
    var stale := KillWhere(cfg, Tick(s, step.dtStall), Stale, Stall);
    assert forall i :: 0 <= i < |s.slots| ==> stale.slots[i].started == s.slots[i].started;
  }

  /** While stopping, one iteration past the timeout leaves every surviving slot intended. */
  lemma StoppingIntendsAll(cfg: Config, s: Loop, step: Iter, time: nat)
    requires s.drain.stop.Some? && StartedBy(s.slots, time) && s.clock >= time + cfg.workerTimeout
    requires s.phase.Going? && Iterate(cfg, s, step).phase.Going?
    ensures AllIntended(Iterate(cfg, s, step).slots)
  {
    var top := Tick(s, step.dtTop);
    TimeoutIntendsAll(cfg, top, step.supervise, time);
    var trace := SuperviseIsTrace(cfg, top, step.supervise);
    TraceFrame(cfg, top, trace);
    var supervised := Supervise(cfg, top, step.supervise);
    var drained := DrainIsTrace(cfg, supervised, step.drain);
    TraceIntents(cfg, supervised, drained);
  }

  /** While stopping, an iteration that starts with no slot ends the loop. */
  lemma EmptyDrainExits(cfg: Config, s: Loop, step: Iter)
    requires s.drain.stop.Some? && s.slots == [] && s.phase.Going?
    ensures !Iterate(cfg, s, step).phase.Going?
  {
    var top := Tick(s, step.dtTop);
    var trace := SuperviseIsTrace(cfg, top, step.supervise);
    TraceFrame(cfg, top, trace);
    var supervised := Supervise(cfg, top, step.supervise);
    if supervised.phase.Going? {
      var drained := DrainIsTrace(cfg, supervised, step.drain);
      TraceFrame(cfg, supervised, drained);
    }
  }

  // --------------------------------------------- surviving slots were there before

  ghost predicate Survive(slots: seq<Slot>, later: seq<Slot>)
  {
    forall j :: 0 <= j < |later| ==> later[j].run in SlotRuns(slots)
  }

  lemma MicroSurvive(cfg: Config, first: seq<Slot>, s: Loop, m: Micro)
    requires Survive(first, s.slots)
    ensures Survive(first, Exec(cfg, s, m).slots)
  {
    if s.phase.Going? && m.ReapSlot? && m.i < |s.slots| { ReapSlots(cfg, s, m.i, m.finish); }
  }

  lemma {:induction false} TraceSurvive(cfg: Config, first: seq<Slot>, s: Loop, trace: seq<Micro>)
    requires Survive(first, s.slots)
    ensures Survive(first, ExecAll(cfg, s, trace).slots)
    decreases |trace|
  {
    if trace != [] {
      MicroSurvive(cfg, first, s, trace[0]);
      TraceSurvive(cfg, first, Exec(cfg, s, trace[0]), trace[1..]);
    }
  }

  lemma IterateSurvive(cfg: Config, first: seq<Slot>, s: Loop, step: Iter)
    requires s.drain.stop.Some? && Survive(first, s.slots)
    ensures Survive(first, Iterate(cfg, s, step).slots)
  {
    if s.phase.Going? {
      var top := Tick(s, step.dtTop);
      var trace := SuperviseIsTrace(cfg, top, step.supervise);
      TraceFrame(cfg, top, trace);
      TraceSurvive(cfg, first, top, trace);
      var supervised := Supervise(cfg, top, step.supervise);
      if supervised.phase.Going? {
        var drained := DrainIsTrace(cfg, supervised, step.drain);
        TraceSurvive(cfg, first, supervised, drained);
      }
    }
  }

  // -------------------------------------------------------- runs are such chains

  lemma IterateLinked(cfg: Config, s: Loop, step: Iter)
    requires StartedBy(s.slots, s.clock)
    ensures Linked(cfg, s, Iterate(cfg, s, step))
  {
    var t := Iterate(cfg, s, step);
    IterateAdvances(cfg, s, step);
    if s.phase.Going? && t.phase.Going? && s.clock >= cfg.runBudget { BudgetStops(cfg, s, step); }
    if s.drain.stop.Some? { StoppingLinked(cfg, s, step); }
  }

  lemma StoppingLinked(cfg: Config, s: Loop, step: Iter)
    requires StartedBy(s.slots, s.clock) && s.drain.stop.Some?
    ensures var t := Iterate(cfg, s, step);
            && t.drain.stop.Some? && Survive(s.slots, t.slots)
            && (s.slots == [] ==> !t.phase.Going?)
            && (forall time: nat :: StartedBy(s.slots, time) ==> StartedBy(t.slots, time))
            && (t.phase.Going? ==>
                  forall time: nat ::
                    StartedBy(s.slots, time) && s.clock >= time + cfg.workerTimeout ==> AllIntended(t.slots))
  {
    StopIsFinal(cfg, s, step);
    SurviveSelf(s.slots);
    IterateSurvive(cfg, s.slots, s, step);
    if s.slots == [] && s.phase.Going? { EmptyDrainExits(cfg, s, step); }
    forall time: nat | StartedBy(s.slots, time) ensures StartedBy(Iterate(cfg, s, step).slots, time) {
      IterateStarted(cfg, s, step, time);
    }
    forall time: nat | StartedBy(s.slots, time) && s.clock >= time + cfg.workerTimeout
                       && Iterate(cfg, s, step).phase.Going?
      ensures AllIntended(Iterate(cfg, s, step).slots)
    {
      StoppingIntendsAll(cfg, s, step, time);
    }
  }

  lemma {:induction false} StatesEndInRun(cfg: Config, base: Loop, script: seq<Iter>)
    ensures States(cfg, base, script)[|script|] == Run(cfg, base, script)
  {
    if script != [] { StatesEndInRun(cfg, base, script[..|script| - 1]); }
  }

  lemma StatesOfInit(cfg: Config, base: Loop, script: seq<Iter>, k: nat)
    requires k < |script|
    ensures States(cfg, base, script)[k] == States(cfg, base, script[..|script| - 1])[k]
  {
  }

  /** Each state is the run over the script so far. */
  lemma {:induction false} StateAt(cfg: Config, base: Loop, script: seq<Iter>, k: nat)
    requires k <= |script|
    ensures States(cfg, base, script)[k] == Run(cfg, base, script[..k])
  {
    if k == |script| {
      StatesEndInRun(cfg, base, script);
      assert script[..k] == script;
    } else {
      var init := script[..|script| - 1];
      StatesOfInit(cfg, base, script, k);
      StateAt(cfg, base, init, k);
      assert init[..k] == script[..k];
    }
  }

  /** The next state is one iteration on. */
  lemma {:induction false} StateNext(cfg: Config, base: Loop, script: seq<Iter>, k: nat)
    requires k < |script|
    ensures States(cfg, base, script)[k + 1] == Iterate(cfg, States(cfg, base, script)[k], script[k])
  {
    if k < |script| - 1 {
      StatesOfInit(cfg, base, script, k);
      StatesOfInit(cfg, base, script, k + 1);
      StateNext(cfg, base, script[..|script| - 1], k);
    }
  }

  lemma RunIsSane(cfg: Config, base: Loop, script: seq<Iter>, work: nat)
    requires IsStart(base) && work > Unseen(base) + TotalSends(script)
    ensures Sane(Run(cfg, base, script), work)
  {
    RunSignalled(cfg, base, script);
    SendsBounded(cfg, base, script);
    RunStarted(cfg, base, script);
  }

  lemma {:induction false} RunIsChain(cfg: Config, base: Loop, script: seq<Iter>, work: nat)
    requires IsStart(base) && work > Unseen(base) + TotalSends(script)
    ensures Chain(cfg, States(cfg, base, script), work)
  {
    RunIsSane(cfg, base, script, work);
    StatesEndInRun(cfg, base, script);
    if script != [] {
      var n := |script| - 1;
      var earlier := States(cfg, base, script[..n]);
      RunIsChain(cfg, base, script[..n], work);
      assert Sane(earlier[n], work);
      IterateLinked(cfg, earlier[n], script[n]);
      ChainGrows(cfg, earlier, Iterate(cfg, earlier[n], script[n]), work);
    }
  }

  lemma ChainGrows(cfg: Config, states: seq<Loop>, next: Loop, work: nat)
    requires states != [] && Chain(cfg, states, work) && Sane(next, work) && Linked(cfg, states[|states| - 1], next)
    ensures Chain(cfg, states + [next], work)
  {
    var more := states + [next];
    forall k | 0 <= k < |more| - 1 ensures Linked(cfg, more[k], more[k + 1]) {
      if k < |states| - 1 { assert Linked(cfg, states[k], states[k + 1]); }
    }
  }

  // ------------------------------------------------------ from the premises to the chain

  /** A channel event that is heard is handled. */
  lemma HeardIsHandled(cfg: Config, s: Loop, wait: WaitIn)
    requires HearsChannel(s.signal, wait)
    ensures ChannelWork(Wait(cfg, s, wait)) > ChannelWork(s)
  {
  }

  lemma WaitProgresses(cfg: Config, s: Loop, wait: WaitIn, tick: nat)
    requires wait.dt >= tick || HearsChannel(s.signal, wait)
    ensures Wait(cfg, s, wait).clock >= s.clock + tick || ChannelWork(Wait(cfg, s, wait)) > ChannelWork(s)
  {
    if wait.dt < tick { HeardIsHandled(cfg, s, wait); }
  }

  lemma IterateProgresses(cfg: Config, s: Loop, step: Iter, tick: nat)
    requires WaitIsPaid(cfg, s, step, tick)
    ensures Progresses(tick, s, Iterate(cfg, s, step))
  {
    if s.phase.Going? {
      var top := Tick(s, step.dtTop);
      var trace := SuperviseIsTrace(cfg, top, step.supervise);
      TraceFrame(cfg, top, trace);
      var supervised := Supervise(cfg, top, step.supervise);
      if supervised.phase.Going? {
        GuardsAdvance(cfg, supervised, top.clock, step);
        var guarded := Guards(cfg, supervised, top.clock, step);
        if guarded.phase.Going? { WaitProgresses(cfg, guarded, step.wait, tick); }
      }
    }
  }

  lemma PaidClockMoves(cfg: Config, base: Loop, script: seq<Iter>, tick: nat)
    requires WaitsArePaid(cfg, States(cfg, base, script), script, tick)
    ensures ClockMoves(States(cfg, base, script), tick)
  {
    var states := States(cfg, base, script);
    forall k | 0 <= k < |states| - 1 ensures Progresses(tick, states[k], states[k + 1]) {
      StateNext(cfg, base, script, k);
      assert WaitIsPaid(cfg, states[k], script[k], tick);
      IterateProgresses(cfg, states[k], script[k], tick);
    }
  }

  /** What the iterations between two states do to rows and slots. */
  ghost predicate Evolving(states: seq<Loop>)
  {
    forall k :: 0 <= k < |states| - 1 ==> Evolves(states[k], states[k + 1])
  }

  /** An iteration that finds an aborted handle finished releases its slot. */
  ghost predicate Releasing(cfg: Config, states: seq<Loop>, script: seq<Iter>)
    requires |states| == |script| + 1
  {
    forall m: nat, run: nat :: m < |script| && FindsFinished(cfg, states[m], script[m], run)
      ==> (states[m].phase.Going? && AbortedOrGone(states[m], run) ==> Gone(states[m + 1], run))
  }

  lemma {:induction false} EvolvesAcross(states: seq<Loop>, k: nat, n: nat)
    requires Evolving(states) && k <= n < |states|
    ensures Evolves(states[k], states[n])
    decreases n - k
  {
    if k == n {
      StillEvolves(states[k], states[k]);
    } else {
      EvolvesAcross(states, k, n - 1);
      EvolvesTrans(states[k], states[n - 1], states[n]);
    }
  }

  /** The loop itself releases an aborted slot whose handle resolves in time. */
  lemma ResolvedIsReleased(cfg: Config, states: seq<Loop>, script: seq<Iter>, work: nat, k: nat, lag: nat, run: nat)
    requires |states| == |script| + 1 && Evolving(states) && Releasing(cfg, states, script) && Chain(cfg, states, work)
    requires k + lag <= |script| && states[k + lag].phase.Going?
    requires AbortedOrGone(states[k], run) && ResolvesWithin(cfg, states, script, k, lag, run)
    ensures Gone(states[k + lag], run)
  {
    var m: nat :| k <= m < k + lag && FindsFinished(cfg, states[m], script[m], run);
    EvolvesAcross(states, k, m);
    AbortedStays(states[k], states[m], run);
    LiveBefore(cfg, states, work, m, k + lag);
    assert Gone(states[m + 1], run);
    EvolvesAcross(states, m + 1, k + lag);
    GoneStays(states[m + 1], states[k + lag], run);
  }

  lemma OnlySlotIsAborted(cfg: Config, base: Loop, s: Loop, i: nat)
    requires Bookkept(cfg, base, s) && i < |s.slots| && s.slots[i].aborted
    ensures AbortedOrGone(s, s.slots[i].run)
  {
    assert SlotMatches(|base.store.rows|, s, s.slots[i]);
    forall j | 0 <= j < |s.slots| && s.slots[j].run == s.slots[i].run ensures s.slots[j].aborted {
      assert j == i;
    }
  }

  lemma StatesEvolve(cfg: Config, base: Loop, script: seq<Iter>)
    ensures Evolving(States(cfg, base, script))
  {
    var states := States(cfg, base, script);
    forall k | 0 <= k < |states| - 1 ensures Evolves(states[k], states[k + 1]) {
      StateNext(cfg, base, script, k);
      IterateEvolves(cfg, states[k], script[k]);
    }
  }

  lemma StateIsBookkept(cfg: Config, base: Loop, script: seq<Iter>, k: nat)
    requires IsStart(base) && k <= |script|
    ensures Bookkept(cfg, base, States(cfg, base, script)[k])
  {
    StateAt(cfg, base, script, k);
    RunIsBookkept(cfg, base, script[..k]);
  }

  lemma StatesRelease(cfg: Config, base: Loop, script: seq<Iter>)
    requires IsStart(base)
    ensures Releasing(cfg, States(cfg, base, script), script)
  {
    var states := States(cfg, base, script);
    forall m: nat, run: nat | m < |script| && FindsFinished(cfg, states[m], script[m], run)
      ensures states[m].phase.Going? && AbortedOrGone(states[m], run) ==> Gone(states[m + 1], run)
    {
      if states[m].phase.Going? && AbortedOrGone(states[m], run) {
        StateIsBookkept(cfg, base, script, m);
        StateNext(cfg, base, script, m);
        IterateReleases(cfg, base, states[m], script[m], run);
      }
    }
  }

  lemma ResolvedSlot(cfg: Config, base: Loop, states: seq<Loop>, script: seq<Iter>, work: nat, lag: nat, k: nat, i: nat)
    requires |states| == |script| + 1 && Evolving(states) && Releasing(cfg, states, script) && Chain(cfg, states, work)
    requires AbortsResolve(cfg, states, script, lag) && k + lag <= |script| && states[k + lag].phase.Going?
    requires Bookkept(cfg, base, states[k]) && i < |states[k].slots| && states[k].slots[i].aborted
    ensures states[k].slots[i].run !in SlotRuns(states[k + lag].slots)
  {
    OnlySlotIsAborted(cfg, base, states[k], i);
    assert ResolvesWithin(cfg, states, script, k, lag, states[k].slots[i].run);
    ResolvedIsReleased(cfg, states, script, work, k, lag, states[k].slots[i].run);
  }

  lemma ResolvedPair(cfg: Config, base: Loop, states: seq<Loop>, script: seq<Iter>, work: nat, lag: nat, k: nat)
    requires |states| == |script| + 1 && Evolving(states) && Releasing(cfg, states, script) && Chain(cfg, states, work)
    requires AbortsResolve(cfg, states, script, lag) && k + lag <= |script| && states[k + lag].phase.Going?
    requires Bookkept(cfg, base, states[k])
    ensures Released(states[k].slots, states[k + lag].slots)
  {
    var was, left := states[k].slots, states[k + lag].slots;
    forall i: nat, j: nat | i < |was| && j < |left| && was[i].aborted ensures was[i].run != left[j].run {
      ResolvedSlot(cfg, base, states, script, work, lag, k, i);
      assert left[j].run in SlotRuns(left);
    }
  }

  lemma ResolvedAborts(cfg: Config, base: Loop, states: seq<Loop>, script: seq<Iter>, work: nat, lag: nat)
    requires |states| == |script| + 1 && Evolving(states) && Releasing(cfg, states, script) && Chain(cfg, states, work)
    requires forall k :: 0 <= k < |states| ==> Bookkept(cfg, base, states[k])
    requires AbortsResolve(cfg, states, script, lag)
    ensures AbortsAreReleased(states, lag)
  {
    forall k: nat, n: nat | n == k + lag && n < |states| && states[n].phase.Going?
      ensures Released(states[k].slots, states[n].slots)
    {
      ResolvedPair(cfg, base, states, script, work, lag, k);
    }
  }

  lemma ScriptReleases(cfg: Config, base: Loop, script: seq<Iter>, work: nat, lag: nat)
    requires IsStart(base) && AbortsResolve(cfg, States(cfg, base, script), script, lag)
    requires Chain(cfg, States(cfg, base, script), work)
    ensures AbortsAreReleased(States(cfg, base, script), lag)
  {
    var states := States(cfg, base, script);
    StatesEvolve(cfg, base, script);
    StatesRelease(cfg, base, script);
    forall k | 0 <= k < |states| ensures Bookkept(cfg, base, states[k]) { StateIsBookkept(cfg, base, script, k); }
    ResolvedAborts(cfg, base, states, script, work, lag);
  }

  lemma StatesEnd(cfg: Config, base: Loop, script: seq<Iter>, tick: nat, lag: nat)
    requires IsStart(base) && tick > 0
    requires WaitsArePaid(cfg, States(cfg, base, script), script, tick)
    requires AbortsResolve(cfg, States(cfg, base, script), script, lag)
    requires |script| >= IterationBound(cfg, tick, lag, Unseen(base) + TotalSends(script))
    ensures !States(cfg, base, script)[|script|].phase.Going?
  {
    var work := Unseen(base) + TotalSends(script) + 1;
    PaidClockMoves(cfg, base, script, tick);
    RunIsChain(cfg, base, script, work);
    ScriptReleases(cfg, base, script, work, lag);
    ChainEnds(cfg, States(cfg, base, script), work, tick, lag);
  }

  /**
  Every run terminates: whatever the board, the workers and the operator do, a
  run whose waits hear the channel or sleep a tick, and whose aborted handles
  are found finished by some reap within `lag` iterations, has ended after
  `IterationBound` iterations. The deadline-free spend-cap drain is covered too.
   */
  lemma RunTerminates(cfg: Config, base: Loop, script: seq<Iter>, tick: nat, lag: nat)
    requires IsStart(base) && tick > 0
    requires WaitsArePaid(cfg, States(cfg, base, script), script, tick)
    requires AbortsResolve(cfg, States(cfg, base, script), script, lag)
    requires |script| >= IterationBound(cfg, tick, lag, Unseen(base) + TotalSends(script))
    ensures !Run(cfg, base, script).phase.Going?
  {
    StatesEnd(cfg, base, script, tick, lag);
    StatesEndInRun(cfg, base, script);
  }
}

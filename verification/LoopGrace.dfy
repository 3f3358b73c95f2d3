/**
The grace window exactly: over which runs the drain deadline stays within the
shutdown budget of the first signal.
 */
module LoopGrace {
  import opened Wrappers
  import opened RunState
  import opened LoopModel
  import opened LoopTrace
  import opened LoopBookkeeping
  import opened LoopSignals
  import opened LoopArbitration
  import opened LoopReaping
  import opened LoopTermination

  /** The deadline is at most the first applied signal plus the shutdown budget. */
  predicate WithinGrace(cfg: Config, s: Loop)
    requires s.signal.applied != []
  {
    s.drain.deadline.At? && s.drain.deadline.time <= s.signal.applied[0].at + cfg.shutdownBudget
  }

  /** From the first applied signal on, the deadline is within the window. */
  ghost predicate GraceHolds(cfg: Config, s: Loop)
  {
    s.signal.applied != [] ==> WithinGrace(cfg, s)
  }

  // -------------------------------------------------------------- what breaks the bound

  /** Some slot's handle has not resolved when the drain reaps. */
  ghost predicate HasUnresolved(s: Loop, step: DrainIn)
  {
    exists k :: 0 <= k < |s.slots| && s.slots[k].run !in step.reaped
  }

  /** After a signal, a drain step at or past the deadline restarts the window for an unresolved handle. */
  ghost predicate DrainBreaks(s: Loop, step: DrainIn)
  {
    && s.signal.applied != [] && s.drain.stop.Some? && Reached(s.drain.deadline, s.clock + step.dt)
    && s.signal.applied[0].at < s.clock + step.dt && HasUnresolved(s, step)
  }

  /** The wait observes a signal while the loop is already shutting down. */
  predicate ShortCircuits(s: Loop, wait: WaitIn)
  {
    && s.drain.stop == Some(Shutdown) && wait.channelFirst && !s.signal.sourceGone
    && Deliver(s.signal, wait.sends, wait.closes).sends > s.signal.mainSeen
  }

  /** The short-circuit comes after the window has closed. */
  predicate IsLate(cfg: Config, s: Loop, wait: WaitIn)
  {
    s.signal.applied != [] && s.clock + wait.dt > s.signal.applied[0].at + cfg.shutdownBudget
  }

  /**
  The iteration moves the deadline past the bound: by a late short-circuit in
  its wait or, if its wait does not short-circuit, by its drain step.
   */
  ghost predicate BreaksGrace(cfg: Config, s: Loop, step: Iter)
  {
    var top := Tick(s, step.dtTop);
    var supervised := Supervise(cfg, top, step.supervise);
    var guarded := Guards(cfg, supervised, top.clock, step);
    && s.phase.Going?
    && if guarded.phase.Going? && ShortCircuits(guarded, step.wait) then IsLate(cfg, guarded, step.wait)
       else DrainBreaks(supervised, step.drain)
  }

  // ---------------------------------------------------------------------- the stages

  /** When every slot is aborted, a reap leaves exactly those whose handles have not resolved. */
  lemma ReapLeavesUnresolved(cfg: Config, s: Loop, finished: map<nat, Finish>)
    requires SlotsRun(s) && s.phase.Going? && forall k :: 0 <= k < |s.slots| ==> s.slots[k].aborted
    ensures var t := Reap(cfg, s, finished);
            t.phase.Going? && (t.slots != [] <==> exists k :: 0 <= k < |s.slots| && s.slots[k].run !in finished)
  {
    ReapFilters(cfg, s, 0, finished);
    var t := Reap(cfg, s, finished);
    if t.slots != [] {
      assert t.slots[0] in s.slots;
      var k :| 0 <= k < |s.slots| && s.slots[k] == t.slots[0];
      assert s.slots[k].run !in finished;
    }
    if k :| 0 <= k < |s.slots| && s.slots[k].run !in finished { assert s.slots[k] in t.slots; }
  }

  lemma DrainLeavesUnresolved(cfg: Config, s: Loop, step: DrainIn)
    requires SlotsRun(s) && IntentsMatchAborts(s.slots) && s.phase.Going?
    requires Reached(s.drain.deadline, s.clock + step.dt)
    ensures var t := DrainSweep(cfg, s, step); t.phase.Going? && (t.slots != [] <==> HasUnresolved(s, step))
  {
    var now := Tick(s, step.dt);
    var killed := KillWhere(cfg, now, Everything, DrainIntent(now));
    assert forall k :: 0 <= k < |s.slots| ==> killed.slots[k].run == s.slots[k].run;
    ReapLeavesUnresolved(cfg, killed, step.reaped);
  }

  /** A drain step keeps the bound exactly when it does not break it, and once broken every slot has its intent. */
  lemma DrainKeepsGrace(cfg: Config, s: Loop, step: DrainIn)
    requires SlotsRun(s) && IntentsMatchAborts(s.slots) && s.phase.Going? && s.drain.stop.Some?
    requires s.signal.applied != [] && WithinGrace(cfg, s)
    ensures DrainStep(cfg, s, step).signal == s.signal
    ensures WithinGrace(cfg, DrainStep(cfg, s, step)) <==> !DrainBreaks(s, step)
    ensures !WithinGrace(cfg, DrainStep(cfg, s, step)) ==> AllIntended(DrainStep(cfg, s, step).slots)
  {
    var trace := DrainIsTrace(cfg, s, step);
    TraceFrame(cfg, s, trace);
    if Reached(s.drain.deadline, s.clock + step.dt) {
      DrainLeavesUnresolved(cfg, s, step);
      DeadlineIntendsAll(cfg, s, step);
    } else if s.slots == [] {
      DeadlineIntendsAll(cfg, s, step);
    }
  }

  lemma GuardsDrainGrace(cfg: Config, seen: nat, s: Loop, top: nat, step: Iter)
    requires SlotsRun(s) && Signalled(cfg, seen, s) && s.phase.Going? && s.drain.stop.Some? && GraceHolds(cfg, s)
    ensures var g := Guards(cfg, s, top, step);
            && g.signal == s.signal && (GraceHolds(cfg, g) <==> !DrainBreaks(s, step.drain))
            && s.clock + step.drain.dt <= g.clock
  {
    var trace := DrainIsTrace(cfg, s, step.drain);
    TraceFrame(cfg, s, trace);
    if s.signal.applied != [] { DrainKeepsGrace(cfg, s, step.drain); }
    DrainClock(cfg, s, step.drain);
    var d, g := DrainStep(cfg, s, step.drain), Guards(cfg, s, top, step);
    assert g.signal == d.signal && g.drain == d.drain && g.clock == d.clock;
  }

  lemma DrainClock(cfg: Config, s: Loop, step: DrainIn)
    requires s.phase.Going?
    ensures s.clock + step.dt <= DrainStep(cfg, s, step).clock
  {
    var now := Tick(s, step.dt);
    var killed := KillWhere(cfg, now, Everything, DrainIntent(now));
    var trace := ReapIsTrace(cfg, killed, 0, step.reaped);
    TraceFrame(cfg, killed, trace);
  }

  /** A pass that applies the first signal opens a window of exactly one budget. */
  lemma PassGrace(cfg: Config, s: Loop, top: nat, pass: PassIn)
    requires s.phase.Going? && s.drain.stop.None? && s.signal.applied == []
    ensures GraceHolds(cfg, Pass(cfg, s, top, pass))
  {
    if !PassGated(cfg, s, top) {
      var polled := Tick(Tick(BeginPass(cfg, s, top), pass.dtBudget), pass.dt)
                    .(signal := Deliver(s.signal, pass.sends, pass.closes), events := Arrive(s.events, pass.arrivals));
      AfterPollGrace(cfg, polled, pass);
    }
  }

  lemma AfterPollGrace(cfg: Config, s: Loop, pass: PassIn)
    requires s.phase.Going? && s.drain.stop.None? && s.signal.applied == []
    ensures GraceHolds(cfg, AfterPoll(cfg, s, pass))
  {
    if pass.result.PollOk? { PlanSlots(cfg, Tick(s, pass.dtAfter), pass.result.plan); }
  }

  lemma GuardsGrace(cfg: Config, seen: nat, s: Loop, top: nat, step: Iter)
    requires SlotsRun(s) && Signalled(cfg, seen, s) && s.phase.Going? && GraceHolds(cfg, s)
    ensures var g := Guards(cfg, s, top, step);
            && (GraceHolds(cfg, g) <==> !DrainBreaks(s, step.drain))
            && (!GraceHolds(cfg, g) ==> g.signal.applied[0].at < g.clock)
  {
    if s.drain.stop.Some? {
      GuardsDrainGrace(cfg, seen, s, top, step);
    } else {
      PassGrace(cfg, s, top, step.pass);
    }
  }

  /** A wait keeps what it finds, except that a short-circuit puts the deadline at its own instant. */
  lemma WaitGrace(cfg: Config, seen: nat, s: Loop, wait: WaitIn)
    requires Signalled(cfg, seen, s)
    requires !GraceHolds(cfg, s) ==> s.signal.applied[0].at < s.clock
    ensures ShortCircuits(s, wait) ==> (GraceHolds(cfg, Wait(cfg, s, wait)) <==> !IsLate(cfg, s, wait))
    ensures !ShortCircuits(s, wait) ==> (GraceHolds(cfg, Wait(cfg, s, wait)) <==> GraceHolds(cfg, s))
  {
    var now := Tick(s, wait.dt).(signal := Deliver(s.signal, wait.sends, wait.closes));
    if !now.signal.sourceGone && wait.channelFirst && now.signal.sends > now.signal.mainSeen {
      var t := ApplySignal(cfg, now);
      assert Wait(cfg, s, wait) == t;
      if s.signal.applied != [] { assert t.signal.applied[0] == s.signal.applied[0]; }
      else { assert t.signal.applied == [Applied(now.clock, false)]; }
    }
  }

  /** From supervision on: the guards and, if the loop still goes, the wait. */
  lemma TailGrace(cfg: Config, seen: nat, u: Loop, top: nat, step: Iter, t: Loop)
    requires SlotsRun(u) && Signalled(cfg, seen, u) && u.phase.Going? && GraceHolds(cfg, u)
    requires var g := Guards(cfg, u, top, step); t == if g.phase.Going? then Wait(cfg, g, step.wait) else g
    ensures var g := Guards(cfg, u, top, step);
            GraceHolds(cfg, t) <==>
            !(if g.phase.Going? && ShortCircuits(g, step.wait) then IsLate(cfg, g, step.wait)
              else DrainBreaks(u, step.drain))
  {
    GuardsGrace(cfg, seen, u, top, step);
    GuardsSignalled(cfg, seen, u, top, step);
    var g := Guards(cfg, u, top, step);
    if g.phase.Going? { WaitGrace(cfg, seen, g, step.wait); }
  }

  lemma SupervisedGrace(cfg: Config, base: Loop, seen: nat, s: Loop, step: Iter)
    requires Bookkept(cfg, base, s) && Signalled(cfg, seen, s) && GraceHolds(cfg, s) && s.phase.Going?
    ensures var u := Supervise(cfg, Tick(s, step.dtTop), step.supervise);
            SlotsRun(u) && Signalled(cfg, seen, u) && u.phase.Going? && GraceHolds(cfg, u)
  {
    var top := Tick(s, step.dtTop);
    TickIsBookkept(cfg, base, s, step.dtTop);
    SupervisedIsBookkept(cfg, base, top, step.supervise);
    var trace := SuperviseIsTrace(cfg, top, step.supervise);
    TraceSignalled(cfg, seen, top, trace);
    TraceFrame(cfg, top, trace);
  }

  /** Starting within the window, an iteration ends within it exactly when it does not break it. */
  lemma IterateGrace(cfg: Config, base: Loop, seen: nat, s: Loop, step: Iter)
    requires Bookkept(cfg, base, s) && Signalled(cfg, seen, s) && GraceHolds(cfg, s)
    ensures GraceHolds(cfg, Iterate(cfg, s, step)) <==> !BreaksGrace(cfg, s, step)
  {
    if s.phase.Going? {
      var top := Tick(s, step.dtTop);
      SupervisedGrace(cfg, base, seen, s, step);
      TailGrace(cfg, seen, Supervise(cfg, top, step.supervise), top.clock, step, Iterate(cfg, s, step));
    }
  }

  // ---------------------------------------------------------------------- whole runs

  ghost predicate AlwaysInGrace(cfg: Config, states: seq<Loop>)
  {
    forall k :: 0 <= k < |states| ==> GraceHolds(cfg, states[k])
  }

  ghost predicate NothingBreaks(cfg: Config, states: seq<Loop>, script: seq<Iter>)
    requires |states| == |script| + 1
  {
    forall k :: 0 <= k < |script| ==> !BreaksGrace(cfg, states[k], script[k])
  }

  /** One iteration decides whether the next state is still within the window. */
  ghost predicate StepsDecide(cfg: Config, states: seq<Loop>, script: seq<Iter>)
    requires |states| == |script| + 1
  {
    forall k :: 0 <= k < |script| ==>
      (GraceHolds(cfg, states[k]) ==> (GraceHolds(cfg, states[k + 1]) <==> !BreaksGrace(cfg, states[k], script[k])))
  }

  lemma {:induction false} UnbrokenHolds(cfg: Config, states: seq<Loop>, script: seq<Iter>, k: nat)
    requires |states| == |script| + 1 && StepsDecide(cfg, states, script) && NothingBreaks(cfg, states, script)
    requires k < |states| && GraceHolds(cfg, states[0])
    ensures GraceHolds(cfg, states[k])
  {
    if k > 0 {
      UnbrokenHolds(cfg, states, script, k - 1);
      assert !BreaksGrace(cfg, states[k - 1], script[k - 1]);
    }
  }

  lemma GraceOfStates(cfg: Config, states: seq<Loop>, script: seq<Iter>)
    requires |states| == |script| + 1 && StepsDecide(cfg, states, script) && GraceHolds(cfg, states[0])
    ensures AlwaysInGrace(cfg, states) <==> NothingBreaks(cfg, states, script)
  {
    if NothingBreaks(cfg, states, script) {
      forall k: nat | k < |states| ensures GraceHolds(cfg, states[k]) { UnbrokenHolds(cfg, states, script, k); }
    }
    if AlwaysInGrace(cfg, states) {
      forall k | 0 <= k < |script| ensures !BreaksGrace(cfg, states[k], script[k]) {
        assert GraceHolds(cfg, states[k]) && GraceHolds(cfg, states[k + 1]);
      }
    }
  }

  lemma StateGrace(cfg: Config, base: Loop, script: seq<Iter>, k: nat)
    requires IsStart(base) && k < |script| && GraceHolds(cfg, States(cfg, base, script)[k])
    ensures var states := States(cfg, base, script);
            GraceHolds(cfg, states[k + 1]) <==> !BreaksGrace(cfg, states[k], script[k])
  {
    StateAt(cfg, base, script, k);
    StateNext(cfg, base, script, k);
    RunIsBookkept(cfg, base, script[..k]);
    RunSignalled(cfg, base, script[..k]);
    IterateGrace(cfg, base, base.signal.mainSeen, States(cfg, base, script)[k], script[k]);
  }

  /**
  Over every run: from the first applied signal on, the deadline is at most
  that instant plus the shutdown budget in every state, if and only if no
  iteration short-circuits in its wait after the window has closed, and none
  whose wait does not short-circuit runs its drain after that signal, at or
  past the deadline, with an unresolved handle.
   */
  lemma GraceExactly(cfg: Config, base: Loop, script: seq<Iter>)
    requires IsStart(base)
    ensures var states := States(cfg, base, script); AlwaysInGrace(cfg, states) <==> NothingBreaks(cfg, states, script)
  {
    var states := States(cfg, base, script);
    forall k | 0 <= k < |script|
      ensures GraceHolds(cfg, states[k]) ==>
                (GraceHolds(cfg, states[k + 1]) <==> !BreaksGrace(cfg, states[k], script[k]))
    {
      if GraceHolds(cfg, states[k]) { StateGrace(cfg, base, script, k); }
    }
    GraceOfStates(cfg, states, script);
  }
}

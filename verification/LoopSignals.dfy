/**
The shutdown protocol over the main receiver and its pass-time clone, the
once-written stop reason, and the grace window of a drain.
 */
module LoopSignals {
  import opened Wrappers
  import opened RunState
  import opened LoopModel
  import opened LoopTrace
  import opened LoopBookkeeping

  /** Every slot has been told to stop. */
  ghost predicate AllIntended(slots: seq<Slot>)
  {
    forall i :: 0 <= i < |slots| ==> slots[i].intent.Some?
  }

  /** The intent is recorded with the abort, so neither exists without the other. */
  ghost predicate IntentsMatchAborts(slots: seq<Slot>)
  {
    forall i :: 0 <= i < |slots| ==> (slots[i].aborted <==> slots[i].intent.Some?)
  }

  /** Stop, drain reason and deadline are set together. */
  ghost predicate DrainIsConsistent(s: Loop)
  {
    && (s.drain.stop.None? <==> s.drain.reason.None?)
    && (s.drain.stop.None? ==> s.drain.deadline.Unbounded?)
    && (s.drain.deadline.Unbounded? ==> s.drain.stop.None? || s.drain.stop == Some(SpendSoftCap))
    && (s.drain.reason == s.drain.stop || s.drain.reason == Some(Shutdown))
  }

  /** Sends, receivers and applied signals; `seen` is what the receiver had seen at the start. */
  ghost predicate SignalsAreCounted(seen: nat, s: Loop)
  {
    var c := s.signal;
    && seen + |c.applied| <= c.mainSeen <= c.sends && c.cloneSeen <= c.sends
    && (s.drain.stop.None? ==> c.applied == [] && c.mainSeen == c.cloneSeen == seen)
    && (s.drain.stop == Some(Shutdown) ==> c.applied != [])
    && (c.applied != [] ==> s.drain.reason == Some(Shutdown) && s.drain.deadline.At?)
    && (c.applied != [] ==> !c.applied[0].shortCircuit)
    && (forall i, j :: 0 <= i < j < |c.applied| ==> c.applied[i].at <= c.applied[j].at)
    && (forall i :: 0 <= i < |c.applied| ==> c.applied[i].at <= s.clock)
  }

  /** From the first signal on: the deadline is in the grace window, or past, or no longer matters. */
  ghost predicate GraceIsBounded(cfg: Config, s: Loop)
  {
    s.signal.applied != [] && s.drain.deadline.At? ==>
      || s.drain.deadline.time <= s.signal.applied[0].at + cfg.shutdownBudget
      || s.drain.deadline.time <= s.clock
      || AllIntended(s.slots)
  }

  ghost predicate Signalled(cfg: Config, seen: nat, s: Loop)
  {
    DrainIsConsistent(s) && SignalsAreCounted(seen, s) && GraceIsBounded(cfg, s) && IntentsMatchAborts(s.slots)
  }

  // --------------------------------------------------------- elementary steps

  lemma MicroIntents(cfg: Config, s: Loop, m: Micro)
    ensures IntentsMatchAborts(s.slots) ==> IntentsMatchAborts(Exec(cfg, s, m).slots)
    ensures AllIntended(s.slots) ==> AllIntended(Exec(cfg, s, m).slots)
  {
    if s.phase.Going? && m.ReapSlot? && m.i < |s.slots| { ReapSlots(cfg, s, m.i, m.finish); }
  }

  lemma ReapSlots(cfg: Config, s: Loop, i: nat, finish: Finish)
    requires i < |s.slots|
    ensures ReapAt(cfg, s, i, finish).slots == WithoutSlot(s.slots, i)
  {
  }

  lemma {:induction false} TraceIntents(cfg: Config, s: Loop, trace: seq<Micro>)
    ensures IntentsMatchAborts(s.slots) ==> IntentsMatchAborts(ExecAll(cfg, s, trace).slots)
    ensures AllIntended(s.slots) ==> AllIntended(ExecAll(cfg, s, trace).slots)
    decreases |trace|
  {
    if trace != [] {
      MicroIntents(cfg, s, trace[0]);
      TraceIntents(cfg, Exec(cfg, s, trace[0]), trace[1..]);
    }
  }

  lemma TraceSignalled(cfg: Config, seen: nat, s: Loop, trace: seq<Micro>)
    requires Signalled(cfg, seen, s)
    ensures Signalled(cfg, seen, ExecAll(cfg, s, trace))
  {
    TraceFrame(cfg, s, trace);
    TraceIntents(cfg, s, trace);
  }

  lemma ReapIntends(cfg: Config, s: Loop, finished: map<nat, Finish>)
    requires AllIntended(s.slots)
    ensures AllIntended(Reap(cfg, s, finished).slots)
  {
    var trace := ReapIsTrace(cfg, s, 0, finished);
    TraceIntents(cfg, s, trace);
  }

  /** At or past the deadline, a drain step leaves no slot without an intent. */
  lemma DeadlineIntendsAll(cfg: Config, s: Loop, step: DrainIn)
    requires s.slots == [] || Reached(s.drain.deadline, s.clock + step.dt)
    ensures AllIntended(DrainStep(cfg, s, step).slots) && AllIntended(DrainSweep(cfg, s, step).slots)
  {
    var now := Tick(s, step.dt);
    ReapIntends(cfg, KillWhere(cfg, now, Everything, DrainIntent(now)), step.reaped);
  }

  lemma DrainSignalled(cfg: Config, seen: nat, s: Loop, step: DrainIn)
    requires Signalled(cfg, seen, s) && s.phase.Going? && s.drain.stop.Some?
    ensures Signalled(cfg, seen, DrainStep(cfg, s, step))
  {
    var trace := DrainIsTrace(cfg, s, step);
    TraceSignalled(cfg, seen, s, trace);
    TraceFrame(cfg, s, trace);
    var swept := DrainSweep(cfg, s, step);
    if DrainStep(cfg, s, step) != swept { DeadlineIntendsAll(cfg, s, step); }
  }

  lemma WaitSignalled(cfg: Config, seen: nat, s: Loop, step: WaitIn)
    requires Signalled(cfg, seen, s)
    ensures Signalled(cfg, seen, Wait(cfg, s, step))
  {
    var now := Tick(s, step.dt).(signal := Deliver(s.signal, step.sends, step.closes));
    assert Signalled(cfg, seen, now);
    if !now.signal.sourceGone && step.channelFirst && now.signal.sends > now.signal.mainSeen {
      ApplySignalled(cfg, seen, now);
    }
  }

  lemma ApplySignalled(cfg: Config, seen: nat, s: Loop)
    requires Signalled(cfg, seen, s) && s.signal.sends > s.signal.mainSeen
    ensures Signalled(cfg, seen, ApplySignal(cfg, s))
  {
    var t := ApplySignal(cfg, s);
    if s.signal.applied != [] { assert t.signal.applied[0] == s.signal.applied[0]; }
    else { assert t.signal.applied == [Applied(s.clock, false)]; }
  }

  lemma SpawnSignalled(cfg: Config, seen: nat, s: Loop, plan: PlanIn)
    requires Signalled(cfg, seen, s) && s.phase.Going? && s.drain.stop.None?
    ensures Signalled(cfg, seen, PlanAndSpawn(cfg, s, plan))
  {
    var t := PlanAndSpawn(cfg, s, plan);
    PlanSlots(cfg, s, plan);
  }

  /** Planning touches no stop or signal, and adds at most one untouched slot. */
  lemma PlanSlots(cfg: Config, s: Loop, plan: PlanIn)
    requires s.phase.Going?
    ensures var t := PlanAndSpawn(cfg, s, plan);
            && t.drain == s.drain && t.signal == s.signal && s.clock <= t.clock
            && (t.slots == s.slots
                || (&& t.phase.Going? && t.slots != []
                    && var task := t.slots[|t.slots| - 1].task;
                       t.slots == s.slots + [Slot(|s.store.rows|, task, s.clock, s.clock, None, false)]))
  {
    var gated := Gated(cfg, s, plan.snapshot);
    var now := NowSecs(cfg, s.clock);
    if Proceeds(cfg, s, now, plan.snapshot) {
      var excluded := Excluded(cfg, s, now);
      var snapshot := plan.snapshot.(ready := Retain(plan.snapshot.ready, excluded));
      var decision := Selection.CampaignDecision(snapshot, plan.consulted);
      var recorded := gated.(decisions := gated.decisions + [decision],
                             events := DrainEvents(Arrive(gated.events, plan.arrivals), Peeked(cfg, s)));
      if decision.Selected? { SpawnEffect(cfg, recorded, decision, plan.start); }
    }
  }

  lemma PassSignalled(cfg: Config, seen: nat, s: Loop, top: nat, pass: PassIn)
    requires Signalled(cfg, seen, s) && s.phase.Going? && s.drain.stop.None?
    ensures Signalled(cfg, seen, Pass(cfg, s, top, pass))
  {
    if !PassGated(cfg, s, top) {
      var begun := Tick(BeginPass(cfg, s, top), pass.dtBudget);
      var polled := Tick(begun, pass.dt)
                    .(signal := Deliver(s.signal, pass.sends, pass.closes), events := Arrive(s.events, pass.arrivals));
      assert Signalled(cfg, seen, polled);
      AfterPollSignalled(cfg, seen, polled, pass);
    }
  }

  /** The poll succeeded and neither the run budget nor a signal overtook it. */
  predicate PollPlans(cfg: Config, s: Loop, pass: PassIn)
  {
    && pass.result.PollOk? && s.clock < cfg.runBudget
    && (s.signal.closed || s.signal.sends <= s.signal.cloneSeen)
  }

  lemma AfterPollSignalled(cfg: Config, seen: nat, s: Loop, pass: PassIn)
    requires Signalled(cfg, seen, s) && s.phase.Going? && s.drain.stop.None?
    ensures Signalled(cfg, seen, AfterPoll(cfg, s, pass))
  {
    var later := Tick(s, pass.dtAfter);
    if PollPlans(cfg, s, pass) {
      assert AfterPoll(cfg, s, pass) == PlanAndSpawn(cfg, later, pass.result.plan);
      SpawnSignalled(cfg, seen, later, pass.result.plan);
    }
  }

  lemma GuardsSignalled(cfg: Config, seen: nat, s: Loop, top: nat, step: Iter)
    requires Signalled(cfg, seen, s) && s.phase.Going?
    ensures Signalled(cfg, seen, Guards(cfg, s, top, step))
  {
    if s.drain.stop.Some? { DrainSignalled(cfg, seen, s, step.drain); }
    else { PassSignalled(cfg, seen, s, top, step.pass); }
  }

  lemma IterateSignalled(cfg: Config, seen: nat, s: Loop, step: Iter)
    requires Signalled(cfg, seen, s)
    ensures Signalled(cfg, seen, Iterate(cfg, s, step))
  {
    if s.phase.Going? {
      var top := Tick(s, step.dtTop);
      var trace := SuperviseIsTrace(cfg, top, step.supervise);
      TraceSignalled(cfg, seen, top, trace);
      var supervised := Supervise(cfg, top, step.supervise);
      if supervised.phase.Going? {
        GuardsSignalled(cfg, seen, supervised, top.clock, step);
        var guarded := Guards(cfg, supervised, top.clock, step);
        if guarded.phase.Going? { WaitSignalled(cfg, seen, guarded, step.wait); }
      }
    }
  }

  lemma {:induction false} RunSignalled(cfg: Config, base: Loop, script: seq<Iter>)
    requires IsStart(base)
    ensures Signalled(cfg, base.signal.mainSeen, Run(cfg, base, script))
  {
    if script != [] {
      RunSignalled(cfg, base, script[..|script| - 1]);
      IterateSignalled(cfg, base.signal.mainSeen, Run(cfg, base, script[..|script| - 1]), script[|script| - 1]);
    }
  }

  // -------------------------------------------------------------- the theorems

  /** What the counted channel says about one state. */
  ghost predicate SignalsAreBounded(seen: nat, s: Loop)
  {
    && seen + |s.signal.applied| <= s.signal.sends
    && (forall i :: 0 <= i < |s.signal.applied| && s.signal.applied[i].shortCircuit ==> s.signal.sends >= seen + 2)
    && (s.signal.applied != [] ==> s.drain.stop.Some? && DrainIntent(s) == Drain(Shutdown))
    && (s.drain.stop == Some(Shutdown) ==> s.signal.applied != [])
  }

  lemma CountedIsBounded(cfg: Config, seen: nat, s: Loop)
    requires Signalled(cfg, seen, s)
    ensures SignalsAreBounded(seen, s)
  {
    forall i | 0 <= i < |s.signal.applied| && s.signal.applied[i].shortCircuit ensures |s.signal.applied| >= 2 {
      assert i != 0;
    }
  }

  /**
  Over every run: applied signals never outnumber sends, a short-circuit needs
  a second send, an applied signal means the loop is stopping for good, and
  every kill after it is recorded as a shutdown abort.
   */
  lemma SignalsNeverOutnumberSends(cfg: Config, base: Loop, script: seq<Iter>)
    requires IsStart(base)
    ensures SignalsAreBounded(base.signal.mainSeen, Run(cfg, base, script))
  {
    RunSignalled(cfg, base, script);
    CountedIsBounded(cfg, base.signal.mainSeen, Run(cfg, base, script));
  }

  /**
  Once the clock is past the first signal plus the shutdown budget, the next
  drain step leaves no slot without an intent, whatever other signals arrived.
   */
  lemma GraceEnds(cfg: Config, base: Loop, script: seq<Iter>, supervised: Loop, trace: seq<Micro>, step: DrainIn)
    requires IsStart(base)
    requires supervised == ExecAll(cfg, Run(cfg, base, script), trace)
    requires supervised.signal.applied != []
    requires supervised.clock + step.dt >= supervised.signal.applied[0].at + cfg.shutdownBudget
    ensures AllIntended(DrainStep(cfg, supervised, step).slots)
  {
    RunSignalled(cfg, base, script);
    TraceSignalled(cfg, base.signal.mainSeen, Run(cfg, base, script), trace);
    if Reached(supervised.drain.deadline, supervised.clock + step.dt) { DeadlineIntendsAll(cfg, supervised, step); }
  }

  /** The stop stands, and nothing was started or decided. */
  ghost predicate StopStands(s: Loop, t: Loop)
  {
    && t.drain.stop == s.drain.stop && |t.store.rows| == |s.store.rows|
    && t.decisions == s.decisions && |t.slots| <= |s.slots|
  }

  lemma DrainStands(cfg: Config, s: Loop, top: nat, step: Iter)
    requires s.drain.stop.Some? && s.phase.Going?
    ensures StopStands(s, Guards(cfg, s, top, step))
  {
    var drained := DrainIsTrace(cfg, s, step.drain);
    TraceFrame(cfg, s, drained);
  }

  lemma WaitStands(cfg: Config, s: Loop, step: WaitIn)
    requires s.drain.stop.Some?
    ensures StopStands(s, Wait(cfg, s, step))
  {
  }

  /** A declared stop is final: it is never rewritten and no row starts after it. */
  lemma StopIsFinal(cfg: Config, s: Loop, step: Iter)
    requires s.drain.stop.Some?
    ensures StopStands(s, Iterate(cfg, s, step))
  {
    if s.phase.Going? {
      var top := Tick(s, step.dtTop);
      var trace := SuperviseIsTrace(cfg, top, step.supervise);
      TraceFrame(cfg, top, trace);
      var supervised := Supervise(cfg, top, step.supervise);
      if supervised.phase.Going? {
        DrainStands(cfg, supervised, top.clock, step);
        WaitStands(cfg, Guards(cfg, supervised, top.clock, step), step.wait);
      }
    }
  }

  lemma {:induction false} StopStaysFinal(cfg: Config, s: Loop, script: seq<Iter>)
    requires s.drain.stop.Some?
    ensures StopStands(s, Run(cfg, s, script))
  {
    if script != [] {
      StopStaysFinal(cfg, s, script[..|script| - 1]);
      StopIsFinal(cfg, Run(cfg, s, script[..|script| - 1]), script[|script| - 1]);
    }
  }
}

/**
Pacing over whole runs: when a poll may start, how far apart polls are, and
what the pass counters count.
 */
module LoopPacing {
  import opened Wrappers
  import opened RunState
  import opened Selection
  import opened LoopModel
  import opened LoopTrace
  import opened LoopBookkeeping

  predicate Polls(s: Loop, t: Loop) { t.counters.cycles > s.counters.cycles }

  function Interval(cfg: Config): nat { if cfg.minPollInterval.Some? then cfg.minPollInterval.value else 0 }

  /** Everything a poll that starts at reading `top` has waited for. */
  ghost predicate MayPoll(cfg: Config, s: Loop, top: nat)
  {
    && s.drain.stop.None? && |s.slots| < cfg.maxWorkers
    && s.gate.nextPass <= top && s.gate.nextPoll <= top && top < cfg.runBudget
    && s.store.DailySpend(NowSecs(cfg, top)) < cfg.spendCap
    && (cfg.maxCycles.Some? ==> s.counters.cycles < cfg.maxCycles.value)
  }

  /** The pacing fields of the gate did not move. */
  ghost predicate SamePace(s: Loop, t: Loop)
  {
    && t.gate.nextPass == s.gate.nextPass && t.gate.nextPoll == s.gate.nextPoll
    && t.gate.backoffIndex == s.gate.backoffIndex
  }

  /** A pass that spawned nothing waits for the next delay of the series, counted from now. */
  ghost predicate IsBackedOff(cfg: Config, s: Loop, t: Loop)
  {
    && t.gate.nextPass == t.clock + BackoffDelay(cfg, s.gate.backoffIndex)
    && t.gate.backoffIndex == s.gate.backoffIndex + 1
  }

  /**
  The delays of fruitless passes: the base first, each next one twice the one
  before, and never more than the maximum; the 32nd is the last that grows.
   */
  lemma DelaysDouble(cfg: Config, index: nat)
    ensures BackoffDelay(cfg, 0) == Min(cfg.retryBase, cfg.retryMax)
    ensures index < 31 ==> BackoffDelay(cfg, index + 1) == Min(2 * BackoffDelay(cfg, index), cfg.retryMax)
    ensures index >= 31 ==> BackoffDelay(cfg, index) == BackoffDelay(cfg, 31)
    ensures BackoffDelay(cfg, index) <= cfg.retryMax
  {
    if index < 31 {
      assert cfg.retryBase * Pow2(index + 1) == 2 * (cfg.retryBase * Pow2(index)) by {
        assert Pow2(index + 1) == 2 * Pow2(index);
      }
    }
  }

  /** A spawn resets the series and adds one counted slot for the new row. */
  ghost predicate IsSpawned(s: Loop, t: Loop)
  {
    && t.gate.backoffIndex == 0 && t.gate.nextPass <= t.clock
    && t.counters.spawns == s.counters.spawns + 1
    && |t.slots| == |s.slots| + 1 && t.slots[|s.slots|].run == |s.store.rows|
    && |t.store.rows| == |s.store.rows| + 1 && t.store.rows[|s.store.rows|].status.Running?
  }

  /** How a pass that polled ends: a stop, a fatal starter, a spawn, or a backoff. */
  ghost predicate IsPassEnd(cfg: Config, s: Loop, t: Loop)
  {
    || (t.drain.stop.Some? && t.counters.spawns == s.counters.spawns && t.slots == s.slots)
    || (t.phase.Fatal? && t.counters.spawns == s.counters.spawns && t.slots == s.slots)
    || IsSpawned(s, t)
    || (IsBackedOff(cfg, s, t) && t.counters.spawns == s.counters.spawns && t.slots == s.slots)
  }

  lemma SpawnEnds(cfg: Config, s: Loop, decision: Decision, start: StartIn)
    requires decision.Selected? && s.decisions != [] && s.phase.Going?
    ensures IsPassEnd(cfg, s, Spawn(cfg, s, decision, start))
    ensures Spawn(cfg, s, decision, start).gate.nextPoll == s.gate.nextPoll
    ensures Spawn(cfg, s, decision, start).counters.cycles == s.counters.cycles
  {
    SpawnEffect(cfg, s, decision, start);
    if start.SpawnFailed? {
      var started := s.(store := s.store.Start(Request(cfg, s, decision)));
      SettleFrame(cfg, started, |s.store.rows|, decision.task, Failed, SpawnMessage, false, 0, NowSecs(cfg, s.clock));
    }
  }

  lemma PlannedEnds(cfg: Config, s: Loop, excluded: set<string>, peeked: set<nat>, plan: PlanIn)
    requires s.phase.Going?
    ensures var t := Plan(cfg, s, excluded, peeked, plan);
            IsPassEnd(cfg, s, t) && t.gate.nextPoll == s.gate.nextPoll && t.counters.cycles == s.counters.cycles
  {
    var snapshot := plan.snapshot.(ready := Retain(plan.snapshot.ready, excluded));
    var decision := CampaignDecision(snapshot, plan.consulted);
    var recorded := s.(decisions := s.decisions + [decision],
                       events := DrainEvents(Arrive(s.events, plan.arrivals), peeked));
    if decision.Selected? {
      SpawnEnds(cfg, recorded, decision, plan.start);
    } else {
      assert IsBackedOff(cfg, s, Pace(cfg, recorded));
    }
  }

  /** The end of a pass is judged by clock, pace, spawns, slots and rows only. */
  lemma EndCarries(cfg: Config, s: Loop, u: Loop, t: Loop)
    requires IsPassEnd(cfg, u, t) && u.gate.backoffIndex == s.gate.backoffIndex
    requires u.counters.spawns == s.counters.spawns && u.slots == s.slots && u.store == s.store
    ensures IsPassEnd(cfg, s, t)
  {
  }

  lemma PlanEnds(cfg: Config, s: Loop, plan: PlanIn)
    requires s.phase.Going?
    ensures var t := PlanAndSpawn(cfg, s, plan);
            IsPassEnd(cfg, s, t) && t.gate.nextPoll == s.gate.nextPoll && t.counters.cycles == s.counters.cycles
  {
    var now, t, gated := NowSecs(cfg, s.clock), PlanAndSpawn(cfg, s, plan), Gated(cfg, s, plan.snapshot);
    if Proceeds(cfg, s, now, plan.snapshot) {
      assert t == Plan(cfg, gated, Excluded(cfg, s, now), Peeked(cfg, s), plan);
      PlannedEnds(cfg, gated, Excluded(cfg, s, now), Peeked(cfg, s), plan);
      EndCarries(cfg, s, gated, t);
    } else {
      assert t == RecordKickoffSkip(cfg, gated);
      assert IsBackedOff(cfg, s, t);
    }
  }

  /** A pass either does nothing, or counts one poll, arms the cadence and ends in one of the four ways. */
  lemma PassPaces(cfg: Config, s: Loop, top: nat, pass: PassIn)
    requires s.phase.Going?
    ensures var t := Pass(cfg, s, top, pass);
            if PassGated(cfg, s, top) then t == s
            else
              && t.counters.cycles == s.counters.cycles + 1
              && t.gate.nextPoll == Max(s.gate.nextPoll, top) + Interval(cfg)
              && IsPassEnd(cfg, s, t)
  {
    if !PassGated(cfg, s, top) {
      var begun := Tick(BeginPass(cfg, s, top), pass.dtBudget);
      var polled := Tick(begun, pass.dt)
                    .(signal := Deliver(s.signal, pass.sends, pass.closes), events := Arrive(s.events, pass.arrivals));
      var t := Pass(cfg, s, top, pass);
      if (pass.signalFirst && polled.signal.sends > polled.signal.cloneSeen)
         || (pass.budgetFirst && begun.clock <= cfg.runBudget <= polled.clock) {
        assert t.drain.stop.Some?;
      } else {
        assert t == AfterPoll(cfg, polled, pass);
        AfterPollEnds(cfg, polled, pass);
      }
    }
  }

  lemma AfterPollEnds(cfg: Config, s: Loop, pass: PassIn)
    requires s.phase.Going?
    ensures IsPassEnd(cfg, s, AfterPoll(cfg, s, pass))
    ensures AfterPoll(cfg, s, pass).gate.nextPoll == s.gate.nextPoll
    ensures AfterPoll(cfg, s, pass).counters.cycles == s.counters.cycles
  {
    var later, t := Tick(s, pass.dtAfter), AfterPoll(cfg, s, pass);
    if pass.result.PollError? {
      assert IsBackedOff(cfg, s, t);
    } else if s.clock >= cfg.runBudget || (!s.signal.closed && s.signal.sends > s.signal.cloneSeen) {
      assert t.drain.stop.Some?;
    } else {
      assert t == PlanAndSpawn(cfg, later, pass.result.plan);
      PlanEnds(cfg, later, pass.result.plan);
    }
  }

  /** A poll counts once, respects both deadlines and arms the cadence; without one no pacing field moves. */
  ghost predicate IsPaced(cfg: Config, s: Loop, t: Loop, top: nat)
  {
    if Polls(s, t)
    then && t.counters.cycles == s.counters.cycles + 1 && t.gate.nextPoll == Max(s.gate.nextPoll, top) + Interval(cfg)
         && s.gate.nextPass <= top && s.gate.nextPoll <= top
         && (cfg.maxCycles.Some? ==> s.counters.cycles < cfg.maxCycles.value)
    else SamePace(s, t) && t.counters.spawns == s.counters.spawns && t.counters.cycles == s.counters.cycles
  }

  /** The guard table starts a poll exactly when every gate, budget and cap allows it. */
  lemma GuardsPace(cfg: Config, s: Loop, top: nat, step: Iter)
    requires s.phase.Going?
    ensures var t := Guards(cfg, s, top, step);
            && IsPaced(cfg, s, t, top)
            && (Polls(s, t) <==> MayPoll(cfg, s, top))
            && (Polls(s, t) ==> IsPassEnd(cfg, s, t))
  {
    if s.drain.stop.Some? {
      var trace := DrainIsTrace(cfg, s, step.drain);
      TracePace(cfg, s, trace);
    } else if top >= cfg.runBudget || s.store.DailySpend(NowSecs(cfg, top)) >= cfg.spendCap
              || (cfg.maxCycles.Some? && s.counters.cycles >= cfg.maxCycles.value) {
    } else {
      assert Guards(cfg, s, top, step) == Pass(cfg, s, top, step.pass);
      PassPaces(cfg, s, top, step.pass);
    }
  }

  /** A poll that ends without a stop, a fatal starter or a spawn is followed by the next delay of the series. */
  lemma FruitlessPollBacksOff(cfg: Config, s: Loop, top: nat, step: Iter)
    requires s.phase.Going? && Polls(s, Guards(cfg, s, top, step))
    requires Guards(cfg, s, top, step).phase.Going? && Guards(cfg, s, top, step).drain.stop.None?
    requires Guards(cfg, s, top, step).counters.spawns == s.counters.spawns
    ensures IsBackedOff(cfg, s, Guards(cfg, s, top, step))
  {
    GuardsPace(cfg, s, top, step);
  }

  lemma MicroSpawns(cfg: Config, s: Loop, m: Micro)
    ensures Exec(cfg, s, m).counters.spawns == s.counters.spawns
  {
    if s.phase.Going? && m.ReapSlot? && m.i < |s.slots| && s.store.IsRunning(s.slots[m.i].run) {
      ReapEffect(cfg, s, m.i, m.finish);
    }
  }

  lemma {:induction false} TraceSpawns(cfg: Config, s: Loop, trace: seq<Micro>)
    ensures ExecAll(cfg, s, trace).counters.spawns == s.counters.spawns
    decreases |trace|
  {
    if trace != [] {
      MicroSpawns(cfg, s, trace[0]);
      TraceSpawns(cfg, Exec(cfg, s, trace[0]), trace[1..]);
    }
  }

  /** Elementary steps move no pacing field and count no poll and no spawn. */
  lemma TracePace(cfg: Config, s: Loop, trace: seq<Micro>)
    ensures var t := ExecAll(cfg, s, trace);
            SamePace(s, t) && t.counters.cycles == s.counters.cycles && t.counters.spawns == s.counters.spawns
  {
    TraceFrame(cfg, s, trace);
    TraceSpawns(cfg, s, trace);
  }

  lemma PaceCarries(cfg: Config, s: Loop, u: Loop, g: Loop, t: Loop, top: nat)
    requires SamePace(s, u) && u.counters.cycles == s.counters.cycles && u.counters.spawns == s.counters.spawns
    requires IsPaced(cfg, u, g, top) && t.gate == g.gate && t.counters == g.counters
    ensures IsPaced(cfg, s, t, top)
  {
  }

  /** One iteration is paced from its reading of the clock at the top. */
  lemma IteratePaces(cfg: Config, s: Loop, step: Iter)
    ensures IsPaced(cfg, s, Iterate(cfg, s, step), s.clock + step.dtTop)
  {
    if s.phase.Going? {
      var top, t := Tick(s, step.dtTop), Iterate(cfg, s, step);
      var trace := SuperviseIsTrace(cfg, top, step.supervise);
      TracePace(cfg, top, trace);
      var supervised := Supervise(cfg, top, step.supervise);
      if supervised.phase.Going? {
        GuardsPace(cfg, supervised, top.clock, step);
        var guarded := Guards(cfg, supervised, top.clock, step);
        assert t == guarded || t == Wait(cfg, guarded, step.wait);
        PaceCarries(cfg, s, supervised, guarded, t, top.clock);
      } else {
        assert t == supervised;
      }
    }
  }

  lemma {:induction false} RunOnlyArms(cfg: Config, s: Loop, script: seq<Iter>)
    ensures var t := Run(cfg, s, script);
            && s.gate.nextPoll <= t.gate.nextPoll && s.counters.cycles <= t.counters.cycles
            && (t.counters.cycles == s.counters.cycles ==> SamePace(s, t) && t.counters.spawns == s.counters.spawns)
  {
    if script != [] {
      RunOnlyArms(cfg, s, script[..|script| - 1]);
      IteratePaces(cfg, Run(cfg, s, script[..|script| - 1]), script[|script| - 1]);
    }
  }

  /**
  Over every run two polls start at least the configured interval apart, and a
  poll starts no earlier than the deadline the previous one set.
   */
  lemma PollsAreSpaced(cfg: Config, s: Loop, first: Iter, between: seq<Iter>, second: Iter)
    requires Polls(s, Iterate(cfg, s, first))
    requires var u := Run(cfg, Iterate(cfg, s, first), between); Polls(u, Iterate(cfg, u, second))
    ensures var t := Iterate(cfg, s, first);
            var u := Run(cfg, t, between);
            && s.clock + first.dtTop + Interval(cfg) <= u.clock + second.dtTop
            && (u.counters.cycles == t.counters.cycles ==> t.gate.nextPass <= u.clock + second.dtTop)
  {
    var t := Iterate(cfg, s, first);
    IteratePaces(cfg, s, first);
    RunOnlyArms(cfg, t, between);
    IteratePaces(cfg, Run(cfg, t, between), second);
  }

  /** Over every run the number of polls never exceeds the cycle bound. */
  lemma {:induction false} CyclesAreBounded(cfg: Config, base: Loop, script: seq<Iter>)
    requires IsStart(base) && cfg.maxCycles.Some?
    ensures Run(cfg, base, script).counters.cycles <= cfg.maxCycles.value
  {
    if script != [] {
      var s, step := Run(cfg, base, script[..|script| - 1]), script[|script| - 1];
      CyclesAreBounded(cfg, base, script[..|script| - 1]);
      IteratePaces(cfg, s, step);
    }
  }
}

/**
Who decides a run's recorded end: natural results win, kill intents are
written once and before the abort, and what is recorded stays recorded.
 */
module LoopArbitration {
  import opened Wrappers
  import opened RunState
  import opened Selection
  import opened LoopModel
  import opened LoopTrace
  import opened LoopBookkeeping
  import opened LoopSignals

  // --------------------------------------------------- how a loop's past evolves

  /** A slot keeps its identity; once it has an intent it keeps that too. */
  predicate MayContinue(before: Slot, after: Slot)
  {
    && after.run == before.run && after.task == before.task && after.started == before.started
    && (before.intent.Some? ==> after.intent == before.intent)
    && (before.aborted ==> after.aborted)
  }

  ghost predicate Continues(slots: seq<Slot>, slot: Slot)
  {
    exists i :: 0 <= i < |slots| && MayContinue(slots[i], slot)
  }

  /** Rows only terminate, and every slot is a continued one or belongs to a newer row. */
  ghost predicate Evolves(s: Loop, t: Loop)
  {
    && Extends(s.store, t.store)
    && forall j :: 0 <= j < |t.slots| ==> Continues(s.slots, t.slots[j]) || t.slots[j].run >= |s.store.rows|
  }

  lemma ContinuesTrans(a: seq<Slot>, b: seq<Slot>, slot: Slot)
    requires Continues(b, slot)
    requires forall k :: 0 <= k < |b| && b[k].run == slot.run ==> Continues(a, b[k])
    ensures Continues(a, slot)
  {
    var k :| 0 <= k < |b| && MayContinue(b[k], slot);
    var i :| 0 <= i < |a| && MayContinue(a[i], b[k]);
    assert MayContinue(a[i], slot);
  }

  lemma EvolvesTrans(s: Loop, t: Loop, u: Loop)
    requires Evolves(s, t) && Evolves(t, u)
    ensures Evolves(s, u)
  {
    forall i | 0 <= i < |s.store.rows| ensures MayBecome(s.store.rows[i], u.store.rows[i]) {
      assert MayBecome(s.store.rows[i], t.store.rows[i]) && MayBecome(t.store.rows[i], u.store.rows[i]);
    }
    forall j | 0 <= j < |u.slots| && u.slots[j].run < |s.store.rows| ensures Continues(s.slots, u.slots[j]) {
      ContinuesTrans(s.slots, t.slots, u.slots[j]);
    }
  }

  /** Same rows, and slot by slot the same runs with at most new intents. */
  lemma StillEvolves(s: Loop, t: Loop)
    requires Extends(s.store, t.store) && |t.slots| == |s.slots|
    requires forall k :: 0 <= k < |s.slots| ==> MayContinue(s.slots[k], t.slots[k])
    ensures Evolves(s, t)
  {
    forall j | 0 <= j < |t.slots| ensures Continues(s.slots, t.slots[j]) {
      assert MayContinue(s.slots[j], t.slots[j]);
    }
  }

  lemma ReapExtends(cfg: Config, s: Loop, i: nat, finish: Finish)
    requires s.phase.Going? && i < |s.slots|
    ensures Extends(s.store, ReapAt(cfg, s, i, finish).store)
  {
    if s.store.IsRunning(s.slots[i].run) { ReapEffect(cfg, s, i, finish); }
  }

  lemma ReapEvolves(cfg: Config, s: Loop, i: nat, finish: Finish)
    requires s.phase.Going? && i < |s.slots|
    ensures Evolves(s, ReapAt(cfg, s, i, finish))
  {
    ReapExtends(cfg, s, i, finish);
    ReapSlots(cfg, s, i, finish);
    var t := ReapAt(cfg, s, i, finish);
    forall j | 0 <= j < |t.slots| ensures Continues(s.slots, t.slots[j]) {
      assert MayContinue(s.slots[if j < i then j else j + 1], t.slots[j]);
    }
  }

  lemma MicroEvolves(cfg: Config, s: Loop, m: Micro)
    ensures Evolves(s, Exec(cfg, s, m))
  {
    if s.phase.Going? && m.ReapSlot? && m.i < |s.slots| && CanReturn(s.slots[m.i], m.finish) {
      ReapEvolves(cfg, s, m.i, m.finish);
    } else {
      StillEvolves(s, Exec(cfg, s, m));
    }
  }

  lemma {:induction false} TraceEvolves(cfg: Config, s: Loop, trace: seq<Micro>)
    ensures Evolves(s, ExecAll(cfg, s, trace))
    decreases |trace|
  {
    if trace == [] {
      StillEvolves(s, s);
    } else {
      MicroEvolves(cfg, s, trace[0]);
      TraceEvolves(cfg, Exec(cfg, s, trace[0]), trace[1..]);
      EvolvesTrans(s, Exec(cfg, s, trace[0]), ExecAll(cfg, s, trace));
    }
  }

  lemma PlanExtends(cfg: Config, s: Loop, plan: PlanIn)
    requires s.phase.Going?
    ensures Extends(s.store, PlanAndSpawn(cfg, s, plan).store)
  {
    PlanRows(cfg, s, plan);
    var before, after := s.store.rows, PlanAndSpawn(cfg, s, plan).store.rows;
    forall i | 0 <= i < |before| ensures MayBecome(before[i], after[i]) {
      assert after[i] == before[i] by { if after != before { assert after[..|before|][i] == before[i]; } }
    }
  }

  lemma PlanEvolves(cfg: Config, s: Loop, plan: PlanIn)
    requires s.phase.Going?
    ensures Evolves(s, PlanAndSpawn(cfg, s, plan))
  {
    PlanExtends(cfg, s, plan);
    PlanSlots(cfg, s, plan);
    var t := PlanAndSpawn(cfg, s, plan);
    forall j | 0 <= j < |t.slots| ensures Continues(s.slots, t.slots[j]) || t.slots[j].run >= |s.store.rows| {
      if j < |s.slots| { assert MayContinue(s.slots[j], t.slots[j]); }
    }
  }

  lemma PassEvolves(cfg: Config, s: Loop, top: nat, pass: PassIn)
    requires s.phase.Going?
    ensures Evolves(s, Pass(cfg, s, top, pass))
  {
    var t := Pass(cfg, s, top, pass);
    if t.store == s.store && t.slots == s.slots {
      StillEvolves(s, t);
    } else {
      PassPlans(cfg, s, top, pass);
    }
  }

  /** A pass that changed rows or slots reached planning. */
  lemma PassPlans(cfg: Config, s: Loop, top: nat, pass: PassIn)
    requires s.phase.Going? && (Pass(cfg, s, top, pass).store != s.store || Pass(cfg, s, top, pass).slots != s.slots)
    ensures Evolves(s, Pass(cfg, s, top, pass))
  {
    var begun := Tick(BeginPass(cfg, s, top), pass.dtBudget);
    var polled := Tick(begun, pass.dt)
                  .(signal := Deliver(s.signal, pass.sends, pass.closes), events := Arrive(s.events, pass.arrivals));
    var later := Tick(polled, pass.dtAfter);
    assert pass.result.PollOk?;
    assert Pass(cfg, s, top, pass) == PlanAndSpawn(cfg, later, pass.result.plan);
    PlanEvolves(cfg, later, pass.result.plan);
    StillEvolves(s, later);
    EvolvesTrans(s, later, Pass(cfg, s, top, pass));
  }

  lemma GuardsEvolve(cfg: Config, s: Loop, top: nat, step: Iter)
    requires s.phase.Going?
    ensures Evolves(s, Guards(cfg, s, top, step))
  {
    var t := Guards(cfg, s, top, step);
    if s.drain.stop.Some? {
      var trace := DrainIsTrace(cfg, s, step.drain);
      TraceEvolves(cfg, s, trace);
      assert t.store == ExecAll(cfg, s, trace).store && t.slots == ExecAll(cfg, s, trace).slots;
    } else if t.store == s.store && t.slots == s.slots {
      StillEvolves(s, t);
    } else {
      assert t == Pass(cfg, s, top, step.pass);
      PassEvolves(cfg, s, top, step.pass);
    }
  }

  lemma IterateEvolves(cfg: Config, s: Loop, step: Iter)
    ensures Evolves(s, Iterate(cfg, s, step))
  {
    if s.phase.Going? {
      var top := Tick(s, step.dtTop);
      var trace := SuperviseIsTrace(cfg, top, step.supervise);
      TraceEvolves(cfg, top, trace);
      var supervised := Supervise(cfg, top, step.supervise);
      assert Evolves(s, supervised);
      if supervised.phase.Going? {
        GuardsEvolve(cfg, supervised, top.clock, step);
        var guarded := Guards(cfg, supervised, top.clock, step);
        EvolvesTrans(s, supervised, guarded);
        var t := Iterate(cfg, s, step);
        assert t.store == guarded.store && t.slots == guarded.slots;
      }
    } else {
      StillEvolves(s, s);
    }
  }

  /**
  From any state of a run on: terminal rows never change, no row disappears,
  a slot's kill intent is never rewritten, and no finished run gets a slot again.
   */
  lemma {:induction false} RunEvolves(cfg: Config, s: Loop, script: seq<Iter>)
    ensures Evolves(s, Run(cfg, s, script))
  {
    if script == [] {
      StillEvolves(s, s);
    } else {
      var earlier := Run(cfg, s, script[..|script| - 1]);
      RunEvolves(cfg, s, script[..|script| - 1]);
      IterateEvolves(cfg, earlier, script[|script| - 1]);
      EvolvesTrans(s, earlier, Run(cfg, s, script));
    }
  }

  // ------------------------------------------------------ what a record may say

  ghost predicate IsWorkerFailure(detail: Detail)
  {
    detail.TypedFailure? || detail.LoopUnusable? || detail.WorkerPanicked? || detail.SpawnMessage?
  }

  /** Status and detail agree; an abort names its stop reason and none lacks an intent. */
  ghost predicate Honest(row: Row)
  {
    match row.status
    case Running => row.detail == NoDetail
    case Completed => row.detail == NaturalCompletion
    case Failed => IsWorkerFailure(row.detail)
    case Stalled => row.detail == StallTimeout
    case TimedOut => row.detail == WorkerTimeoutKill
    case AbortedShutdown => row.detail.DrainAbort?
    case Stuck => IsWorkerFailure(row.detail) || row.detail == StallTimeout || row.detail == WorkerTimeoutKill
    case Orphaned => false
    case Paused => false
  }

  ghost predicate Attributed(b: nat, s: Loop)
  {
    && (forall i: nat :: OwnRow(b, s, i) ==> Honest(s.store.rows[i]))
    && (forall k :: 0 <= k < |s.slots| ==> s.slots[k].intent != Some(Drained))
    && IntentsMatchAborts(s.slots)
  }

  lemma ReapAttributed(cfg: Config, b: nat, s: Loop, i: nat, finish: Finish)
    requires Attributed(b, s) && s.phase.Going? && i < |s.slots| && CanReturn(s.slots[i], finish)
    ensures Attributed(b, ReapAt(cfg, s, i, finish))
  {
    ReapSlots(cfg, s, i, finish);
    var t := ReapAt(cfg, s, i, finish);
    forall k | 0 <= k < |t.slots| ensures t.slots[k].intent != Some(Drained) {
      assert t.slots[k] == s.slots[if k < i then k else k + 1];
    }
    MicroIntents(cfg, s, ReapSlot(i, finish));
    if s.store.IsRunning(s.slots[i].run) {
      ReapEffect(cfg, s, i, finish);
      ReapedIsHonest(cfg, s, i, finish);
    }
  }

  /** A cancellation needs an abort, and an abort needs an intent. */
  lemma ReapedIsHonest(cfg: Config, s: Loop, i: nat, finish: Finish)
    requires i < |s.slots| && s.store.IsRunning(s.slots[i].run)
    requires CanReturn(s.slots[i], finish) && (s.slots[i].aborted <==> s.slots[i].intent.Some?)
    requires s.slots[i].intent != Some(Drained)
    ensures Honest(ReapedRow(cfg, s, i, finish))
  {
  }

  lemma MicroAttributed(cfg: Config, b: nat, s: Loop, m: Micro)
    requires Attributed(b, s) && (m.Kill? ==> !m.intent.Drained?)
    ensures Attributed(b, Exec(cfg, s, m))
  {
    if s.phase.Going? && m.ReapSlot? && m.i < |s.slots| && CanReturn(s.slots[m.i], m.finish) {
      ReapAttributed(cfg, b, s, m.i, m.finish);
    }
  }

  lemma {:induction false} TraceAttributed(cfg: Config, b: nat, s: Loop, trace: seq<Micro>, intents: set<Intent>)
    requires Attributed(b, s) && KillsOnly(trace, intents) && Drained !in intents
    ensures Attributed(b, ExecAll(cfg, s, trace))
    decreases |trace|
  {
    if trace != [] {
      MicroAttributed(cfg, b, s, trace[0]);
      TraceAttributed(cfg, b, Exec(cfg, s, trace[0]), trace[1..], intents);
    }
  }

  lemma SpawnedIsHonest(cfg: Config, s: Loop, decision: Decision, start: StartIn)
    requires decision.Selected? && s.decisions != []
    ensures Honest(SpawnedRow(cfg, s, decision, start))
  {
  }

  /** Planning leaves the rows alone or appends one honest row. */
  lemma PlanRows(cfg: Config, s: Loop, plan: PlanIn)
    requires s.phase.Going?
    ensures var before, after := s.store.rows, PlanAndSpawn(cfg, s, plan).store.rows;
            after == before || (|after| == |before| + 1 && after[..|before|] == before && Honest(after[|before|]))
  {
    var now := NowSecs(cfg, s.clock);
    if Proceeds(cfg, s, now, plan.snapshot) {
      var gated := Gated(cfg, s, plan.snapshot);
      var snapshot := plan.snapshot.(ready := Retain(plan.snapshot.ready, Excluded(cfg, s, now)));
      var decision := CampaignDecision(snapshot, plan.consulted);
      var recorded := gated.(decisions := gated.decisions + [decision],
                             events := DrainEvents(Arrive(gated.events, plan.arrivals), Peeked(cfg, s)));
      if decision.Selected? {
        SpawnEffect(cfg, recorded, decision, plan.start);
        SpawnedIsHonest(cfg, recorded, decision, plan.start);
      }
    }
  }

  lemma PlanAttributed(cfg: Config, b: nat, s: Loop, plan: PlanIn)
    requires Attributed(b, s) && s.phase.Going?
    ensures Attributed(b, PlanAndSpawn(cfg, s, plan))
  {
    PlanSlots(cfg, s, plan);
    PlanRows(cfg, s, plan);
    AppendAttributed(b, s, PlanAndSpawn(cfg, s, plan));
  }

  lemma AppendAttributed(b: nat, s: Loop, t: Loop)
    requires Attributed(b, s)
    requires || t.store.rows == s.store.rows
             || (|t.store.rows| == |s.store.rows| + 1 && t.store.rows[..|s.store.rows|] == s.store.rows
                 && Honest(t.store.rows[|s.store.rows|]))
    requires |s.slots| <= |t.slots| <= |s.slots| + 1 && t.slots[..|s.slots|] == s.slots
    requires |t.slots| > |s.slots| ==> t.slots[|s.slots|].intent.None? && !t.slots[|s.slots|].aborted
    ensures Attributed(b, t)
  {
    forall i: nat | OwnRow(b, t, i) ensures Honest(t.store.rows[i]) {
      if i < |s.store.rows| { assert OwnRow(b, s, i) && t.store.rows[i] == t.store.rows[..|s.store.rows|][i]; }
    }
    forall k | 0 <= k < |s.slots| ensures t.slots[k] == s.slots[k] {
      assert t.slots[k] == t.slots[..|s.slots|][k];
    }
  }

  lemma SameAttributed(b: nat, s: Loop, t: Loop)
    requires Attributed(b, s) && t.store == s.store && t.slots == s.slots
    ensures Attributed(b, t)
  {
  }

  lemma PassAttributed(cfg: Config, b: nat, s: Loop, top: nat, pass: PassIn)
    requires Attributed(b, s) && s.phase.Going?
    ensures Attributed(b, Pass(cfg, s, top, pass))
  {
    var t := Pass(cfg, s, top, pass);
    if t.store == s.store && t.slots == s.slots {
      SameAttributed(b, s, t);
    } else {
      var polled := Tick(Tick(BeginPass(cfg, s, top), pass.dtBudget), pass.dt)
                    .(signal := Deliver(s.signal, pass.sends, pass.closes), events := Arrive(s.events, pass.arrivals));
      var later := Tick(polled, pass.dtAfter);
      assert pass.result.PollOk?;
      assert t == PlanAndSpawn(cfg, later, pass.result.plan);
      PlanAttributed(cfg, b, later, pass.result.plan);
    }
  }

  lemma GuardsAttributed(cfg: Config, b: nat, s: Loop, top: nat, step: Iter)
    requires Attributed(b, s) && s.phase.Going? && DrainIsConsistent(s)
    ensures Attributed(b, Guards(cfg, s, top, step))
  {
    var t := Guards(cfg, s, top, step);
    if s.drain.stop.Some? {
      var trace := DrainIsTrace(cfg, s, step.drain);
      TraceAttributed(cfg, b, s, trace, {DrainIntent(s)});
      SameAttributed(b, ExecAll(cfg, s, trace), t);
    } else if t.store == s.store && t.slots == s.slots {
      SameAttributed(b, s, t);
    } else {
      assert t == Pass(cfg, s, top, step.pass);
      PassAttributed(cfg, b, s, top, step.pass);
    }
  }

  lemma IterateAttributed(cfg: Config, b: nat, s: Loop, step: Iter)
    requires Attributed(b, s) && DrainIsConsistent(s)
    ensures Attributed(b, Iterate(cfg, s, step))
  {
    if s.phase.Going? {
      var top := Tick(s, step.dtTop);
      var trace := SuperviseIsTrace(cfg, top, step.supervise);
      TraceAttributed(cfg, b, top, trace, {Stall, WorkerTimeout});
      TraceFrame(cfg, top, trace);
      var supervised := Supervise(cfg, top, step.supervise);
      if supervised.phase.Going? {
        GuardsAttributed(cfg, b, supervised, top.clock, step);
        SameAttributed(b, Guards(cfg, supervised, top.clock, step), Iterate(cfg, s, step));
      }
    }
  }

  /**
  Over every run, no row is ever recorded as aborted without an intent or as
  an unattributed abort, and every recorded status carries its own detail.
   */
  lemma {:induction false} RunAttributed(cfg: Config, base: Loop, script: seq<Iter>)
    requires IsStart(base)
    ensures Attributed(|base.store.rows|, Run(cfg, base, script))
  {
    if script != [] {
      RunAttributed(cfg, base, script[..|script| - 1]);
      RunSignalled(cfg, base, script[..|script| - 1]);
      IterateAttributed(cfg, |base.store.rows|, Run(cfg, base, script[..|script| - 1]), script[|script| - 1]);
    }
  }

  // ------------------------------------------------------------- liveness sweeps

  lemma {:induction false} ReapSubset(cfg: Config, s: Loop, i: nat, finished: map<nat, Finish>)
    ensures forall k :: 0 <= k < |ReapFrom(cfg, s, i, finished).slots| ==>
              ReapFrom(cfg, s, i, finished).slots[k] in s.slots
    decreases |s.slots| - i
  {
    if s.phase.Going? && i < |s.slots| {
      if IsFinished(s.slots[i], finished) {
        ReapSlots(cfg, s, i, finished[s.slots[i].run]);
        ReapSubset(cfg, ReapAt(cfg, s, i, finished[s.slots[i].run]), i, finished);
      } else {
        ReapSubset(cfg, s, i + 1, finished);
      }
    }
  }

  /** Beat within the stall timeout of `at`, and younger than the worker timeout at `at + dt`. */
  ghost predicate IsLive(cfg: Config, slot: Slot, at: nat, dt: nat)
  {
    SaturatingSub(at, slot.lastBeat) < cfg.stallTimeout && SaturatingSub(at + dt, slot.started) < cfg.workerTimeout
  }

  lemma SweepsLeaveLive(cfg: Config, s: Loop, step: SuperviseIn)
    ensures forall slot :: slot in KillSweeps(cfg, s, step).slots && slot.intent.None?
              ==> IsLive(cfg, slot, s.clock + step.dtStall, step.dtTimeout)
  {
    var first := KillWhere(cfg, Tick(s, step.dtStall), Stale, Stall);
    var second := KillSweeps(cfg, s, step);
    forall k | 0 <= k < |second.slots| && second.slots[k].intent.None?
      ensures IsLive(cfg, second.slots[k], s.clock + step.dtStall, step.dtTimeout)
    {
      assert second.slots[k] == first.slots[k] == s.slots[k];
    }
  }

  predicate IsStale(cfg: Config, slot: Slot, at: nat)
  {
    cfg.stallTimeout == 0 || slot.lastBeat + cfg.stallTimeout <= at
  }

  predicate IsOverdue(cfg: Config, slot: Slot, at: nat)
  {
    cfg.workerTimeout == 0 || slot.started + cfg.workerTimeout <= at
  }

  /** What the two sweeps make of a slot: stale first, then overdue, and nothing of a slot that has an intent. */
  function Judged(cfg: Config, slot: Slot, at: nat, later: nat): Slot
  {
    if slot.intent.Some? then slot
    else if IsStale(cfg, slot, at) then slot.(intent := Some(Stall), aborted := true)
    else if IsOverdue(cfg, slot, later) then slot.(intent := Some(WorkerTimeout), aborted := true)
    else slot
  }

  lemma SweepsKillExactly(cfg: Config, s: Loop, step: SuperviseIn)
    ensures var t := KillSweeps(cfg, s, step);
            && |t.slots| == |s.slots|
            && forall k :: 0 <= k < |s.slots| ==>
                 t.slots[k] == Judged(cfg, s.slots[k], s.clock + step.dtStall, s.clock + step.dtStall + step.dtTimeout)
  {
    var first := KillWhere(cfg, Tick(s, step.dtStall), Stale, Stall);
    var second := KillSweeps(cfg, s, step);
    forall k | 0 <= k < |s.slots|
      ensures second.slots[k]
                == Judged(cfg, s.slots[k], s.clock + step.dtStall, s.clock + step.dtStall + step.dtTimeout)
    {
      assert first.slots[k] == Killed(cfg, Stale, Stall, s.slots[k], s.clock + step.dtStall);
    }
  }

  /**
  A supervision step tells exactly the right workers to stop: of those beating
  in time none, a silent one as stalled, one past its time as timed out, and it
  never tells anyone twice.
   */
  lemma SuperviseKillsExactly(cfg: Config, s: Loop, step: SuperviseIn, slot: Slot) returns (k: nat)
    requires Supervise(cfg, s, step).phase.Going? && s.phase.Going? && slot in Supervise(cfg, s, step).slots
    ensures var beaten := BeatFrom(cfg, Tick(Reap(cfg, s, step.before), step.dtBeats), 0, step.beats);
            var at := beaten.clock + step.dtStall;
            k < |beaten.slots| && slot == Judged(cfg, beaten.slots[k], at, at + step.dtTimeout)
  {
    var beaten := BeatFrom(cfg, Tick(Reap(cfg, s, step.before), step.dtBeats), 0, step.beats);
    ReapSubset(cfg, KillSweeps(cfg, beaten, step), 0, step.after);
    assert slot in KillSweeps(cfg, beaten, step).slots by {
      var j :| 0 <= j < |Supervise(cfg, s, step).slots| && Supervise(cfg, s, step).slots[j] == slot;
    }
    k := SweptIsJudged(cfg, beaten, step, slot);
  }

  lemma SweptIsJudged(cfg: Config, s: Loop, step: SuperviseIn, slot: Slot) returns (k: nat)
    requires slot in KillSweeps(cfg, s, step).slots
    ensures k < |s.slots|
    ensures slot == Judged(cfg, s.slots[k], s.clock + step.dtStall, s.clock + step.dtStall + step.dtTimeout)
  {
    SweepsKillExactly(cfg, s, step);
    k :| 0 <= k < |KillSweeps(cfg, s, step).slots| && KillSweeps(cfg, s, step).slots[k] == slot;
  }

  /** After a supervision step every slot without an intent passed both sweeps. */
  lemma SuperviseLeavesLive(cfg: Config, s: Loop, step: SuperviseIn)
    requires Supervise(cfg, s, step).phase.Going? && s.phase.Going?
    ensures var beaten := BeatFrom(cfg, Tick(Reap(cfg, s, step.before), step.dtBeats), 0, step.beats);
            forall slot :: slot in Supervise(cfg, s, step).slots && slot.intent.None?
              ==> IsLive(cfg, slot, beaten.clock + step.dtStall, step.dtTimeout)
  {
    var beaten := BeatFrom(cfg, Tick(Reap(cfg, s, step.before), step.dtBeats), 0, step.beats);
    SweepsLeaveLive(cfg, beaten, step);
    ReapSubset(cfg, KillSweeps(cfg, beaten, step), 0, step.after);
    forall slot | slot in Supervise(cfg, s, step).slots ensures slot in KillSweeps(cfg, beaten, step).slots {
      var k :| 0 <= k < |Supervise(cfg, s, step).slots| && Supervise(cfg, s, step).slots[k] == slot;
    }
  }

  /** The slot's beat was taken: its time moved and its row carries the beat. */
  ghost predicate BeatIsTaken(cfg: Config, s: Loop, t: Loop, k: nat, beats: map<nat, nat>)
    requires k < |s.slots| && k < |t.slots|
  {
    var run := s.slots[k].run;
    && run < |t.store.rows| && run < |s.store.rows|
    && if run in beats
       then && t.slots[k] == s.slots[k].(lastBeat := s.clock)
            && t.store.rows[run] == s.store.rows[run].(beat := beats[run], beatAt := NowSecs(cfg, s.clock))
       else t.slots[k] == s.slots[k] && t.store.rows[run] == s.store.rows[run]
  }

  lemma BeatMovesOne(cfg: Config, s: Loop, i: nat, beat: nat)
    requires SlotsRun(s) && s.phase.Going? && i < |s.slots|
    ensures var t := BeatAt(cfg, s, i, beat);
            && SlotsRun(t) && t.phase.Going? && t.clock == s.clock
            && |t.slots| == |s.slots| && |t.store.rows| == |s.store.rows|
            && BeatIsTaken(cfg, s, t, i, map[s.slots[i].run := beat])
            && (forall k: nat :: k < |s.slots| && k != i ==> BeatIsTaken(cfg, s, t, k, map[]))
  {
  }

  lemma {:induction false} BeatsFrom(cfg: Config, s: Loop, i: nat, beats: map<nat, nat>)
    requires SlotsRun(s) && s.phase.Going? && i <= |s.slots|
    ensures var t := BeatFrom(cfg, s, i, beats);
            && t.phase.Going? && t.clock == s.clock && |t.slots| == |s.slots|
            && (forall k: nat :: k < i ==> BeatIsTaken(cfg, s, t, k, map[]))
            && (forall k: nat :: i <= k < |s.slots| ==> BeatIsTaken(cfg, s, t, k, beats))
    decreases |s.slots| - i
  {
    if i < |s.slots| {
      if s.slots[i].run in beats {
        var m, t := BeatAt(cfg, s, i, beats[s.slots[i].run]), BeatFrom(cfg, s, i, beats);
        BeatMovesOne(cfg, s, i, beats[s.slots[i].run]);
        BeatsFrom(cfg, m, i + 1, beats);
        forall k: nat | k < i ensures BeatIsTaken(cfg, s, t, k, map[]) {
          assert BeatIsTaken(cfg, s, m, k, map[]) && BeatIsTaken(cfg, m, t, k, map[]);
        }
        assert BeatIsTaken(cfg, m, t, i, map[]);
        assert BeatIsTaken(cfg, s, t, i, beats);
        forall k: nat | i < k < |s.slots| ensures BeatIsTaken(cfg, s, t, k, beats) {
          assert BeatIsTaken(cfg, s, m, k, map[]) && BeatIsTaken(cfg, m, t, k, beats);
        }
      } else {
        var t := BeatFrom(cfg, s, i, beats);
        BeatsFrom(cfg, s, i + 1, beats);
        assert BeatIsTaken(cfg, s, t, i, map[]);
        assert BeatIsTaken(cfg, s, t, i, beats);
      }
    } else {
      forall k: nat | k < i ensures BeatIsTaken(cfg, s, s, k, map[]) {
        assert s.store.IsRunning(s.slots[k].run);
      }
    }
  }

  /** Every fresh beat, and no other, moves its slot's beat time and reaches its row. */
  lemma BeatsAreRecorded(cfg: Config, base: Loop, s: Loop, beats: map<nat, nat>)
    requires Bookkept(cfg, base, s) && s.phase.Going?
    ensures var t := BeatFrom(cfg, s, 0, beats);
            && t.phase.Going? && t.clock == s.clock && |t.slots| == |s.slots|
            && forall k: nat :: k < |s.slots| ==> BeatIsTaken(cfg, s, t, k, beats)
  {
    BookkeptSlotsRun(cfg, base, s);
    BeatsFrom(cfg, s, 0, beats);
  }

  // ------------------------------------------------------- natural results win

  /** The row says what the handle returned; a counted failure may have used up its task. */
  ghost predicate Records(row: Row, outcome: WorkerOutcome, intent: Option<Intent>)
  {
    var (status, detail) := Arbitrate(outcome, intent);
    && row.detail == detail && row.spend == SpendOf(outcome) && IsTerminal(row.status)
    && (row.status == status || (row.status.Stuck? && IsAttempt(status)))
  }

  /** Every slot has its own running row. */
  ghost predicate SlotsRun(s: Loop)
  {
    && (forall i :: 0 <= i < |s.slots| ==> s.store.IsRunning(s.slots[i].run))
    && (forall i, j :: 0 <= i < j < |s.slots| ==> s.slots[i].run != s.slots[j].run)
  }

  lemma BookkeptSlotsRun(cfg: Config, base: Loop, s: Loop)
    requires Bookkept(cfg, base, s)
    ensures SlotsRun(s)
  {
    forall i | 0 <= i < |s.slots| ensures s.store.IsRunning(s.slots[i].run) {
      assert SlotMatches(|base.store.rows|, s, s.slots[i]);
    }
  }

  /** The slot's row is terminal and says what its handle returned. */
  ghost predicate SlotIsRecorded(t: Loop, slot: Slot, finished: map<nat, Finish>)
  {
    && slot.run in finished && slot.run < |t.store.rows|
    && Records(t.store.rows[slot.run], finished[slot.run].outcome, slot.intent)
  }

  lemma RecordStands(s: Loop, t: Loop, slot: Slot, finished: map<nat, Finish>)
    requires SlotIsRecorded(s, slot, finished) && Evolves(s, t)
    ensures SlotIsRecorded(t, slot, finished)
  {
    assert MayBecome(s.store.rows[slot.run], t.store.rows[slot.run]);
  }

  lemma ReapRecordsOne(cfg: Config, s: Loop, i: nat, finished: map<nat, Finish>)
    requires s.phase.Going? && i < |s.slots| && IsFinished(s.slots[i], finished) && s.store.IsRunning(s.slots[i].run)
    ensures SlotIsRecorded(ReapFrom(cfg, ReapAt(cfg, s, i, finished[s.slots[i].run]), i, finished), s.slots[i],
                           finished)
  {
    var run := s.slots[i].run;
    ReapEffect(cfg, s, i, finished[run]);
    var next := ReapAt(cfg, s, i, finished[run]);
    var trace := ReapIsTrace(cfg, next, i, finished);
    TraceEvolves(cfg, next, trace);
    RecordStands(next, ReapFrom(cfg, next, i, finished), s.slots[i], finished);
  }

  lemma ReapShifts(cfg: Config, s: Loop, i: nat, finish: Finish)
    requires SlotsRun(s) && s.phase.Going? && i < |s.slots|
    ensures var next := ReapAt(cfg, s, i, finish);
            SlotsRun(next) && next.phase.Going? && next.slots == s.slots[..i] + s.slots[i + 1..]
  {
    ReapEffect(cfg, s, i, finish);
  }

  /** A reap records every finished slot from `i` on by its own result. */
  lemma {:induction false} ReapRecords(cfg: Config, s: Loop, i: nat, finished: map<nat, Finish>, k: nat)
    requires SlotsRun(s) && s.phase.Going? && i <= k < |s.slots| && IsFinished(s.slots[k], finished)
    ensures SlotIsRecorded(ReapFrom(cfg, s, i, finished), s.slots[k], finished)
    decreases |s.slots| - i
  {
    if !IsFinished(s.slots[i], finished) {
      ReapRecords(cfg, s, i + 1, finished, k);
    } else if k == i {
      ReapRecordsOne(cfg, s, i, finished);
    } else {
      var finish := finished[s.slots[i].run];
      ReapShifts(cfg, s, i, finish);
      ReapRecords(cfg, ReapAt(cfg, s, i, finish), i, finished, k - 1);
    }
  }

  /** The beats, kills and second reap of a supervision step only evolve what the first reap left. */
  lemma AfterFirstReap(cfg: Config, s: Loop, step: SuperviseIn)
    ensures Evolves(Reap(cfg, s, step.before), Supervise(cfg, s, step))
  {
    var reaped := Reap(cfg, s, step.before);
    StillEvolves(reaped, reaped);
    if reaped.phase.Going? {
      var ticked := Tick(reaped, step.dtBeats);
      var beats := BeatsAreTrace(cfg, ticked, 0, step.beats);
      TraceEvolves(cfg, ticked, beats);
      var beaten := BeatFrom(cfg, ticked, 0, step.beats);
      assert Evolves(reaped, beaten);
      if beaten.phase.Going? { SweepsEvolve(cfg, reaped, beaten, step); }
    }
  }

  lemma SweepsEvolve(cfg: Config, first: Loop, s: Loop, step: SuperviseIn)
    requires Evolves(first, s) && s.phase.Going?
    ensures Evolves(first, Reap(cfg, KillSweeps(cfg, s, step), step.after))
  {
    SweepsAreTrace(cfg, s, step);
    TraceEvolves(cfg, s, SweepTrace(step));
    var swept := KillSweeps(cfg, s, step);
    EvolvesTrans(first, s, swept);
    var reaps := ReapIsTrace(cfg, swept, 0, step.after);
    TraceEvolves(cfg, swept, reaps);
    EvolvesTrans(first, swept, Reap(cfg, swept, step.after));
  }

  /** A natural result is recorded as what it was, with its spend; a cancelled run as its intent says. */
  lemma RecordMeans(t: Loop, slot: Slot, finished: map<nat, Finish>)
    requires SlotIsRecorded(t, slot, finished)
    ensures var row, outcome := t.store.rows[slot.run], finished[slot.run].outcome;
            && (row.status.Completed? <==> outcome.Ran? && outcome.completed)
            && row.spend == (if outcome.Ran? then outcome.spend else 0)
            && (row.status.AbortedShutdown? <==>
                  outcome.Cancelled? && slot.intent.Some? && (slot.intent.value.Drain? || slot.intent.value.Drained?))
            && (row.status.Stalled? ==> outcome.Cancelled? && slot.intent == Some(Stall))
            && (row.status.TimedOut? ==> outcome.Cancelled? && slot.intent == Some(WorkerTimeout))
            && (row.detail.TypedFailure? <==> outcome.Ran? && !outcome.completed)
            && (row.detail.LoopUnusable? <==> outcome.Unusable?)
            && (row.detail.WorkerPanicked? <==> outcome.Panicked?)
            && (row.detail.StallTimeout? <==> outcome.Cancelled? && slot.intent == Some(Stall))
            && (row.detail.WorkerTimeoutKill? <==> outcome.Cancelled? && slot.intent == Some(WorkerTimeout))
            && (forall reason ::
                  row.detail == DrainAbort(reason) <==> outcome.Cancelled? && slot.intent == Some(Drain(reason)))
  {
  }
}

/**
The seconds a run writes: every start, beat and end bears a second of the
iteration that wrote it, and a reaped row exactly the second of its reap.
 */
module LoopStamps {
  import opened Wrappers
  import opened RunState
  import opened Selection
  import opened LoopModel
  import opened LoopTrace
  import opened LoopBookkeeping
  import opened LoopExit
  import opened LoopSignals
  import opened LoopArbitration
  import opened LoopReaping
  import opened LoopStops

  // --------------------------------------------------------------------- timely stamps

  /** The second lies between two readings of the clock. */
  predicate IsBetween(cfg: Config, from: nat, secs: nat, to: nat)
  {
    NowSecs(cfg, from) <= secs <= NowSecs(cfg, to)
  }

  /** A row that ended, or was beaten, between two readings says so. */
  ghost predicate MovesTimely(cfg: Config, from: nat, before: Row, after: Row, to: nat)
  {
    && (before.status.Running? && !after.status.Running? ==>
          after.finishedAt.Some? && IsBetween(cfg, from, after.finishedAt.value, to))
    && (after.beatAt != before.beatAt ==> IsBetween(cfg, from, after.beatAt, to))
  }

  /** A row that was added between two readings began, and if it is over ended, between them. */
  ghost predicate BeginsTimely(cfg: Config, from: nat, row: Row, to: nat)
  {
    && IsBetween(cfg, from, row.startedAt, to) && IsBetween(cfg, from, row.beatAt, to)
    && (!row.status.Running? ==>
          row.finishedAt.Some? && row.startedAt <= row.finishedAt.value <= NowSecs(cfg, to))
  }

  ghost predicate Timely(cfg: Config, s: Loop, t: Loop)
  {
    && s.clock <= t.clock && Extends(s.store, t.store)
    && (forall i :: 0 <= i < |s.store.rows| ==> MovesTimely(cfg, s.clock, s.store.rows[i], t.store.rows[i], t.clock))
    && (forall i :: |s.store.rows| <= i < |t.store.rows| ==> BeginsTimely(cfg, s.clock, t.store.rows[i], t.clock))
  }

  lemma NowGrows(cfg: Config, a: nat, b: nat)
    requires a <= b
    ensures NowSecs(cfg, a) <= NowSecs(cfg, b)
  {
  }

  lemma MovesTrans(cfg: Config, a: nat, x: Row, b: nat, y: Row, c: nat, z: Row)
    requires a <= b <= c && MovesTimely(cfg, a, x, y, b) && MovesTimely(cfg, b, y, z, c)
    requires MayBecome(x, y) && MayBecome(y, z)
    ensures MovesTimely(cfg, a, x, z, c)
  {
    NowGrows(cfg, a, b);
    NowGrows(cfg, b, c);
  }

  lemma BeginsTrans(cfg: Config, a: nat, b: nat, y: Row, c: nat, z: Row)
    requires a <= b <= c && BeginsTimely(cfg, a, y, b) && MovesTimely(cfg, b, y, z, c) && MayBecome(y, z)
    ensures BeginsTimely(cfg, a, z, c)
  {
    NowGrows(cfg, a, b);
    NowGrows(cfg, b, c);
  }

  lemma BeginsLater(cfg: Config, a: nat, b: nat, row: Row, c: nat)
    requires a <= b && BeginsTimely(cfg, b, row, c)
    ensures BeginsTimely(cfg, a, row, c)
  {
    NowGrows(cfg, a, b);
  }

  lemma TimelyTrans(cfg: Config, s: Loop, t: Loop, u: Loop)
    requires Timely(cfg, s, t) && Timely(cfg, t, u)
    ensures Timely(cfg, s, u)
  {
    forall i | 0 <= i < |s.store.rows|
      ensures MayBecome(s.store.rows[i], u.store.rows[i])
      ensures MovesTimely(cfg, s.clock, s.store.rows[i], u.store.rows[i], u.clock)
    {
      assert MayBecome(s.store.rows[i], t.store.rows[i]) && MayBecome(t.store.rows[i], u.store.rows[i]);
      MovesTrans(cfg, s.clock, s.store.rows[i], t.clock, t.store.rows[i], u.clock, u.store.rows[i]);
    }
    forall i | |s.store.rows| <= i < |u.store.rows| ensures BeginsTimely(cfg, s.clock, u.store.rows[i], u.clock) {
      if i < |t.store.rows| {
        assert MayBecome(t.store.rows[i], u.store.rows[i]);
        BeginsTrans(cfg, s.clock, t.clock, t.store.rows[i], u.clock, u.store.rows[i]);
      } else {
        BeginsLater(cfg, s.clock, t.clock, u.store.rows[i], u.clock);
      }
    }
  }

  lemma SameRowsTimely(cfg: Config, s: Loop, t: Loop)
    requires t.store.rows == s.store.rows && s.clock <= t.clock
    ensures Timely(cfg, s, t)
  {
  }

  // ------------------------------------------------------------------- the steps of a run

  lemma ReapTimely(cfg: Config, s: Loop, i: nat, finish: Finish)
    requires s.phase.Going? && i < |s.slots| && s.store.IsRunning(s.slots[i].run)
    ensures Timely(cfg, s, ReapAt(cfg, s, i, finish))
    ensures ReapAt(cfg, s, i, finish).store.rows[s.slots[i].run].finishedAt == Some(NowSecs(cfg, s.clock + finish.dt))
  {
    ReapEffect(cfg, s, i, finish);
    NowGrows(cfg, s.clock, s.clock + finish.dt);
  }

  lemma MicroTimely(cfg: Config, base: Loop, s: Loop, m: Micro)
    requires Bookkept(cfg, base, s)
    ensures Timely(cfg, s, Exec(cfg, s, m))
  {
    if s.phase.Going? && m.ReapSlot? && m.i < |s.slots| && CanReturn(s.slots[m.i], m.finish) {
      BookkeptSlotsRun(cfg, base, s);
      ReapTimely(cfg, s, m.i, m.finish);
    }
  }

  lemma {:induction false} TraceTimely(cfg: Config, base: Loop, s: Loop, trace: seq<Micro>)
    requires Bookkept(cfg, base, s)
    ensures Timely(cfg, s, ExecAll(cfg, s, trace))
    decreases |trace|
  {
    if trace == [] {
      SameRowsTimely(cfg, s, s);
    } else {
      var t := Exec(cfg, s, trace[0]);
      MicroTimely(cfg, base, s, trace[0]);
      MicroKeeps(cfg, base, s, trace[0]);
      TraceTimely(cfg, base, t, trace[1..]);
      TimelyTrans(cfg, s, t, ExecAll(cfg, s, trace));
    }
  }

  lemma SpawnTimely(cfg: Config, s: Loop, decision: Decision, start: StartIn)
    requires decision.Selected? && s.decisions != [] && s.phase.Going?
    ensures Timely(cfg, s, Spawn(cfg, s, decision, start))
    ensures var t := Spawn(cfg, s, decision, start);
            |t.store.rows| == |s.store.rows| + 1 && t.store.rows[|s.store.rows|].startedAt == NowSecs(cfg, s.clock)
  {
    SpawnEffect(cfg, s, decision, start);
    NowGrows(cfg, s.clock, Spawn(cfg, s, decision, start).clock);
  }

  lemma PlanTimely(cfg: Config, s: Loop, plan: PlanIn)
    requires s.phase.Going?
    ensures Timely(cfg, s, PlanAndSpawn(cfg, s, plan))
  {
    var now := NowSecs(cfg, s.clock);
    if Proceeds(cfg, s, now, plan.snapshot) {
      var gated := Gated(cfg, s, plan.snapshot);
      var snapshot := plan.snapshot.(ready := Retain(plan.snapshot.ready, Excluded(cfg, s, now)));
      var decision := CampaignDecision(snapshot, plan.consulted);
      var recorded := gated.(decisions := gated.decisions + [decision],
                             events := DrainEvents(Arrive(gated.events, plan.arrivals), Peeked(cfg, s)));
      if decision.Selected? { SpawnTimely(cfg, recorded, decision, plan.start); }
    }
  }

  lemma AfterPollTimely(cfg: Config, s: Loop, pass: PassIn)
    requires s.phase.Going?
    ensures Timely(cfg, s, AfterPoll(cfg, s, pass))
  {
    var later, t := Tick(s, pass.dtAfter), AfterPoll(cfg, s, pass);
    SameRowsTimely(cfg, s, later);
    if PollPlans(cfg, s, pass) {
      assert t == PlanAndSpawn(cfg, later, pass.result.plan);
      PlanTimely(cfg, later, pass.result.plan);
      TimelyTrans(cfg, s, later, t);
    } else {
      SameRowsTimely(cfg, s, t);
    }
  }

  lemma PassTimely(cfg: Config, s: Loop, top: nat, pass: PassIn)
    requires s.phase.Going?
    ensures Timely(cfg, s, Pass(cfg, s, top, pass))
  {
    var t := Pass(cfg, s, top, pass);
    if PassGated(cfg, s, top) {
      SameRowsTimely(cfg, s, t);
    } else {
      var begun := Tick(BeginPass(cfg, s, top), pass.dtBudget);
      var polled := Tick(begun, pass.dt)
                    .(signal := Deliver(s.signal, pass.sends, pass.closes), events := Arrive(s.events, pass.arrivals));
      SameRowsTimely(cfg, s, polled);
      if (pass.signalFirst && polled.signal.sends > polled.signal.cloneSeen)
         || (pass.budgetFirst && begun.clock <= cfg.runBudget <= polled.clock) {
        SameRowsTimely(cfg, s, t);
      } else {
        assert t == AfterPoll(cfg, polled, pass);
        AfterPollTimely(cfg, polled, pass);
        TimelyTrans(cfg, s, polled, t);
      }
    }
  }

  lemma GuardsTimely(cfg: Config, base: Loop, s: Loop, top: nat, step: Iter)
    requires Bookkept(cfg, base, s) && s.phase.Going?
    ensures Timely(cfg, s, Guards(cfg, s, top, step))
  {
    var t := Guards(cfg, s, top, step);
    if s.drain.stop.Some? {
      var trace := DrainIsTrace(cfg, s, step.drain);
      TraceTimely(cfg, base, s, trace);
      var swept := DrainSweep(cfg, s, step.drain);
      DrainEnds(cfg, s, top, step);
      SameRowsTimely(cfg, swept, t);
      TimelyTrans(cfg, s, swept, t);
    } else if top >= cfg.runBudget || s.store.DailySpend(NowSecs(cfg, top)) >= cfg.spendCap || CyclesAreUp(cfg, s) {
      SameRowsTimely(cfg, s, t);
    } else {
      assert t == Pass(cfg, s, top, step.pass);
      PassTimely(cfg, s, top, step.pass);
    }
  }

  lemma FoundTimely(cfg: Config, base: Loop, s: Loop, step: Iter, u: Loop)
    requires Bookkept(cfg, base, s) && s.phase.Going? && u == Found(cfg, s, step)
    ensures Timely(cfg, s, u)
  {
    var top := Tick(s, step.dtTop);
    TickIsBookkept(cfg, base, s, step.dtTop);
    SameRowsTimely(cfg, s, top);
    var trace := SuperviseIsTrace(cfg, top, step.supervise);
    TraceTimely(cfg, base, top, trace);
    TimelyTrans(cfg, s, top, u);
  }

  /** Every stamp of an iteration lies between its two ends. */
  lemma IterateTimely(cfg: Config, base: Loop, s: Loop, step: Iter)
    requires Bookkept(cfg, base, s)
    ensures Timely(cfg, s, Iterate(cfg, s, step))
  {
    var t := Iterate(cfg, s, step);
    if s.phase.Going? {
      var u := Found(cfg, s, step);
      FoundIsFramed(cfg, base, s, step, u);
      FoundTimely(cfg, base, s, step, u);
      var g := Guards(cfg, u, TopOf(s, step), step);
      GuardsTimely(cfg, base, u, TopOf(s, step), step);
      TimelyTrans(cfg, s, u, g);
      IterateFromFound(cfg, s, step, u, g);
      WaitKeepsCore(cfg, g, step.wait);
      WaitMayStop(cfg, g, step.wait);
      SameRowsTimely(cfg, g, t);
      TimelyTrans(cfg, s, g, t);
    } else {
      SameRowsTimely(cfg, s, s);
    }
  }

  // ---------------------------------------------------------------------------- whole runs

  /** From any state of a run to any later one, what was written in between bears a second in between. */
  lemma {:induction false} RunIsTimely(cfg: Config, base: Loop, s: Loop, script: seq<Iter>)
    requires Bookkept(cfg, base, s)
    ensures Timely(cfg, s, Run(cfg, s, script)) && Bookkept(cfg, base, Run(cfg, s, script))
  {
    if script == [] {
      SameRowsTimely(cfg, s, s);
    } else {
      var init := script[..|script| - 1];
      var m := Run(cfg, s, init);
      RunIsTimely(cfg, base, s, init);
      IterateKeeps(cfg, base, m, script[|script| - 1]);
      IterateTimely(cfg, base, m, script[|script| - 1]);
      TimelyTrans(cfg, s, m, Run(cfg, s, script));
    }
  }

  /** Iteration `k` of the run ended the row, at a second of its own. */
  ghost predicate EndsIn(cfg: Config, base: Loop, script: seq<Iter>, k: nat, id: nat, row: Row)
  {
    && k < |script|
    && var s, t := Run(cfg, base, script[..k]), Run(cfg, base, script[..k + 1]);
       && (id < |s.store.rows| ==> s.store.rows[id].status.Running?)
       && id < |t.store.rows| && t.store.rows[id] == row
       && row.finishedAt.Some? && IsBetween(cfg, s.clock, row.finishedAt.value, t.clock)
  }

  /** Every row that is over at the end of a run was ended by one iteration, and bears a second of it. */
  lemma {:induction false} RowsEndInTime(cfg: Config, base: Loop, script: seq<Iter>, id: nat) returns (k: nat)
    requires IsStart(base) && |base.store.rows| <= id < |Run(cfg, base, script).store.rows|
    requires !Run(cfg, base, script).store.rows[id].status.Running?
    ensures EndsIn(cfg, base, script, k, id, Run(cfg, base, script).store.rows[id])
  {
    var last := |script| - 1;
    var init := script[..last];
    var s := Run(cfg, base, init);
    if id < |s.store.rows| && !s.store.rows[id].status.Running? {
      k := RowsEndInTime(cfg, base, init, id);
      IterateEvolves(cfg, s, script[last]);
      assert MayBecome(s.store.rows[id], Run(cfg, base, script).store.rows[id]);
      assert init[..k] == script[..k] && init[..k + 1] == script[..k + 1];
    } else {
      k := last;
      assert script[..last + 1] == script;
      RunIsBookkept(cfg, base, init);
      IterateTimely(cfg, base, s, script[last]);
      EndsNow(cfg, s, Run(cfg, base, script), id);
    }
  }

  lemma EndsNow(cfg: Config, s: Loop, t: Loop, id: nat)
    requires Timely(cfg, s, t) && id < |t.store.rows| && !t.store.rows[id].status.Running?
    requires id < |s.store.rows| ==> s.store.rows[id].status.Running?
    ensures t.store.rows[id].finishedAt.Some?
    ensures IsBetween(cfg, s.clock, t.store.rows[id].finishedAt.value, t.clock)
  {
    if id < |s.store.rows| {
      assert MovesTimely(cfg, s.clock, s.store.rows[id], t.store.rows[id], t.clock);
    } else {
      assert BeginsTimely(cfg, s.clock, t.store.rows[id], t.clock);
    }
  }

  // ------------------------------------------------------------------- the exact reap second

  /** The clock when slot `k` is reaped: every finished handle from `i` on moved it first. */
  function ReapClock(clock: nat, slots: seq<Slot>, i: nat, k: nat, finished: map<nat, Finish>): nat
    requires i <= k < |slots|
    decreases k - i
  {
    var now := if IsFinished(slots[i], finished) then clock + finished[slots[i].run].dt else clock;
    if i == k then now else ReapClock(now, slots, i + 1, k, finished)
  }

  lemma {:induction false} ReapClockShifts(clock: nat, slots: seq<Slot>, gone: nat, i: nat, k: nat,
                                           finished: map<nat, Finish>)
    requires gone <= i <= k && k + 1 < |slots|
    ensures ReapClock(clock, WithoutSlot(slots, gone), i, k, finished)
              == ReapClock(clock, slots, i + 1, k + 1, finished)
    decreases k - i
  {
    assert WithoutSlot(slots, gone)[i] == slots[i + 1];
    if i < k {
      var now := if IsFinished(slots[i + 1], finished) then clock + finished[slots[i + 1].run].dt else clock;
      ReapClockShifts(now, slots, gone, i + 1, k, finished);
    }
  }

  /** A reaped row bears exactly the second at which its own handle was taken. */
  lemma {:induction false} ReapStamps(cfg: Config, s: Loop, i: nat, finished: map<nat, Finish>, k: nat)
    requires SlotsRun(s) && s.phase.Going? && i <= k < |s.slots| && IsFinished(s.slots[k], finished)
    ensures var t := ReapFrom(cfg, s, i, finished);
            && s.slots[k].run < |t.store.rows|
            && t.store.rows[s.slots[k].run].finishedAt
               == Some(NowSecs(cfg, ReapClock(s.clock, s.slots, i, k, finished)))
    decreases |s.slots| - i
  {
    if !IsFinished(s.slots[i], finished) {
      ReapStamps(cfg, s, i + 1, finished, k);
    } else {
      var finish := finished[s.slots[i].run];
      var next := ReapAt(cfg, s, i, finish);
      ReapShifts(cfg, s, i, finish);
      ReapEffect(cfg, s, i, finish);
      if k == i {
        ReapStampsOne(cfg, s, i, finished);
      } else {
        ReapStamps(cfg, next, i, finished, k - 1);
        ReapClockShifts(next.clock, s.slots, i, i, k - 1, finished);
      }
    }
  }

  lemma ReapStampsOne(cfg: Config, s: Loop, i: nat, finished: map<nat, Finish>)
    requires SlotsRun(s) && s.phase.Going? && i < |s.slots| && IsFinished(s.slots[i], finished)
    ensures var t := ReapFrom(cfg, s, i, finished);
            && s.slots[i].run < |t.store.rows|
            && t.store.rows[s.slots[i].run].finishedAt
               == Some(NowSecs(cfg, s.clock + finished[s.slots[i].run].dt))
  {
    var run := s.slots[i].run;
    var next := ReapAt(cfg, s, i, finished[run]);
    ReapTimely(cfg, s, i, finished[run]);
    ReapedIsOver(cfg, s, i, finished[run]);
    RestLeavesRow(cfg, next, i, finished, run);
    assert ReapFrom(cfg, s, i, finished) == ReapFrom(cfg, next, i, finished);
  }

  lemma ReapedIsOver(cfg: Config, s: Loop, i: nat, finish: Finish)
    requires s.phase.Going? && i < |s.slots| && s.store.IsRunning(s.slots[i].run)
    ensures var t, run := ReapAt(cfg, s, i, finish), s.slots[i].run;
            run < |t.store.rows| && !t.store.rows[run].status.Running?
  {
    ReapEffect(cfg, s, i, finish);
  }

  lemma RestLeavesRow(cfg: Config, s: Loop, i: nat, finished: map<nat, Finish>, run: nat)
    requires run < |s.store.rows| && !s.store.rows[run].status.Running?
    ensures var t := ReapFrom(cfg, s, i, finished);
            run < |t.store.rows| && t.store.rows[run] == s.store.rows[run]
  {
    var trace := ReapIsTrace(cfg, s, i, finished);
    TraceEvolves(cfg, s, trace);
    assert MayBecome(s.store.rows[run], ReapFrom(cfg, s, i, finished).store.rows[run]);
  }

  // -------------------------------------------------------------------------- the fatal sweep

  lemma {:induction false} SweepIsTimely(cfg: Config, base: Loop, s: Loop, results: seq<Finish>)
    requires Bookkept(cfg, base, s) && s.phase.Fatal?
    ensures Timely(cfg, s, SweepAll(cfg, s, results))
    decreases |s.slots|
  {
    if s.slots == [] {
      SameRowsTimely(cfg, s, s);
    } else {
      var dropped := if results == [] then Finish(Cancelled, 0) else results[0];
      var next, rest := SweepOne(cfg, s, dropped), if results == [] then [] else results[1..];
      SweepOneTimely(cfg, base, s, dropped);
      SweepKeeps(cfg, base, s, dropped);
      SweepIsTimely(cfg, base, next, rest);
      TimelyTrans(cfg, s, next, SweepAll(cfg, s, results));
    }
  }

  lemma SweepOneTimely(cfg: Config, base: Loop, s: Loop, dropped: Finish)
    requires Bookkept(cfg, base, s) && s.slots != []
    ensures Timely(cfg, s, SweepOne(cfg, s, dropped))
  {
    SweepEffect(cfg, base, s, dropped);
    NowGrows(cfg, s.clock, s.clock + dropped.dt);
  }
}

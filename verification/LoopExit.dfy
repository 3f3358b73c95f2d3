/**
How a run ends: what a clean exit and the sweep of a fatal exit leave behind,
and the conservation of rows across the counters.
 */
module LoopExit {
  import opened Wrappers
  import opened RunState
  import opened LoopModel
  import opened LoopTrace
  import opened LoopBookkeeping

  // -------------------------------------------------------------- conservation

  function TerminalCounts(c: Counters): nat
  {
    c.completed + c.failed + c.stalled + c.timedOut + c.abortedOnStop + c.stuck
  }

  /** Rows without orphans or pauses split into the running ones and the six outcomes. */
  lemma {:induction false} StatusesPartition(rows: seq<Row>)
    requires forall i :: 0 <= i < |rows| ==> !rows[i].status.Orphaned? && !rows[i].status.Paused?
    ensures |rows| == Total(OfStatus(Running), rows) + Total(OfStatus(Completed), rows) + Total(OfStatus(Failed), rows)
                      + Total(OfStatus(Stalled), rows) + Total(OfStatus(TimedOut), rows)
                      + Total(OfStatus(AbortedShutdown), rows) + Total(OfStatus(Stuck), rows)
  {
    if rows != [] { StatusesPartition(rows[..|rows| - 1]); }
  }

  /** At every point: rows started are outcomes counted, live slots, and the stray of a failed starter. */
  lemma RowsAreConserved(cfg: Config, base: Loop, s: Loop)
    requires Bookkept(cfg, base, s)
    ensures |s.store.rows| - |base.store.rows|
         == TerminalCounts(s.counters) + |s.slots| + if HasStray(s) then 1 else 0
  {
    var b := |base.store.rows|;
    var own := s.store.rows[b..];
    forall i | 0 <= i < |own| ensures !own[i].status.Orphaned? && !own[i].status.Paused? {
      assert OwnRow(b, s, b + i) && own[i] == s.store.rows[b + i];
    }
    StatusesPartition(own);
  }

  // ----------------------------------------------------------------- clean exits

  lemma IterateExits(cfg: Config, s: Loop, step: Iter)
    requires s.phase.Exited? ==> s.slots == [] && s.drain.stop.Some?
    ensures var t := Iterate(cfg, s, step); t.phase.Exited? ==> t.slots == [] && t.drain.stop.Some?
  {
    if s.phase.Going? {
      var top := Tick(s, step.dtTop);
      var trace := SuperviseIsTrace(cfg, top, step.supervise);
      TraceFrame(cfg, top, trace);
      var supervised := Supervise(cfg, top, step.supervise);
      if supervised.phase.Going? { GuardsExit(cfg, supervised, top.clock, step); }
      TraceDoesNotExit(cfg, top, trace);
    }
  }

  lemma {:induction false} TraceDoesNotExit(cfg: Config, s: Loop, trace: seq<Micro>)
    requires !s.phase.Exited?
    ensures !ExecAll(cfg, s, trace).phase.Exited?
    decreases |trace|
  {
    if trace != [] { TraceDoesNotExit(cfg, Exec(cfg, s, trace[0]), trace[1..]); }
  }

  lemma PlanDoesNotExit(cfg: Config, s: Loop, plan: PlanIn)
    requires s.phase.Going?
    ensures !PlanAndSpawn(cfg, s, plan).phase.Exited?
  {
  }

  lemma PassDoesNotExit(cfg: Config, s: Loop, top: nat, pass: PassIn)
    requires s.phase.Going?
    ensures !Pass(cfg, s, top, pass).phase.Exited?
  {
    if !PassGated(cfg, s, top) && pass.result.PollOk? {
      var begun := Tick(BeginPass(cfg, s, top), pass.dtBudget);
      var polled := Tick(begun, pass.dt)
                    .(signal := Deliver(s.signal, pass.sends, pass.closes), events := Arrive(s.events, pass.arrivals));
      PlanDoesNotExit(cfg, Tick(polled, pass.dtAfter), pass.result.plan);
    }
  }

  lemma GuardsExit(cfg: Config, s: Loop, top: nat, step: Iter)
    requires s.phase.Going?
    ensures var t := Guards(cfg, s, top, step); t.phase.Exited? ==> t.slots == [] && t.drain.stop.Some?
  {
    if s.drain.stop.Some? {
      var trace := DrainIsTrace(cfg, s, step.drain);
      TraceDoesNotExit(cfg, s, trace);
      TraceFrame(cfg, s, trace);
    } else {
      PassDoesNotExit(cfg, s, top, step.pass);
    }
  }

  lemma {:induction false} RunExits(cfg: Config, base: Loop, script: seq<Iter>)
    requires base.phase.Going?
    ensures var s := Run(cfg, base, script); s.phase.Exited? ==> s.slots == [] && s.drain.stop.Some?
  {
    if script != [] {
      RunExits(cfg, base, script[..|script| - 1]);
      IterateExits(cfg, Run(cfg, base, script[..|script| - 1]), script[|script| - 1]);
    }
  }

  /**
  A run that exits cleanly has a stop reason, leaves every row it started in a
  terminal state, has counted each of them exactly once, and started exactly
  one row per selection, in order.
   */
  lemma CleanExit(cfg: Config, base: Loop, script: seq<Iter>)
    requires IsStart(base) && Run(cfg, base, script).phase.Exited?
    ensures var s := Run(cfg, base, script);
            var b := |base.store.rows|;
            && s.drain.stop.Some? && s.slots == []
            && b <= |s.store.rows|
            && (forall i: nat :: b <= i < |s.store.rows| ==> IsTerminal(s.store.rows[i].status))
            && |s.store.rows| - b == TerminalCounts(s.counters)
            && RowsAreSelections(b, |base.decisions|, s)
  {
    var s := Run(cfg, base, script);
    var b := |base.store.rows|;
    RunIsBookkept(cfg, base, script);
    RunExits(cfg, base, script);
    RowsAreConserved(cfg, base, s);
    forall i: nat | b <= i < |s.store.rows| ensures IsTerminal(s.store.rows[i].status) {
      assert OwnRow(b, s, i);
      assert i !in SlotRuns(s.slots);
    }
  }

  // ------------------------------------------------------------- the fatal sweep

  /** The row the sweep writes, whatever the awaited handle returned. */
  function SweptRow(cfg: Config, s: Loop, dropped: Finish): Row
    requires s.slots != [] && s.slots[0].run < |s.store.rows|
  {
    Finished(s.store.rows[s.slots[0].run], AbortedShutdown, NowSecs(cfg, s.clock + dropped.dt), 0,
             UnattributedDrainAbort)
  }

  lemma SweepEffect(cfg: Config, base: Loop, s: Loop, dropped: Finish)
    requires Bookkept(cfg, base, s) && s.slots != []
    ensures |base.store.rows| <= s.slots[0].run && s.store.IsRunning(s.slots[0].run)
    ensures SweepOne(cfg, s, dropped).store.rows == s.store.rows[s.slots[0].run := SweptRow(cfg, s, dropped)]
  {
    assert SlotMatches(|base.store.rows|, s, s.slots[0]);
  }

  lemma SweepKeepsSlots(cfg: Config, base: Loop, s: Loop, dropped: Finish)
    requires Bookkept(cfg, base, s) && s.slots != []
    ensures SlotsMatchRows(cfg, |base.store.rows|, SweepOne(cfg, s, dropped))
    ensures RowsAreOwn(cfg, |base.store.rows|, SweepOne(cfg, s, dropped))
  {
    SweepEffect(cfg, base, s, dropped);
    var b, t, row := |base.store.rows|, SweepOne(cfg, s, dropped), SweptRow(cfg, s, dropped);
    assert SlotMatches(b, s, s.slots[0]);
    assert t.slots == WithoutSlot(s.slots, 0);
    FinishKeepsSlots(cfg, b, s, t, 0, row);
    FinishKeepsOwn(cfg, b, s, t, s.slots[0].run, row);
  }

  lemma SweepKeeps(cfg: Config, base: Loop, s: Loop, dropped: Finish)
    requires Bookkept(cfg, base, s) && s.slots != [] && s.phase.Fatal?
    ensures Bookkept(cfg, base, SweepOne(cfg, s, dropped))
  {
    var b := |base.store.rows|;
    var t := SweepOne(cfg, s, dropped);
    SweepEffect(cfg, base, s, dropped);
    SweepKeepsSlots(cfg, base, s, dropped);
    CountersFollowFinish(b, s, t, s.slots[0].run, SweptRow(cfg, s, dropped));
    KeepsSelections(b, |base.decisions|, s, t);
  }

  lemma {:induction false} SweepAllKeeps(cfg: Config, base: Loop, s: Loop, results: seq<Finish>)
    requires Bookkept(cfg, base, s) && s.phase.Fatal?
    ensures var t := SweepAll(cfg, s, results);
            Bookkept(cfg, base, t) && t.phase == s.phase && t.slots == [] && |t.store.rows| == |s.store.rows|
    decreases |s.slots|
  {
    if s.slots != [] {
      var dropped := if results == [] then Finish(Cancelled, 0) else results[0];
      SweepKeeps(cfg, base, s, dropped);
      SweepAllKeeps(cfg, base, SweepOne(cfg, s, dropped), if results == [] then [] else results[1..]);
    }
  }

  ghost predicate OnlyStrayRuns(b: nat, s: Loop)
  {
    && s.slots == [] && s.phase == Fatal(StarterFailed) && b < |s.store.rows|
    && (forall i: nat :: b <= i < |s.store.rows| ==> (s.store.rows[i].status.Running? <==> i == |s.store.rows| - 1))
    && |s.store.rows| - b == TerminalCounts(s.counters) + 1
  }

  lemma SweptState(cfg: Config, base: Loop, s: Loop)
    requires Bookkept(cfg, base, s) && s.phase.Fatal? && s.slots == []
    ensures OnlyStrayRuns(|base.store.rows|, s)
  {
    var b := |base.store.rows|;
    assert s.phase.error.StarterFailed?;
    RowsAreConserved(cfg, base, s);
    forall i: nat | b <= i < |s.store.rows| ensures s.store.rows[i].status.Running? <==> i == |s.store.rows| - 1 {
      assert OwnRow(b, s, i);
      assert i !in SlotRuns(s.slots);
    }
  }

  lemma SweepOfFatal(cfg: Config, base: Loop, r: Loop, results: seq<Finish>)
    requires Bookkept(cfg, base, r) && r.phase.Fatal?
    ensures var s := FatalSweep(cfg, r, results); Bookkept(cfg, base, s) && s.phase.Fatal? && s.slots == []
  {
    var killed := KillWhere(cfg, r, Everything, Drained);
    LedgerKeeps(cfg, base, r, killed);
    SweepAllKeeps(cfg, base, killed, results);
  }

  /**
  A fatal exit never strands a row that has a slot: after the sweep a row of
  the run is still running if and only if it is the row a failed starter left
  behind, and the counters still count every row.
   */
  lemma FatalExit(cfg: Config, base: Loop, script: seq<Iter>, results: seq<Finish>)
    requires IsStart(base) && Run(cfg, base, script).phase.Fatal?
    ensures OnlyStrayRuns(|base.store.rows|, FatalSweep(cfg, Run(cfg, base, script), results))
  {
    var r := Run(cfg, base, script);
    RunIsBookkept(cfg, base, script);
    SweepOfFatal(cfg, base, r, results);
    SweptState(cfg, base, FatalSweep(cfg, r, results));
  }
}

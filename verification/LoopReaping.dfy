/**
What becomes of a worker's handle over a whole run: when its slot goes, whose
verdict its row carries, and what only the sweep of a fatal exit does.
 */
module LoopReaping {
  import opened Wrappers
  import opened RunState
  import opened LoopModel
  import opened LoopTrace
  import opened LoopBookkeeping
  import opened LoopSignals
  import opened LoopExit
  import opened LoopArbitration

  /** A reap removes exactly the finished slots. */
  lemma {:induction false} ReapFilters(cfg: Config, s: Loop, i: nat, finished: map<nat, Finish>)
    requires SlotsRun(s) && s.phase.Going? && i <= |s.slots|
    requires forall k :: 0 <= k < i ==> !IsFinished(s.slots[k], finished)
    ensures var t := ReapFrom(cfg, s, i, finished);
            && t.phase.Going?
            && forall slot :: slot in t.slots <==> slot in s.slots && !IsFinished(slot, finished)
    decreases |s.slots| - i
  {
    if i < |s.slots| {
      if IsFinished(s.slots[i], finished) {
        var next := ReapAt(cfg, s, i, finished[s.slots[i].run]);
        ReapShifts(cfg, s, i, finished[s.slots[i].run]);
        assert s.slots == s.slots[..i] + [s.slots[i]] + s.slots[i + 1..];
        ReapFilters(cfg, next, i, finished);
      } else {
        ReapFilters(cfg, s, i + 1, finished);
      }
    }
  }

  // ------------------------------------------------------- the stages of an iteration

  ghost predicate InFlight(s: Loop, run: nat) { run in SlotRuns(s.slots) }

  /** The state in which supervision reads the clock for its beats. */
  function Beaten(cfg: Config, s: Loop, step: SuperviseIn): Loop
  {
    BeatFrom(cfg, Tick(Reap(cfg, s, step.before), step.dtBeats), 0, step.beats)
  }

  /** The state in which supervision reaps for the second time: both kill sweeps are done. */
  function KillPoint(cfg: Config, s: Loop, step: SuperviseIn): Loop { KillSweeps(cfg, Beaten(cfg, s, step), step) }

  lemma GoingStays(cfg: Config, base: Loop, s: Loop, trace: seq<Micro>)
    requires Bookkept(cfg, base, s) && s.phase.Going?
    ensures var t := ExecAll(cfg, s, trace); Bookkept(cfg, base, t) && t.phase.Going? && SlotsRun(t) && Evolves(s, t)
  {
    TraceKeeps(cfg, base, s, trace);
    TraceFrame(cfg, s, trace);
    TraceEvolves(cfg, s, trace);
    BookkeptSlotsRun(cfg, base, ExecAll(cfg, s, trace));
  }

  /** Evolution concerns rows and slots only. */
  lemma SameCoreEvolves(s: Loop, t: Loop, u: Loop)
    requires Evolves(s, t) && u.store == t.store && u.slots == t.slots
    ensures Evolves(s, u)
  {
  }

  lemma TickIsBookkept(cfg: Config, base: Loop, s: Loop, dt: nat)
    requires Bookkept(cfg, base, s)
    ensures Bookkept(cfg, base, Tick(s, dt))
  {
    LedgerKeeps(cfg, base, s, Tick(s, dt));
  }

  lemma FirstReapIsBookkept(cfg: Config, base: Loop, s: Loop, step: SuperviseIn)
    requires Bookkept(cfg, base, s) && s.phase.Going?
    ensures var t := Tick(Reap(cfg, s, step.before), step.dtBeats);
            Bookkept(cfg, base, t) && t.phase.Going? && SlotsRun(t) && Evolves(s, t)
  {
    var trace := ReapIsTrace(cfg, s, 0, step.before);
    var reaped := Reap(cfg, s, step.before);
    GoingStays(cfg, base, s, trace);
    TickIsBookkept(cfg, base, reaped, step.dtBeats);
    SameCoreEvolves(s, reaped, Tick(reaped, step.dtBeats));
  }

  lemma BeatenIsBookkept(cfg: Config, base: Loop, s: Loop, step: SuperviseIn)
    requires Bookkept(cfg, base, s) && s.phase.Going?
    ensures var t := Beaten(cfg, s, step); Bookkept(cfg, base, t) && t.phase.Going? && SlotsRun(t) && Evolves(s, t)
  {
    FirstReapIsBookkept(cfg, base, s, step);
    var ticked := Tick(Reap(cfg, s, step.before), step.dtBeats);
    var trace := BeatsAreTrace(cfg, ticked, 0, step.beats);
    GoingStays(cfg, base, ticked, trace);
    EvolvesTrans(s, ticked, Beaten(cfg, s, step));
  }

  lemma KillPointIsBookkept(cfg: Config, base: Loop, s: Loop, step: SuperviseIn)
    requires Bookkept(cfg, base, s) && s.phase.Going?
    ensures var t := KillPoint(cfg, s, step); Bookkept(cfg, base, t) && t.phase.Going? && SlotsRun(t) && Evolves(s, t)
    ensures Supervise(cfg, s, step) == Reap(cfg, KillPoint(cfg, s, step), step.after)
  {
    BeatenIsBookkept(cfg, base, s, step);
    FirstReapIsBookkept(cfg, base, s, step);
    var beaten := Beaten(cfg, s, step);
    SweepsAreTrace(cfg, beaten, step);
    GoingStays(cfg, base, beaten, SweepTrace(step));
    EvolvesTrans(s, beaten, KillPoint(cfg, s, step));
  }

  lemma SupervisedIsBookkept(cfg: Config, base: Loop, s: Loop, step: SuperviseIn)
    requires Bookkept(cfg, base, s) && s.phase.Going?
    ensures var t := Supervise(cfg, s, step); Bookkept(cfg, base, t) && t.phase.Going? && SlotsRun(t) && Evolves(s, t)
  {
    var trace := SuperviseIsTrace(cfg, s, step);
    GoingStays(cfg, base, s, trace);
  }

  // ----------------------------------------------------------- found handles are released

  /** Whatever slot the run still has is aborted. */
  ghost predicate AbortedOrGone(s: Loop, run: nat)
  {
    run < |s.store.rows| && forall i :: 0 <= i < |s.slots| && s.slots[i].run == run ==> s.slots[i].aborted
  }

  ghost predicate Gone(s: Loop, run: nat) { run < |s.store.rows| && !InFlight(s, run) }

  lemma AbortedStays(s: Loop, t: Loop, run: nat)
    requires AbortedOrGone(s, run) && Evolves(s, t)
    ensures AbortedOrGone(t, run)
  {
    forall j | 0 <= j < |t.slots| && t.slots[j].run == run ensures t.slots[j].aborted {
      var i :| 0 <= i < |s.slots| && MayContinue(s.slots[i], t.slots[j]);
    }
  }

  lemma GoneStays(s: Loop, t: Loop, run: nat)
    requires Gone(s, run) && Evolves(s, t)
    ensures Gone(t, run)
  {
    forall j | 0 <= j < |t.slots| ensures t.slots[j].run != run {
      if Continues(s.slots, t.slots[j]) {
        var i :| 0 <= i < |s.slots| && MayContinue(s.slots[i], t.slots[j]);
        assert s.slots[i].run in SlotRuns(s.slots);
      }
    }
  }

  /** A reap with these results takes the handle: its slot is aborted, or it returns a natural result. */
  ghost predicate MayTake(s: Loop, finished: map<nat, Finish>, run: nat)
  {
    && run < |s.store.rows| && run in finished
    && (AbortedOrGone(s, run) || !finished[run].outcome.Cancelled?)
  }

  lemma MayTakeStays(s: Loop, t: Loop, finished: map<nat, Finish>, run: nat)
    requires MayTake(s, finished, run) && Evolves(s, t)
    ensures MayTake(t, finished, run)
  {
    if AbortedOrGone(s, run) { AbortedStays(s, t, run); }
  }

  /** A reap that takes the handle removes its slot. */
  lemma ReapReleases(cfg: Config, s: Loop, finished: map<nat, Finish>, run: nat)
    requires SlotsRun(s) && s.phase.Going? && MayTake(s, finished, run)
    ensures Gone(Reap(cfg, s, finished), run)
  {
    ReapFilters(cfg, s, 0, finished);
    var trace := ReapIsTrace(cfg, s, 0, finished);
    TraceFrame(cfg, s, trace);
    var t := Reap(cfg, s, finished);
    forall j | 0 <= j < |t.slots| ensures t.slots[j].run != run {
      assert t.slots[j] in s.slots && !IsFinished(t.slots[j], finished);
      var i :| 0 <= i < |s.slots| && s.slots[i] == t.slots[j];
    }
  }

  /** The drain step of an iteration reaps: a stop stands, and the deadline is reached or no slot is left. */
  predicate DrainReaps(s: Loop, step: DrainIn)
  {
    s.drain.stop.Some? && (s.slots == [] || Reached(s.drain.deadline, s.clock + step.dt))
  }

  /** Some reap the iteration performs finds the run's handle finished. */
  predicate FindsFinished(cfg: Config, s: Loop, step: Iter, run: nat)
  {
    || run in step.supervise.before || run in step.supervise.after
    || (DrainReaps(Supervise(cfg, Tick(s, step.dtTop), step.supervise), step.drain) && run in step.drain.reaped)
  }

  lemma WaitKeepsCore(cfg: Config, g: Loop, step: WaitIn)
    ensures Wait(cfg, g, step).store == g.store && Wait(cfg, g, step).slots == g.slots
  {
  }

  /** The wait at the end of an iteration touches no row and no slot. */
  lemma WaitLeavesCore(cfg: Config, s: Loop, step: Iter, u: Loop, g: Loop)
    requires s.phase.Going? && u == Supervise(cfg, Tick(s, step.dtTop), step.supervise) && u.phase.Going?
    requires g == Guards(cfg, u, Tick(s, step.dtTop).clock, step)
    ensures Iterate(cfg, s, step).store == g.store && Iterate(cfg, s, step).slots == g.slots
  {
    WaitKeepsCore(cfg, g, step.wait);
  }

  lemma GuardsTail(cfg: Config, s: Loop, step: Iter, u: Loop)
    requires s.phase.Going? && u == Supervise(cfg, Tick(s, step.dtTop), step.supervise) && u.phase.Going?
    ensures Evolves(u, Iterate(cfg, s, step))
  {
    var g := Guards(cfg, u, Tick(s, step.dtTop).clock, step);
    GuardsEvolve(cfg, u, Tick(s, step.dtTop).clock, step);
    WaitLeavesCore(cfg, s, step, u, g);
    SameCoreEvolves(u, g, Iterate(cfg, s, step));
  }

  lemma SuperviseReleases(cfg: Config, base: Loop, s: Loop, step: SuperviseIn, run: nat)
    requires Bookkept(cfg, base, s) && s.phase.Going? && (MayTake(s, step.before, run) || MayTake(s, step.after, run))
    ensures Gone(Supervise(cfg, s, step), run)
  {
    if MayTake(s, step.before, run) {
      BookkeptSlotsRun(cfg, base, s);
      ReapReleases(cfg, s, step.before, run);
      AfterFirstReap(cfg, s, step);
      GoneStays(Reap(cfg, s, step.before), Supervise(cfg, s, step), run);
    } else {
      KillPointIsBookkept(cfg, base, s, step);
      MayTakeStays(s, KillPoint(cfg, s, step), step.after, run);
      ReapReleases(cfg, KillPoint(cfg, s, step), step.after, run);
    }
  }

  lemma DrainReleases(cfg: Config, s: Loop, step: DrainIn, run: nat)
    requires SlotsRun(s) && s.phase.Going? && DrainReaps(s, step) && MayTake(s, step.reaped, run)
    ensures Gone(DrainStep(cfg, s, step), run)
  {
    var now := Tick(s, step.dt);
    ReapReleases(cfg, KillWhere(cfg, now, Everything, DrainIntent(now)), step.reaped, run);
  }

  lemma GuardsRelease(cfg: Config, s: Loop, top: nat, step: Iter, run: nat)
    requires SlotsRun(s) && s.phase.Going? && DrainReaps(s, step.drain) && MayTake(s, step.drain.reaped, run)
    ensures Gone(Guards(cfg, s, top, step), run)
  {
    DrainReleases(cfg, s, step.drain, run);
    var d, t := DrainStep(cfg, s, step.drain), Guards(cfg, s, top, step);
    assert t.slots == d.slots && t.store == d.store;
  }

  /** Whatever the iteration's inputs report of the handle is a natural result. */
  ghost predicate IsNatural(step: Iter, run: nat)
  {
    && (run in step.supervise.before ==> !step.supervise.before[run].outcome.Cancelled?)
    && (run in step.supervise.after ==> !step.supervise.after[run].outcome.Cancelled?)
    && (run in step.drain.reaped ==> !step.drain.reaped[run].outcome.Cancelled?)
  }

  /**
  An iteration one of whose reaps finds a handle finished, be it an aborted one
  or one that returned by itself, ends without its slot.
   */
  lemma IterateReleases(cfg: Config, base: Loop, s: Loop, step: Iter, run: nat)
    requires Bookkept(cfg, base, s) && s.phase.Going? && run < |s.store.rows| && FindsFinished(cfg, s, step, run)
    requires AbortedOrGone(s, run) || IsNatural(step, run)
    ensures Gone(Iterate(cfg, s, step), run)
  {
    var top := Tick(s, step.dtTop);
    TickIsBookkept(cfg, base, s, step.dtTop);
    SupervisedIsBookkept(cfg, base, top, step.supervise);
    var u := Supervise(cfg, top, step.supervise);
    if run in step.supervise.before || run in step.supervise.after {
      SuperviseReleases(cfg, base, top, step.supervise, run);
      GuardsTail(cfg, s, step, u);
      GoneStays(u, Iterate(cfg, s, step), run);
    } else {
      MayTakeStays(top, u, step.drain.reaped, run);
      GuardsRelease(cfg, u, top.clock, step, run);
      WaitLeavesCore(cfg, s, step, u, Guards(cfg, u, top.clock, step));
    }
  }

  // ------------------------------------------------------------- natural results win

  /** Whenever a reap finds the run's handle finished, it returns `outcome`. */
  ghost predicate StepReturns(step: Iter, run: nat, outcome: WorkerOutcome)
  {
    && (run in step.supervise.before ==> step.supervise.before[run].outcome == outcome)
    && (run in step.supervise.after ==> step.supervise.after[run].outcome == outcome)
    && (run in step.drain.reaped ==> step.drain.reaped[run].outcome == outcome)
  }

  ghost predicate Returns(script: seq<Iter>, run: nat, outcome: WorkerOutcome)
  {
    forall m :: 0 <= m < |script| ==> StepReturns(script[m], run, outcome)
  }

  /** The row carries the handle's own result; for a natural result the intent is irrelevant. */
  ghost predicate IsTaken(s: Loop, run: nat, outcome: WorkerOutcome)
  {
    run < |s.store.rows| && Records(s.store.rows[run], outcome, None)
  }

  ghost predicate FlightOrTaken(s: Loop, run: nat, outcome: WorkerOutcome)
  {
    InFlight(s, run) || IsTaken(s, run, outcome)
  }

  lemma TakenStays(s: Loop, t: Loop, run: nat, outcome: WorkerOutcome)
    requires IsTaken(s, run, outcome) && Evolves(s, t)
    ensures IsTaken(t, run, outcome)
  {
    assert MayBecome(s.store.rows[run], t.store.rows[run]);
  }

  lemma ReapTakes(cfg: Config, s: Loop, finished: map<nat, Finish>, run: nat, outcome: WorkerOutcome)
    requires SlotsRun(s) && s.phase.Going? && InFlight(s, run) && !outcome.Cancelled?
    requires run in finished ==> finished[run].outcome == outcome
    ensures FlightOrTaken(Reap(cfg, s, finished), run, outcome)
  {
    var k :| 0 <= k < |s.slots| && s.slots[k].run == run;
    if run in finished {
      ReapRecords(cfg, s, 0, finished, k);
    } else {
      ReapFilters(cfg, s, 0, finished);
      var t := Reap(cfg, s, finished);
      assert s.slots[k] in t.slots;
      var j :| 0 <= j < |t.slots| && t.slots[j] == s.slots[k];
      assert t.slots[j].run in SlotRuns(t.slots);
    }
  }

  lemma ReapSettles(cfg: Config, s: Loop, finished: map<nat, Finish>, run: nat, outcome: WorkerOutcome)
    requires SlotsRun(s) && s.phase.Going? && FlightOrTaken(s, run, outcome) && !outcome.Cancelled?
    requires run in finished ==> finished[run].outcome == outcome
    ensures FlightOrTaken(Reap(cfg, s, finished), run, outcome)
  {
    if InFlight(s, run) {
      ReapTakes(cfg, s, finished, run, outcome);
    } else {
      var trace := ReapIsTrace(cfg, s, 0, finished);
      TraceEvolves(cfg, s, trace);
      TakenStays(s, Reap(cfg, s, finished), run, outcome);
    }
  }

  /** Steps that keep every slot in its place keep every run in flight. */
  lemma SameRunsSettle(s: Loop, t: Loop, run: nat, outcome: WorkerOutcome)
    requires FlightOrTaken(s, run, outcome) && Evolves(s, t) && |s.slots| <= |t.slots|
    requires forall k :: 0 <= k < |s.slots| ==> t.slots[k].run == s.slots[k].run
    ensures FlightOrTaken(t, run, outcome)
  {
    if InFlight(s, run) {
      var k :| 0 <= k < |s.slots| && s.slots[k].run == run;
      assert t.slots[k].run in SlotRuns(t.slots);
    } else {
      TakenStays(s, t, run, outcome);
    }
  }

  lemma BeatsSettle(cfg: Config, s: Loop, beats: map<nat, nat>, run: nat, outcome: WorkerOutcome)
    requires SlotsRun(s) && s.phase.Going? && FlightOrTaken(s, run, outcome)
    ensures FlightOrTaken(BeatFrom(cfg, s, 0, beats), run, outcome)
  {
    BeatsFrom(cfg, s, 0, beats);
    var t := BeatFrom(cfg, s, 0, beats);
    var trace := BeatsAreTrace(cfg, s, 0, beats);
    TraceEvolves(cfg, s, trace);
    forall k: nat | k < |s.slots| ensures t.slots[k].run == s.slots[k].run {
      assert BeatIsTaken(cfg, s, t, k, beats);
    }
    SameRunsSettle(s, t, run, outcome);
  }

  lemma SameCoreSettles(s: Loop, t: Loop, run: nat, outcome: WorkerOutcome)
    requires FlightOrTaken(s, run, outcome) && t.store == s.store && t.slots == s.slots
    ensures FlightOrTaken(t, run, outcome)
  {
  }

  lemma SweepsSettle(cfg: Config, s: Loop, step: SuperviseIn, run: nat, outcome: WorkerOutcome)
    requires s.phase.Going? && FlightOrTaken(s, run, outcome)
    ensures FlightOrTaken(KillSweeps(cfg, s, step), run, outcome)
  {
    SweepsAreTrace(cfg, s, step);
    TraceEvolves(cfg, s, SweepTrace(step));
    SameRunsSettle(s, KillSweeps(cfg, s, step), run, outcome);
  }

  lemma BeatenSettles(cfg: Config, base: Loop, s: Loop, step: SuperviseIn, run: nat, outcome: WorkerOutcome)
    requires Bookkept(cfg, base, s) && s.phase.Going? && FlightOrTaken(s, run, outcome) && !outcome.Cancelled?
    requires run in step.before ==> step.before[run].outcome == outcome
    ensures FlightOrTaken(Beaten(cfg, s, step), run, outcome)
  {
    BookkeptSlotsRun(cfg, base, s);
    ReapSettles(cfg, s, step.before, run, outcome);
    FirstReapIsBookkept(cfg, base, s, step);
    var reaped := Reap(cfg, s, step.before);
    SameCoreSettles(reaped, Tick(reaped, step.dtBeats), run, outcome);
    BeatsSettle(cfg, Tick(reaped, step.dtBeats), step.beats, run, outcome);
  }

  lemma KillPointSettles(cfg: Config, base: Loop, s: Loop, step: SuperviseIn, run: nat, outcome: WorkerOutcome)
    requires Bookkept(cfg, base, s) && s.phase.Going? && FlightOrTaken(s, run, outcome) && !outcome.Cancelled?
    requires run in step.before ==> step.before[run].outcome == outcome
    ensures FlightOrTaken(KillPoint(cfg, s, step), run, outcome)
  {
    BeatenSettles(cfg, base, s, step, run, outcome);
    BeatenIsBookkept(cfg, base, s, step);
    SweepsSettle(cfg, Beaten(cfg, s, step), step, run, outcome);
  }

  lemma SuperviseSettles(cfg: Config, base: Loop, s: Loop, step: SuperviseIn, run: nat, outcome: WorkerOutcome)
    requires Bookkept(cfg, base, s) && s.phase.Going? && FlightOrTaken(s, run, outcome) && !outcome.Cancelled?
    requires run in step.before ==> step.before[run].outcome == outcome
    requires run in step.after ==> step.after[run].outcome == outcome
    ensures FlightOrTaken(Supervise(cfg, s, step), run, outcome)
  {
    KillPointIsBookkept(cfg, base, s, step);
    KillPointSettles(cfg, base, s, step, run, outcome);
    ReapSettles(cfg, KillPoint(cfg, s, step), step.after, run, outcome);
  }

  lemma DrainSettles(cfg: Config, s: Loop, step: DrainIn, run: nat, outcome: WorkerOutcome)
    requires SlotsRun(s) && s.phase.Going? && FlightOrTaken(s, run, outcome) && !outcome.Cancelled?
    requires run in step.reaped ==> step.reaped[run].outcome == outcome
    ensures FlightOrTaken(DrainStep(cfg, s, step), run, outcome)
  {
    var now := Tick(s, step.dt);
    var killed := KillWhere(cfg, now, Everything, DrainIntent(now));
    StillEvolves(s, killed);
    SameRunsSettle(s, killed, run, outcome);
    ReapSettles(cfg, killed, step.reaped, run, outcome);
  }

  /** A pass only ever appends a slot. */
  lemma PassKeepsSlots(cfg: Config, s: Loop, top: nat, pass: PassIn)
    requires s.phase.Going?
    ensures var t := Pass(cfg, s, top, pass);
            |s.slots| <= |t.slots| && forall k :: 0 <= k < |s.slots| ==> t.slots[k] == s.slots[k]
  {
    var t := Pass(cfg, s, top, pass);
    if t.slots != s.slots {
      var polled := Tick(Tick(BeginPass(cfg, s, top), pass.dtBudget), pass.dt)
                    .(signal := Deliver(s.signal, pass.sends, pass.closes), events := Arrive(s.events, pass.arrivals));
      var later := Tick(polled, pass.dtAfter);
      assert pass.result.PollOk?;
      assert t == PlanAndSpawn(cfg, later, pass.result.plan);
      PlanSlots(cfg, later, pass.result.plan);
    }
  }

  lemma GuardsSettle(cfg: Config, s: Loop, top: nat, step: Iter, run: nat, outcome: WorkerOutcome)
    requires SlotsRun(s) && s.phase.Going? && FlightOrTaken(s, run, outcome) && !outcome.Cancelled?
    requires StepReturns(step, run, outcome)
    ensures FlightOrTaken(Guards(cfg, s, top, step), run, outcome)
  {
    var t := Guards(cfg, s, top, step);
    if s.drain.stop.Some? {
      DrainSettles(cfg, s, step.drain, run, outcome);
      assert t.slots == DrainStep(cfg, s, step.drain).slots && t.store == DrainStep(cfg, s, step.drain).store;
    } else {
      GuardsEvolve(cfg, s, top, step);
      PassKeepsSlots(cfg, s, top, step.pass);
      assert t.slots == s.slots || t == Pass(cfg, s, top, step.pass);
      SameRunsSettle(s, t, run, outcome);
    }
  }

  lemma IterateSettles(cfg: Config, base: Loop, s: Loop, step: Iter, run: nat, outcome: WorkerOutcome)
    requires Bookkept(cfg, base, s) && FlightOrTaken(s, run, outcome) && !outcome.Cancelled?
    requires StepReturns(step, run, outcome)
    ensures FlightOrTaken(Iterate(cfg, s, step), run, outcome)
  {
    if s.phase.Going? {
      var top := Tick(s, step.dtTop);
      TickIsBookkept(cfg, base, s, step.dtTop);
      SameCoreSettles(s, top, run, outcome);
      SuperviseSettles(cfg, base, top, step.supervise, run, outcome);
      SupervisedIsBookkept(cfg, base, top, step.supervise);
      var u := Supervise(cfg, top, step.supervise);
      GuardsSettle(cfg, u, top.clock, step, run, outcome);
      WaitLeavesCore(cfg, s, step, u, Guards(cfg, u, top.clock, step));
      SameCoreSettles(Guards(cfg, u, top.clock, step), Iterate(cfg, s, step), run, outcome);
    }
  }

  lemma {:induction false} RunSettles(cfg: Config, base: Loop, script: seq<Iter>, j: nat, run: nat,
                                      outcome: WorkerOutcome)
    requires IsStart(base) && j <= |script| && InFlight(Run(cfg, base, script[..j]), run)
    requires !outcome.Cancelled? && Returns(script, run, outcome)
    ensures FlightOrTaken(Run(cfg, base, script), run, outcome)
  {
    if j == |script| {
      assert script[..j] == script;
    } else {
      var init := script[..|script| - 1];
      assert init[..j] == script[..j];
      assert Returns(init, run, outcome);
      RunSettles(cfg, base, init, j, run, outcome);
      RunIsBookkept(cfg, base, init);
      IterateSettles(cfg, base, Run(cfg, base, init), script[|script| - 1], run, outcome);
    }
  }

  // ------------------------------------------------- which iteration takes a handle

  /** The run is still going when the iteration begins, and one of its reaps finds the handle finished. */
  predicate LoopTakes(cfg: Config, s: Loop, step: Iter, run: nat)
  {
    s.phase.Going? && FindsFinished(cfg, s, step, run)
  }

  /** The iterations of a run that take the handle. */
  ghost function Takers(cfg: Config, base: Loop, script: seq<Iter>, run: nat): set<nat>
  {
    if script == [] then {}
    else
      var last := |script| - 1;
      Takers(cfg, base, script[..last], run)
      + if LoopTakes(cfg, Run(cfg, base, script[..last]), script[last], run) then {last} else {}
  }

  lemma LastTaker(cfg: Config, base: Loop, script: seq<Iter>, run: nat)
    requires script != []
    ensures var last := |script| - 1;
            Takers(cfg, base, script, run)
            == Takers(cfg, base, script[..last], run)
               + if LoopTakes(cfg, Run(cfg, base, script[..last]), script[last], run) then {last} else {}
  {
  }

  lemma PrefixTakes(cfg: Config, base: Loop, script: seq<Iter>, n: nat, run: nat, m: nat)
    requires m < n <= |script|
    ensures LoopTakes(cfg, Run(cfg, base, script[..n][..m]), script[..n][m], run) <==>
            LoopTakes(cfg, Run(cfg, base, script[..m]), script[m], run)
  {
    assert script[..n][..m] == script[..m];
  }

  lemma {:induction false} TakersMean(cfg: Config, base: Loop, script: seq<Iter>, run: nat, m: nat)
    ensures m in Takers(cfg, base, script, run) <==>
            m < |script| && LoopTakes(cfg, Run(cfg, base, script[..m]), script[m], run)
  {
    if script == [] {
    } else {
      var last := |script| - 1;
      TakersMean(cfg, base, script[..last], run, m);
      LastTaker(cfg, base, script, run);
      if m < last { PrefixTakes(cfg, base, script, last, run, m); }
    }
  }

  /** The iteration with the run's handle struck out of the drain's results. */
  function Unreported(step: Iter, run: nat): Iter
  {
    step.(drain := step.drain.(reaped := step.drain.reaped - {run}))
  }

  /** A drain step that does not reap reads no results. */
  lemma IdleDrainReadsNothing(cfg: Config, s: Loop, step: Iter, run: nat)
    requires s.phase.Going? && !FindsFinished(cfg, s, step, run)
    ensures Iterate(cfg, s, Unreported(step, run)) == Iterate(cfg, s, step)
  {
    var top := Tick(s, step.dtTop);
    var u := Supervise(cfg, top, step.supervise);
    if DrainReaps(u, step.drain) {
      assert Unreported(step, run) == step;
    } else {
      assert Guards(cfg, u, top.clock, Unreported(step, run)) == Guards(cfg, u, top.clock, step);
    }
  }

  /** No row carries two natural results at once. */
  lemma UntakenIsInFlight(s: Loop, run: nat)
    requires FlightOrTaken(s, run, Ran(true, false, 0)) && FlightOrTaken(s, run, Panicked)
    ensures InFlight(s, run)
  {
  }

  /** A handle that no reap finds stays in flight. */
  lemma UnfoundStays(cfg: Config, base: Loop, s: Loop, step: Iter, run: nat)
    requires Bookkept(cfg, base, s) && InFlight(s, run) && !LoopTakes(cfg, s, step, run)
    ensures InFlight(Iterate(cfg, s, step), run)
  {
    if s.phase.Going? {
      var blind := Unreported(step, run);
      IdleDrainReadsNothing(cfg, s, step, run);
      IterateSettles(cfg, base, s, blind, run, Ran(true, false, 0));
      IterateSettles(cfg, base, s, blind, run, Panicked);
      UntakenIsInFlight(Iterate(cfg, s, step), run);
    }
  }

  /** One more iteration: the handle stays in flight unless this one, or an earlier one, takes it. */
  lemma IterateTakesExactly(cfg: Config, base: Loop, s: Loop, step: Iter, run: nat, outcome: WorkerOutcome)
    requires Bookkept(cfg, base, s) && FlightOrTaken(s, run, outcome)
    requires !outcome.Cancelled? && StepReturns(step, run, outcome)
    ensures InFlight(Iterate(cfg, s, step), run) <==> InFlight(s, run) && !LoopTakes(cfg, s, step, run)
  {
    if !InFlight(s, run) {
      IterateEvolves(cfg, s, step);
      GoneStays(s, Iterate(cfg, s, step), run);
    } else if LoopTakes(cfg, s, step, run) {
      FlightIsRunning(cfg, base, s, run);
      IterateReleases(cfg, base, s, step, run);
    } else {
      UnfoundStays(cfg, base, s, step, run);
    }
  }

  ghost predicate TakenFrom(takers: set<nat>, j: nat) { exists m :: m in takers && j <= m }

  lemma OneMoreTaker(takers: set<nat>, more: set<nat>, last: nat, takes: bool, j: nat)
    requires more == takers + (if takes then {last} else {}) && j <= last
    ensures TakenFrom(more, j) <==> TakenFrom(takers, j) || takes
  {
    if takes { assert last in more; }
    if TakenFrom(takers, j) {
      var m :| m in takers && j <= m;
      assert m in more;
    }
  }

  /** The last iteration of a run: what it adds to the takers, and to what is in flight. */
  lemma RunTakesOne(cfg: Config, base: Loop, script: seq<Iter>, run: nat, outcome: WorkerOutcome) returns (takes: bool)
    requires IsStart(base) && script != [] && !outcome.Cancelled? && StepReturns(script[|script| - 1], run, outcome)
    requires FlightOrTaken(Run(cfg, base, script[..|script| - 1]), run, outcome)
    ensures var last := |script| - 1;
            && Takers(cfg, base, script, run)
               == Takers(cfg, base, script[..last], run) + (if takes then {last} else {})
            && (InFlight(Run(cfg, base, script), run) <==> InFlight(Run(cfg, base, script[..last]), run) && !takes)
  {
    var last := |script| - 1;
    var s := Run(cfg, base, script[..last]);
    takes := LoopTakes(cfg, s, script[last], run);
    RunIsBookkept(cfg, base, script[..last]);
    IterateTakesExactly(cfg, base, s, script[last], run, outcome);
  }

  lemma TakersAreSteps(cfg: Config, base: Loop, script: seq<Iter>, run: nat)
    ensures forall m :: m in Takers(cfg, base, script, run) ==> m < |script|
  {
    forall m | m in Takers(cfg, base, script, run) ensures m < |script| { TakersMean(cfg, base, script, run, m); }
  }

  /** A handle in flight is gone at the end exactly when some later iteration of the run took it. */
  lemma {:induction false} TakenExactly(cfg: Config, base: Loop, script: seq<Iter>, j: nat, run: nat,
                                        outcome: WorkerOutcome)
    requires IsStart(base) && j <= |script| && InFlight(Run(cfg, base, script[..j]), run)
    requires !outcome.Cancelled? && Returns(script, run, outcome)
    ensures !InFlight(Run(cfg, base, script), run) <==> TakenFrom(Takers(cfg, base, script, run), j)
  {
    if j == |script| {
      assert script[..j] == script;
      TakersAreSteps(cfg, base, script, run);
    } else {
      var last := |script| - 1;
      var init := script[..last];
      assert init[..j] == script[..j];
      assert Returns(init, run, outcome);
      TakenExactly(cfg, base, init, j, run, outcome);
      RunSettles(cfg, base, init, j, run, outcome);
      var takes := RunTakesOne(cfg, base, script, run, outcome);
      OneMoreTaker(Takers(cfg, base, init, run), Takers(cfg, base, script, run), last, takes, j);
    }
  }

  // -------------------------------------------------------------- the fatal sweep

  /** What the sweep writes, whatever the awaited handle returned. */
  ghost predicate IsSwept(row: Row)
  {
    row.status.AbortedShutdown? && row.detail == UnattributedDrainAbort && row.spend == 0
  }

  /** One step of the sweep decides the row of its slot and leaves every other row and slot. */
  lemma SweepOneDecides(cfg: Config, base: Loop, s: Loop, dropped: Finish, run: nat)
    requires Bookkept(cfg, base, s) && s.slots != [] && run < |s.store.rows|
    ensures var t, first := SweepOne(cfg, s, dropped), s.slots[0].run;
            && |t.store.rows| == |s.store.rows|
            && (InFlight(t, run) <==> InFlight(s, run) && run != first)
            && (if run == first then InFlight(s, run) && IsSwept(t.store.rows[run])
                else t.store.rows[run] == s.store.rows[run])
  {
    SweepEffect(cfg, base, s, dropped);
    SweepOnRuns(cfg, base, s, dropped);
    assert s.slots[0].run in SlotRuns(s.slots);
  }

  lemma {:induction false} SweepDecides(cfg: Config, base: Loop, s: Loop, results: seq<Finish>, run: nat)
    requires Bookkept(cfg, base, s) && s.phase.Fatal? && run < |s.store.rows|
    ensures var t := SweepAll(cfg, s, results);
            && run < |t.store.rows|
            && (InFlight(s, run) ==> IsSwept(t.store.rows[run]))
            && (!InFlight(s, run) ==> t.store.rows[run] == s.store.rows[run])
    decreases |s.slots|
  {
    if s.slots != [] {
      var dropped := if results == [] then Finish(Cancelled, 0) else results[0];
      var next := SweepOne(cfg, s, dropped);
      SweepKeeps(cfg, base, s, dropped);
      SweepOneDecides(cfg, base, s, dropped, run);
      SweepDecides(cfg, base, next, if results == [] then [] else results[1..], run);
    }
  }

  lemma SweepOnRuns(cfg: Config, base: Loop, s: Loop, dropped: Finish)
    requires Bookkept(cfg, base, s) && s.slots != []
    ensures SlotRuns(SweepOne(cfg, s, dropped).slots) == SlotRuns(s.slots) - {s.slots[0].run}
  {
    SlotRunsWithout(s.slots, 0);
    assert SweepOne(cfg, s, dropped).slots == WithoutSlot(s.slots, 0);
  }

  /**
  A worker that is in flight at some point of a run and whose handle returns a
  natural result: at the end its row carries that result if and only if the
  loop itself took the handle, at whichever of its three reaps, whatever intent
  the slot had by then; that is, if and only if some later iteration that was
  still going found the handle finished. A handle left to the sweep of a fatal exit is recorded
  as an unattributed abort that spent nothing, whatever it returned.
   */
  lemma NaturalResultsWin(cfg: Config, base: Loop, script: seq<Iter>, j: nat, run: nat, outcome: WorkerOutcome,
                          results: seq<Finish>)
    requires IsStart(base) && j <= |script| && InFlight(Run(cfg, base, script[..j]), run)
    requires !outcome.Cancelled? && Returns(script, run, outcome)
    ensures var s := Run(cfg, base, script);
            var end := FatalSweep(cfg, s, results);
            && run < |end.store.rows|
            && (Records(end.store.rows[run], outcome, None) <==> !InFlight(s, run))
            && (InFlight(s, run) ==>
                  if s.phase.Fatal? then IsSwept(end.store.rows[run]) else end.store.rows[run].status.Running?)
            && (outcome.Ran? && outcome.completed ==> (end.store.rows[run].status.Completed? <==> !InFlight(s, run)))
            && (!InFlight(s, run) <==> TakenFrom(Takers(cfg, base, script, run), j))
  {
    TakenExactly(cfg, base, script, j, run, outcome);
    RunSettles(cfg, base, script, j, run, outcome);
    RunIsBookkept(cfg, base, script);
    EndDecides(cfg, base, Run(cfg, base, script), results, run, outcome);
  }

  lemma EndDecides(cfg: Config, base: Loop, s: Loop, results: seq<Finish>, run: nat, outcome: WorkerOutcome)
    requires Bookkept(cfg, base, s) && FlightOrTaken(s, run, outcome) && !outcome.Cancelled?
    ensures var end := FatalSweep(cfg, s, results);
            && run < |end.store.rows|
            && (Records(end.store.rows[run], outcome, None) <==> !InFlight(s, run))
            && (InFlight(s, run) ==>
                  if s.phase.Fatal? then IsSwept(end.store.rows[run]) else end.store.rows[run].status.Running?)
            && (outcome.Ran? && outcome.completed ==> (end.store.rows[run].status.Completed? <==> !InFlight(s, run)))
  {
    if InFlight(s, run) { FlightIsRunning(cfg, base, s, run); }
    if s.phase.Fatal? { FatalDecides(cfg, base, s, results, run); }
  }

  lemma FlightIsRunning(cfg: Config, base: Loop, s: Loop, run: nat)
    requires Bookkept(cfg, base, s) && InFlight(s, run)
    ensures run < |s.store.rows| && s.store.rows[run].status.Running?
  {
    var k :| 0 <= k < |s.slots| && s.slots[k].run == run;
    assert SlotMatches(|base.store.rows|, s, s.slots[k]);
  }

  lemma FatalDecides(cfg: Config, base: Loop, s: Loop, results: seq<Finish>, run: nat)
    requires Bookkept(cfg, base, s) && s.phase.Fatal? && run < |s.store.rows|
    ensures var end := FatalSweep(cfg, s, results);
            && run < |end.store.rows|
            && (InFlight(s, run) ==> IsSwept(end.store.rows[run]))
            && (!InFlight(s, run) ==> end.store.rows[run] == s.store.rows[run])
  {
    var killed := KillWhere(cfg, s, Everything, Drained);
    SameStateKeeps(cfg, base, s, killed);
    SlotRunsSame(s.slots, killed.slots);
    SweepDecides(cfg, base, killed, results, run);
  }
}

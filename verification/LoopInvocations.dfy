/**
Chained invocations over one durable store. An invocation ends cleanly, ends
fatally and sweeps its slots, or is killed between two iterations and leaves
its rows running; the next one may start with recovery. The clock never goes
back and the guards' configuration stays the same.
 */
module LoopInvocations {
  import opened Wrappers
  import opened RunState
  import opened Selection
  import opened LoopModel
  import opened LoopBookkeeping
  import opened RetryBudget
  import opened SpendCap
  import opened LoopGuards
  import opened LoopExit

  /** What outlives an invocation, and the last second it saw. */
  datatype Durable = Durable(store: Store, decisions: seq<Decision>, events: EventQueue, now: nat)

  const EMPTY: Durable := Durable(Store([], map[]), [], EventQueue({}, 0, []), 0)

  datatype Invocation = Invocation(
    id: string, startSecs: nat, recovers: bool, previousDay: Option<nat>, unseen: nat,
    script: seq<Iter>, swept: seq<Finish>)

  function ConfigOf(cfg: Config, inv: Invocation): Config { cfg.(invocation := inv.id, startSecs := inv.startSecs) }

  function Begin(d: Durable, inv: Invocation): Loop
  {
    InitialLoop(if inv.recovers then d.store.Recover(inv.startSecs) else d.store,
                d.decisions, d.events, inv.previousDay, inv.unseen)
  }

  function End(cfg: Config, d: Durable, inv: Invocation): Loop
  {
    var c := ConfigOf(cfg, inv);
    FatalSweep(c, Run(c, Begin(d, inv), inv.script), inv.swept)
  }

  function Play(cfg: Config, d: Durable, inv: Invocation): Durable
  {
    var end := End(cfg, d, inv);
    Durable(end.store, end.decisions, end.events, NowSecs(ConfigOf(cfg, inv), end.clock))
  }

  function PlayAll(cfg: Config, d: Durable, invs: seq<Invocation>): Durable
  {
    if invs == [] then d else Play(cfg, PlayAll(cfg, d, invs[..|invs| - 1]), invs[|invs| - 1])
  }

  /** Every invocation starts no earlier than the one before it ended. */
  ghost predicate ClockNeverGoesBack(cfg: Config, d: Durable, invs: seq<Invocation>)
  {
    forall k :: 0 <= k < |invs| ==> PlayAll(cfg, d, invs[..k]).now <= invs[k].startSecs
  }

  ghost predicate ChainIsAffordable(most: nat, invs: seq<Invocation>)
  {
    forall k :: 0 <= k < |invs| ==> ScriptIsAffordable(most, invs[k].script)
  }

  /** The guards as properties of the durable store alone. */
  ghost predicate StoreGuarded(cfg: Config, most: nat, store: Store, now: nat)
  {
    && RunningIsFree(store)
    && PacingHolds(BackoffSecs(cfg), store, now)
    && (cfg.maxTaskAttempts > 0 ==> BudgetHolds(cfg.maxTaskAttempts, store))
    && RecordedHolds(cfg.spendCap, cfg.maxWorkers, most, store.rows)
  }

  // -------------------------------------------------------------- one invocation

  lemma TimeKeepsPacing(backoff: nat, store: Store, now: nat, later: nat)
    requires PacingHolds(backoff, store, now) && now <= later
    ensures PacingHolds(backoff, store, later)
  {
    forall i: nat | i < |store.rows| ensures PastBy(store.rows[i], later) {
      assert PastBy(store.rows[i], now);
    }
    SameGuardsKeepPacing(backoff, store, store, now, later);
  }

  lemma RecoverKeepsPacing(backoff: nat, store: Store, now: nat)
    requires PacingHolds(backoff, store, now)
    ensures PacingHolds(backoff, store.Recover(now), now)
  {
    var t := store.Recover(now);
    forall i: nat | i < |t.rows| ensures PastBy(t.rows[i], now) {
      assert PastBy(store.rows[i], now);
    }
    SameGuardsKeepPacing(backoff, store, t, now, now);
  }

  lemma RecoverKeepsGuards(cfg: Config, most: nat, store: Store, now: nat)
    requires StoreGuarded(cfg, most, store, now)
    ensures StoreGuarded(cfg, most, store.Recover(now), now)
  {
    var t := store.Recover(now);
    RecoverKeepsPacing(BackoffSecs(cfg), store, now);
    if cfg.maxTaskAttempts > 0 { SameGuardsKeepBudget(cfg.maxTaskAttempts, store, t); }
    SameSpendRecorded(cfg.spendCap, cfg.maxWorkers, most, store.rows, t.rows);
  }

  lemma BeginGuarded(cfg: Config, most: nat, d: Durable, inv: Invocation)
    requires StoreGuarded(cfg, most, d.store, d.now) && d.now <= inv.startSecs
    ensures var base := Begin(d, inv); IsStart(base) && Guarded(ConfigOf(cfg, inv), most, base, base)
  {
    var base := Begin(d, inv);
    TimeKeepsPacing(BackoffSecs(cfg), d.store, d.now, inv.startSecs);
    if inv.recovers { RecoverKeepsGuards(cfg, most, d.store, inv.startSecs); }
    assert NowSecs(ConfigOf(cfg, inv), 0) == inv.startSecs;
    assert BackoffSecs(ConfigOf(cfg, inv)) == BackoffSecs(cfg);
    RecordedStartsRun(cfg.spendCap, cfg.maxWorkers, most, base.store.rows);
  }

  lemma SweepStore(cfg: Config, s: Loop, dropped: Finish)
    requires s.slots != [] && s.store.IsRunning(s.slots[0].run)
    ensures SweepOne(cfg, s, dropped).store
         == Settled(cfg, s.store, s.slots[0].run, s.slots[0].task, AbortedShutdown, UnattributedDrainAbort, false, 0,
                    NowSecs(cfg, s.clock + dropped.dt))
    ensures SweepOne(cfg, s, dropped).store.retry == s.store.retry
  {
  }

  lemma SweepStoreGuarded(cfg: Config, most: nat, base: Loop, s: Loop, dropped: Finish)
    requires s.slots != [] && Guarded(cfg, most, base, Tick(s, dropped.dt))
    requires |base.store.rows| <= s.slots[0].run && CanSettle(s.store, s.slots[0].run, s.slots[0].task)
    ensures Guarded(cfg, most, base, SweepOne(cfg, s, dropped).(slots := []))
  {
    SweepStore(cfg, s, dropped);
    SettleGuards(cfg, most, |base.store.rows|, s.store, s.slots[0].run, s.slots[0].task, AbortedShutdown,
                 UnattributedDrainAbort, false, 0, NowSecs(cfg, s.clock + dropped.dt));
  }

  lemma SweepOneGuarded(cfg: Config, most: nat, base: Loop, s: Loop, dropped: Finish)
    requires Bookkept(cfg, base, s) && Guarded(cfg, most, base, s) && s.slots != []
    ensures Guarded(cfg, most, base, SweepOne(cfg, s, dropped))
  {
    SlotCanSettle(cfg, base, s, 0);
    SameSlotsGuarded(cfg, most, base, s, Tick(s, dropped.dt));
    SweepStore(cfg, s, dropped);
    SweepStoreGuarded(cfg, most, base, s, dropped);
  }

  lemma {:induction false} SweepAllGuarded(cfg: Config, most: nat, base: Loop, s: Loop, results: seq<Finish>)
    requires Bookkept(cfg, base, s) && Guarded(cfg, most, base, s) && s.phase.Fatal?
    ensures Guarded(cfg, most, base, SweepAll(cfg, s, results))
    decreases |s.slots|
  {
    if s.slots != [] {
      var dropped := if results == [] then Finish(Cancelled, 0) else results[0];
      SweepKeeps(cfg, base, s, dropped);
      SweepOneGuarded(cfg, most, base, s, dropped);
      SweepAllGuarded(cfg, most, base, SweepOne(cfg, s, dropped), if results == [] then [] else results[1..]);
    }
  }

  lemma SweepGuarded(cfg: Config, most: nat, base: Loop, r: Loop, results: seq<Finish>)
    requires Bookkept(cfg, base, r) && Guarded(cfg, most, base, r)
    ensures Guarded(cfg, most, base, FatalSweep(cfg, r, results))
  {
    if r.phase.Fatal? {
      var killed := KillWhere(cfg, r, Everything, Drained);
      LedgerKeeps(cfg, base, r, killed);
      SameSlotsGuarded(cfg, most, base, r, killed);
      SweepAllGuarded(cfg, most, base, killed, results);
    }
  }

  lemma GuardedStore(cfg: Config, most: nat, base: Loop, s: Loop)
    requires Guarded(cfg, most, base, s)
    ensures StoreGuarded(cfg, most, s.store, NowSecs(cfg, s.clock))
  {
    HoldsMeansRecorded(cfg.spendCap, cfg.maxWorkers, most, |base.store.rows|, s.store.rows);
  }

  lemma PlayGuarded(cfg: Config, most: nat, d: Durable, inv: Invocation)
    requires StoreGuarded(cfg, most, d.store, d.now) && d.now <= inv.startSecs && ScriptIsAffordable(most, inv.script)
    ensures StoreGuarded(cfg, most, Play(cfg, d, inv).store, Play(cfg, d, inv).now)
  {
    var c, base := ConfigOf(cfg, inv), Begin(d, inv);
    BeginGuarded(cfg, most, d, inv);
    RunGuarded(c, most, base, inv.script);
    RunIsBookkept(c, base, inv.script);
    SweepGuarded(c, most, base, Run(c, base, inv.script), inv.swept);
    GuardedStore(c, most, base, End(cfg, d, inv));
    assert BackoffSecs(c) == BackoffSecs(cfg);
  }

  // ------------------------------------------------------------------- the chain

  /**
  Over every chain of invocations that starts from an empty store, with runs
  that record at most `most` each: attempt totals equal the failed, stalled,
  timed-out and stuck rows and stay within the budget, a stuck row appears
  exactly at the limit and is its task's last, no row starts inside a backoff
  window, and every day on which a run started has recorded less than the cap
  plus `maxWorkers * most`.
   */
  lemma {:induction false} ChainGuarded(cfg: Config, most: nat, invs: seq<Invocation>)
    requires ClockNeverGoesBack(cfg, EMPTY, invs) && ChainIsAffordable(most, invs)
    ensures var d := PlayAll(cfg, EMPTY, invs); StoreGuarded(cfg, most, d.store, d.now)
  {
    if invs == [] {
    } else {
      var last := |invs| - 1;
      forall k | 0 <= k < last ensures PlayAll(cfg, EMPTY, invs[..last][..k]).now <= invs[..last][k].startSecs {
        assert invs[..last][..k] == invs[..k];
        assert PlayAll(cfg, EMPTY, invs[..k]).now <= invs[k].startSecs;
      }
      ChainGuarded(cfg, most, invs[..last]);
      PlayGuarded(cfg, most, PlayAll(cfg, EMPTY, invs[..last]), invs[last]);
    }
  }

  /** An invocation that recovers first leaves no row of an earlier one running. */
  lemma RecoveryEndsThePast(cfg: Config, d: Durable, inv: Invocation)
    requires inv.recovers
    ensures var end := End(cfg, d, inv);
            && |d.store.rows| <= |end.store.rows|
            && forall i: nat :: i < |d.store.rows| ==> !end.store.rows[i].status.Running?
  {
    var c, base := ConfigOf(cfg, inv), Begin(d, inv);
    RunIsBookkept(c, base, inv.script);
    var r := Run(c, base, inv.script);
    if r.phase.Fatal? { SweepOfFatal(c, base, r, inv.swept); }
    var end := End(cfg, d, inv);
    assert PastIsKept(base, end);
    forall i: nat | i < |d.store.rows| ensures !end.store.rows[i].status.Running? {
      assert end.store.rows[i] == end.store.rows[..|base.store.rows|][i];
    }
  }
}

/**
Supervision and draining as sequences of four elementary steps, so that an
invariant of the loop only has to be checked against those.
 */
module LoopTrace {
  import opened LoopModel

  datatype Micro =
    | ReapSlot(i: nat, finish: Finish)
    | BeatSlot(j: nat, beat: nat)
    | Kill(rule: KillRule, intent: Intent)
    | Advance(dt: nat)

  /** A step that is not enabled leaves the state alone. */
  function Exec(cfg: Config, s: Loop, m: Micro): Loop
  {
    if !s.phase.Going? then s
    else
      match m
      case ReapSlot(i, finish) =>
        if i < |s.slots| && CanReturn(s.slots[i], finish) then ReapAt(cfg, s, i, finish) else s
      case BeatSlot(j, beat) => if j < |s.slots| then BeatAt(cfg, s, j, beat) else s
      case Kill(rule, intent) => KillWhere(cfg, s, rule, intent)
      case Advance(dt) => Tick(s, dt)
  }

  function ExecAll(cfg: Config, s: Loop, trace: seq<Micro>): Loop
    decreases |trace|
  {
    if trace == [] then s else ExecAll(cfg, Exec(cfg, s, trace[0]), trace[1..])
  }

  /** Every reap of the trace takes one of the given results. */
  ghost predicate ReapsOnly(trace: seq<Micro>, finishes: set<Finish>)
  {
    forall i :: 0 <= i < |trace| && trace[i].ReapSlot? ==> trace[i].finish in finishes
  }

  /** Every kill of the trace writes one of the given intents. */
  ghost predicate KillsOnly(trace: seq<Micro>, intents: set<Intent>)
  {
    forall i :: 0 <= i < |trace| && trace[i].Kill? ==> trace[i].intent in intents
  }

  lemma {:induction false} ExecAppend(cfg: Config, s: Loop, a: seq<Micro>, b: seq<Micro>)
    ensures ExecAll(cfg, s, a + b) == ExecAll(cfg, ExecAll(cfg, s, a), b)
    decreases |a|
  {
    if a == [] {
      assert a + b == b;
    } else {
      assert (a + b)[1..] == a[1..] + b && (a + b)[0] == a[0];
      ExecAppend(cfg, Exec(cfg, s, a[0]), a[1..], b);
    }
  }

  lemma ExecOne(cfg: Config, s: Loop, m: Micro)
    ensures ExecAll(cfg, s, [m]) == Exec(cfg, s, m)
  {
    assert [m][1..] == [];
    assert ExecAll(cfg, Exec(cfg, s, m), [m][1..]) == Exec(cfg, s, m);
  }

  lemma {:induction false} ReapIsTrace(cfg: Config, s: Loop, i: nat, finished: map<nat, Finish>)
    returns (trace: seq<Micro>)
    ensures ExecAll(cfg, s, trace) == ReapFrom(cfg, s, i, finished)
    ensures ReapsOnly(trace, finished.Values) && KillsOnly(trace, {})
    decreases |s.slots| - i
  {
    if !s.phase.Going? || i >= |s.slots| {
      trace := [];
    } else if IsFinished(s.slots[i], finished) {
      var m := ReapSlot(i, finished[s.slots[i].run]);
      var rest := ReapIsTrace(cfg, Exec(cfg, s, m), i, finished);
      trace := [m] + rest;
      assert trace[1..] == rest;
    } else {
      trace := ReapIsTrace(cfg, s, i + 1, finished);
    }
  }

  lemma {:induction false} BeatsAreTrace(cfg: Config, s: Loop, i: nat, beats: map<nat, nat>) returns (trace: seq<Micro>)
    ensures ExecAll(cfg, s, trace) == BeatFrom(cfg, s, i, beats)
    ensures ReapsOnly(trace, {}) && KillsOnly(trace, {})
    decreases |s.slots| - i
  {
    if !s.phase.Going? || i >= |s.slots| {
      trace := [];
    } else if s.slots[i].run in beats {
      var m := BeatSlot(i, beats[s.slots[i].run]);
      var rest := BeatsAreTrace(cfg, Exec(cfg, s, m), i + 1, beats);
      trace := [m] + rest;
      assert trace[1..] == rest;
    } else {
      trace := BeatsAreTrace(cfg, s, i + 1, beats);
    }
  }

  function SweepTrace(step: SuperviseIn): seq<Micro>
  {
    [Advance(step.dtStall), Kill(Stale, Stall), Advance(step.dtTimeout), Kill(Overdue, WorkerTimeout)]
  }

  lemma SweepsAreTrace(cfg: Config, s: Loop, step: SuperviseIn)
    requires s.phase.Going?
    ensures ExecAll(cfg, s, SweepTrace(step)) == KillSweeps(cfg, s, step)
  {
    var a, b, c, d := Advance(step.dtStall), Kill(Stale, Stall), Advance(step.dtTimeout), Kill(Overdue, WorkerTimeout);
    assert SweepTrace(step) == [a] + ([b] + ([c] + [d]));
    ExecAppend(cfg, s, [a], [b] + ([c] + [d]));
    ExecOne(cfg, s, a);
    var s1 := Exec(cfg, s, a);
    ExecAppend(cfg, s1, [b], [c] + [d]);
    ExecOne(cfg, s1, b);
    var s2 := Exec(cfg, s1, b);
    ExecAppend(cfg, s2, [c], [d]);
    ExecOne(cfg, s2, c);
    ExecOne(cfg, Exec(cfg, s2, c), d);
  }

  /** The kill sweeps and the second reap. */
  lemma KillsAreTrace(cfg: Config, s: Loop, step: SuperviseIn) returns (trace: seq<Micro>)
    requires s.phase.Going?
    ensures ExecAll(cfg, s, trace) == Reap(cfg, KillSweeps(cfg, s, step), step.after)
    ensures ReapsOnly(trace, step.after.Values) && KillsOnly(trace, {Stall, WorkerTimeout})
  {
    SweepsAreTrace(cfg, s, step);
    var last := ReapIsTrace(cfg, KillSweeps(cfg, s, step), 0, step.after);
    ExecAppend(cfg, s, SweepTrace(step), last);
    trace := SweepTrace(step) + last;
  }

  lemma SuperviseIsTrace(cfg: Config, s: Loop, step: SuperviseIn) returns (trace: seq<Micro>)
    requires s.phase.Going?
    ensures ExecAll(cfg, s, trace) == Supervise(cfg, s, step)
    ensures ReapsOnly(trace, step.before.Values + step.after.Values) && KillsOnly(trace, {Stall, WorkerTimeout})
  {
    trace := ReapIsTrace(cfg, s, 0, step.before);
    var reaped := Reap(cfg, s, step.before);
    if reaped.phase.Going? {
      var ticked := Exec(cfg, reaped, Advance(step.dtBeats));
      ExecOne(cfg, reaped, Advance(step.dtBeats));
      var beats := BeatsAreTrace(cfg, ticked, 0, step.beats);
      var beaten := BeatFrom(cfg, ticked, 0, step.beats);
      ExecAppend(cfg, s, trace, [Advance(step.dtBeats)]);
      trace := trace + [Advance(step.dtBeats)];
      ExecAppend(cfg, s, trace, beats);
      trace := trace + beats;
      if beaten.phase.Going? {
        var kills := KillsAreTrace(cfg, beaten, step);
        ExecAppend(cfg, s, trace, kills);
        trace := trace + kills;
      }
    }
  }

  /** A drain step up to, but not including, the restart of the grace window. */
  function DrainSweep(cfg: Config, s: Loop, step: DrainIn): Loop
  {
    var now := Tick(s, step.dt);
    if now.slots == [] || Reached(now.drain.deadline, now.clock)
    then Reap(cfg, KillWhere(cfg, now, Everything, DrainIntent(now)), step.reaped) else now
  }

  lemma DrainIsTrace(cfg: Config, s: Loop, step: DrainIn) returns (trace: seq<Micro>)
    requires s.phase.Going?
    ensures ExecAll(cfg, s, trace) == DrainSweep(cfg, s, step)
    ensures ReapsOnly(trace, step.reaped.Values)
    ensures KillsOnly(trace, {DrainIntent(s)})
  {
    var tick := Advance(step.dt);
    ExecOne(cfg, s, tick);
    var now := Tick(s, step.dt);
    trace := [tick];
    if now.slots == [] || Reached(now.drain.deadline, now.clock) {
      var kill := Kill(Everything, DrainIntent(now));
      ExecOne(cfg, now, kill);
      ExecAppend(cfg, s, trace, [kill]);
      trace := trace + [kill];
      var reaps := ReapIsTrace(cfg, KillWhere(cfg, now, Everything, DrainIntent(now)), 0, step.reaped);
      ExecAppend(cfg, s, trace, reaps);
      trace := trace + reaps;
    }
  }
}

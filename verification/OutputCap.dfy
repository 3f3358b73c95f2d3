/**
The combined output cap: two drain threads that share one atomic total, the
cancellation flag, and the waiting thread, as a machine over every interleaving
of their steps.
 */
module OutputCap {
  import opened Wrappers

  const OUTPUT_LIMIT: nat := 10 * 1024 * 1024
  const CHUNK: nat := 8192

  /**
  Where a drain thread is: about to read, holding a chunk, past the atomic add
  (which returned `prev`), about to kill the group, or finished.
   */
  datatype Place =
    | AtRead | Holding(chunk: seq<byte>) | Added(prev: nat, counted: seq<byte>) | Crossing | Done(crossed: bool)

  /** `taken` is everything the thread has read from its pipe. */
  datatype Drain = Drain(at: Place, buffer: seq<byte>, taken: seq<byte>, kills: nat)

  datatype Outcome =
    | Finished(exitCode: Option<int>, stdout: seq<byte>, stderr: seq<byte>)
    | OutputExceeded | Aborted | ScriptIo | WaitFailed

  /** The waiting thread polls for the exit, then joins both drains. */
  datatype Waiter = Polling | Joining(exitCode: Option<int>, stdinFailed: bool) | Returned(outcome: Outcome)

  datatype World = World(total: nat, out: Drain, err: Drain, cancelled: bool, waiter: Waiter)

  const START: World := World(0, Drain(AtRead, [], [], 0), Drain(AtRead, [], [], 0), false, Polling)

  /** Which of the two pipes. */
  datatype Pipe = Out | Err

  datatype Step =
    | Read(pipe: Pipe, bytes: seq<byte>) | EndOfFile(pipe: Pipe) | Count(pipe: Pipe) | Append(pipe: Pipe)
    | KillGroup(pipe: Pipe)
    | Cancel | ObserveExit(code: Option<int>, stdinFailed: bool) | PollError | Join

  function DrainOf(w: World, pipe: Pipe): Drain { if pipe.Out? then w.out else w.err }

  function WithDrain(w: World, pipe: Pipe, d: Drain): World { if pipe.Out? then w.(out := d) else w.(err := d) }

  /** The verdict once both drains are joined, in the order it is decided. */
  function Verdict(w: World, exitCode: Option<int>, stdinFailed: bool): Outcome
  {
    if w.total > OUTPUT_LIMIT then OutputExceeded
    else if w.cancelled then Aborted
    else if stdinFailed && exitCode.None? then ScriptIo
    else Finished(exitCode, w.out.buffer, w.err.buffer)
  }

  /** One atomic step; a step that is not enabled changes nothing. */
  function Exec(w: World, step: Step): World
  {
    match step
    case Read(pipe, bytes) =>
      var d := DrainOf(w, pipe);
      if d.at.AtRead? && 0 < |bytes| <= CHUNK
      then WithDrain(w, pipe, d.(at := Holding(bytes), taken := d.taken + bytes)) else w
    case EndOfFile(pipe) =>
      var d := DrainOf(w, pipe);
      if d.at.AtRead? then WithDrain(w, pipe, d.(at := Done(false))) else w
    case Count(pipe) =>
      var d := DrainOf(w, pipe);
      if d.at.Holding?
      then WithDrain(w, pipe, d.(at := Added(w.total, d.at.chunk))).(total := w.total + |d.at.chunk|) else w
    case Append(pipe) =>
      var d := DrainOf(w, pipe);
      if d.at.Added?
      then WithDrain(w, pipe, d.(buffer := d.buffer + d.at.counted,
                                 at := if d.at.prev + |d.at.counted| > OUTPUT_LIMIT then Crossing else AtRead)) else w
    case KillGroup(pipe) =>
      var d := DrainOf(w, pipe);
      if d.at.Crossing? then WithDrain(w, pipe, d.(at := Done(true), kills := d.kills + 1)) else w
    case Cancel => w.(cancelled := true)
    case ObserveExit(code, stdinFailed) => if w.waiter.Polling? then w.(waiter := Joining(code, stdinFailed)) else w
    case PollError => if w.waiter.Polling? then w.(waiter := Returned(WaitFailed)) else w
    case Join =>
      if w.waiter.Joining? && w.out.at.Done? && w.err.at.Done?
      then w.(waiter := Returned(Verdict(w, w.waiter.exitCode, w.waiter.stdinFailed))) else w
  }

  function ExecAll(w: World, steps: seq<Step>): World
  {
    if steps == [] then w else Exec(ExecAll(w, steps[..|steps| - 1]), steps[|steps| - 1])
  }

  // ------------------------------------------------------------- what always holds

  /** Bytes already counted that are not in the buffer yet. */
  function Pending(d: Drain): nat { if d.at.Added? then |d.at.counted| else 0 }

  /** The thread's last add crossed the limit; it will not add again. */
  predicate IsOver(d: Drain)
  {
    match d.at
    case Added(prev, counted) => prev + |counted| > OUTPUT_LIMIT
    case Crossing => true
    case Done(crossed) => crossed
    case _ => false
  }

  /** What the thread holds in its hands between the pipe and the buffer. */
  function InHand(d: Drain): seq<byte>
  {
    match d.at
    case Holding(chunk) => chunk
    case Added(_, counted) => counted
    case _ => []
  }

  predicate DrainIsSound(d: Drain, total: nat)
  {
    && d.taken == d.buffer + InHand(d)
    && |InHand(d)| <= CHUNK
    && (d.at.Added? ==> d.at.prev + |d.at.counted| <= total)
    && (d.at == Done(true) <==> d.kills > 0)
  }

  function Overs(w: World): nat { (if IsOver(w.out) then 1 else 0) + (if IsOver(w.err) then 1 else 0) }

  predicate Sound(w: World)
  {
    && DrainIsSound(w.out, w.total) && DrainIsSound(w.err, w.total)
    && w.total == |w.out.buffer| + Pending(w.out) + |w.err.buffer| + Pending(w.err)
    && w.total <= OUTPUT_LIMIT + CHUNK * Overs(w)
    && (w.total > OUTPUT_LIMIT <==> Overs(w) > 0)
    && (w.waiter.Returned? && !w.waiter.outcome.WaitFailed? ==>
          && w.out.at.Done? && w.err.at.Done?
          && (w.waiter.outcome.OutputExceeded? <==> w.total > OUTPUT_LIMIT)
          && (w.waiter.outcome.Finished? ==>
                w.waiter.outcome.stdout == w.out.buffer && w.waiter.outcome.stderr == w.err.buffer))
  }

  lemma CountIsSound(w: World, pipe: Pipe)
    requires Sound(w)
    ensures Sound(Exec(w, Count(pipe)))
  {
  }

  lemma AppendIsSound(w: World, pipe: Pipe)
    requires Sound(w)
    ensures Sound(Exec(w, Append(pipe)))
  {
    var d := DrainOf(w, pipe);
    if d.at.Added? {
      var e := DrainOf(Exec(w, Append(pipe)), pipe);
      assert e.buffer + InHand(e) == d.buffer + InHand(d);
    }
  }

  lemma ReadIsSound(w: World, pipe: Pipe, bytes: seq<byte>)
    requires Sound(w)
    ensures Sound(Exec(w, Read(pipe, bytes)))
  {
  }

  lemma EndIsSound(w: World, pipe: Pipe, step: Step)
    requires Sound(w) && (step == EndOfFile(pipe) || step == KillGroup(pipe))
    ensures Sound(Exec(w, step))
  {
  }

  lemma WaiterIsSound(w: World, step: Step)
    requires Sound(w) && (step.Cancel? || step.ObserveExit? || step.PollError? || step.Join?)
    ensures Sound(Exec(w, step))
  {
  }

  lemma StepIsSound(w: World, step: Step)
    requires Sound(w)
    ensures Sound(Exec(w, step))
  {
    match step
    case Read(pipe, bytes) => ReadIsSound(w, pipe, bytes);
    case Count(pipe) => CountIsSound(w, pipe);
    case Append(pipe) => AppendIsSound(w, pipe);
    case EndOfFile(pipe) => EndIsSound(w, pipe, EndOfFile(pipe));
    case KillGroup(pipe) => EndIsSound(w, pipe, KillGroup(pipe));
    case _ => WaiterIsSound(w, step);
  }

  lemma {:induction false} EveryRunIsSound(steps: seq<Step>)
    ensures Sound(ExecAll(START, steps))
  {
    if steps != [] {
      EveryRunIsSound(steps[..|steps| - 1]);
      StepIsSound(ExecAll(START, steps[..|steps| - 1]), steps[|steps| - 1]);
    }
  }

  /**
  Over every interleaving: the shared total is what the two buffers hold plus
  what is between add and append, and it never exceeds the limit by more than
  two chunks, so the 64-bit add never wraps.
   */
  lemma TotalIsBounded(steps: seq<Step>)
    ensures var w := ExecAll(START, steps);
            && w.total == |w.out.buffer| + |w.err.buffer| + Pending(w.out) + Pending(w.err)
            && w.total <= OUTPUT_LIMIT + 2 * CHUNK
            && w.total < 0x1_0000_0000_0000_0000
  {
    EveryRunIsSound(steps);
  }

  /**
  Whatever the interleaving, a returned wait reports the overflow exactly when
  the bytes read from both pipes exceed the limit, and then some drain has
  issued the group kill.
   */
  lemma OverflowIsReported(steps: seq<Step>)
    requires var w := ExecAll(START, steps); w.waiter.Returned? && !w.waiter.outcome.WaitFailed?
    ensures var w := ExecAll(START, steps);
            && (w.waiter.outcome.OutputExceeded? <==> |w.out.taken| + |w.err.taken| > OUTPUT_LIMIT)
            && (w.waiter.outcome.OutputExceeded? <==> w.out.kills + w.err.kills > 0)
  {
    EveryRunIsSound(steps);
  }

  /** A finished result is within the limit, complete on both pipes, and no drain killed anything. */
  lemma FinishedIsComplete(steps: seq<Step>)
    requires var w := ExecAll(START, steps); w.waiter.Returned? && w.waiter.outcome.Finished?
    ensures var w := ExecAll(START, steps);
            && w.waiter.outcome.stdout == w.out.taken && w.waiter.outcome.stderr == w.err.taken
            && |w.waiter.outcome.stdout| + |w.waiter.outcome.stderr| <= OUTPUT_LIMIT
            && w.out.at == Done(false) && w.err.at == Done(false)
            && w.out.kills + w.err.kills == 0
  {
    EveryRunIsSound(steps);
  }

  /** Once the outcome is returned no later step changes it. */
  lemma {:induction false} OutcomeIsFinal(w: World, steps: seq<Step>)
    requires w.waiter.Returned?
    ensures ExecAll(w, steps).waiter == w.waiter
  {
    if steps != [] { OutcomeIsFinal(w, steps[..|steps| - 1]); }
  }

  // ------------------------------------------------------------- what decides the answer

  predicate IsObservation(step: Step) { step.ObserveExit? || step.PollError? }

  /** The first observation of the polling wait. */
  ghost predicate IsFirstObservation(steps: seq<Step>, e: nat)
  {
    e < |steps| && IsObservation(steps[e]) && forall i :: 0 <= i < e ==> !IsObservation(steps[i])
  }

  ghost predicate CancelledBefore(steps: seq<Step>, j: nat)
    requires j <= |steps|
  {
    exists c :: 0 <= c < j && steps[c].Cancel?
  }

  /** The cancellation flag is up exactly when a cancellation was issued. */
  lemma {:induction false} FlagIsCancellation(steps: seq<Step>)
    ensures ExecAll(START, steps).cancelled <==> CancelledBefore(steps, |steps|)
  {
    if steps != [] {
      var last := |steps| - 1;
      FlagIsCancellation(steps[..last]);
      if steps[last].Cancel? {
        assert CancelledBefore(steps, |steps|);
      } else if CancelledBefore(steps[..last], last) {
        var c :| 0 <= c < last && steps[..last][c].Cancel?;
        assert steps[c].Cancel?;
      }
    }
  }

  /** While the wait polls nothing was observed; after that it holds what the first observation said. */
  lemma {:induction false} WaiterFollowsObservation(steps: seq<Step>, e: nat)
    requires e < |steps| ==> IsFirstObservation(steps, e)
    requires e >= |steps| ==> forall i :: 0 <= i < |steps| ==> !IsObservation(steps[i])
    ensures var waiter := ExecAll(START, steps).waiter;
            if e >= |steps| then waiter.Polling?
            else if steps[e].PollError? then waiter == Returned(WaitFailed)
            else waiter == Joining(steps[e].code, steps[e].stdinFailed)
                 || (waiter.Returned? && !waiter.outcome.WaitFailed?)
  {
    if steps != [] { WaiterFollowsObservation(steps[..|steps| - 1], e); }
  }

  /** The first observation, or the number of steps when there is none. */
  lemma {:induction false} FirstObservation(steps: seq<Step>) returns (e: nat)
    ensures e <= |steps|
    ensures e < |steps| ==> IsFirstObservation(steps, e)
    ensures e == |steps| ==> forall i :: 0 <= i < |steps| ==> !IsObservation(steps[i])
  {
    e := 0;
    while e < |steps| && !IsObservation(steps[e])
      invariant e <= |steps| && forall i :: 0 <= i < e ==> !IsObservation(steps[i])
    {
      e := e + 1;
    }
  }

  /** The step at which a wait that has returned did so. */
  lemma {:induction false} ReturningStep(steps: seq<Step>) returns (j: nat)
    requires ExecAll(START, steps).waiter.Returned?
    ensures j < |steps| && !ExecAll(START, steps[..j]).waiter.Returned?
    ensures ExecAll(START, steps[..j + 1]).waiter == ExecAll(START, steps).waiter
  {
    var last := |steps| - 1;
    if ExecAll(START, steps[..last]).waiter.Returned? {
      j := ReturningStep(steps[..last]);
      assert steps[..last][..j] == steps[..j] && steps[..last][..j + 1] == steps[..j + 1];
    } else {
      j := last;
      assert steps[..j + 1] == steps;
    }
  }

  lemma {:induction false} TakenIsFinal(w: World, steps: seq<Step>)
    requires w.out.at.Done? && w.err.at.Done?
    ensures var t := ExecAll(w, steps); t.out == w.out && t.err == w.err && t.total == w.total
  {
    if steps != [] { TakenIsFinal(w, steps[..|steps| - 1]); }
  }

  lemma {:induction false} ExecAppend(w: World, a: seq<Step>, b: seq<Step>)
    ensures ExecAll(w, a + b) == ExecAll(ExecAll(w, a), b)
    decreases |b|
  {
    if b == [] {
      assert a + b == a;
    } else {
      var last := |b| - 1;
      assert (a + b)[..|a + b| - 1] == a + b[..last];
      ExecAppend(w, a, b[..last]);
    }
  }

  /** What the wait answers, from what it observed, whether it was cancelled, and what both pipes gave. */
  ghost predicate IsAnswer(o: Outcome, seen: Step, cancelled: bool, stdout: seq<byte>, stderr: seq<byte>)
    requires seen.ObserveExit?
  {
    var exceeded := |stdout| + |stderr| > OUTPUT_LIMIT;
    && (o.OutputExceeded? <==> exceeded)
    && (o.Aborted? <==> !exceeded && cancelled)
    && (o.ScriptIo? <==> !exceeded && !cancelled && seen.stdinFailed && seen.code.None?)
    && (o.Finished? <==> !exceeded && !cancelled && !(seen.stdinFailed && seen.code.None?))
    && (o.Finished? ==> o.exitCode == seen.code && o.stdout == stdout && o.stderr == stderr)
  }

  /** The step that returns is a join of finished drains, and answers by what was observed and cancelled until then. */
  lemma JoinAnswers(steps: seq<Step>, e: nat, j: nat)
    requires IsFirstObservation(steps, e) && steps[e].ObserveExit? && j < |steps|
    requires !ExecAll(START, steps[..j]).waiter.Returned? && ExecAll(START, steps[..j + 1]).waiter.Returned?
    ensures var w := ExecAll(START, steps[..j + 1]);
            && e < j && steps[j].Join? && w.out.at.Done? && w.err.at.Done?
            && IsAnswer(w.waiter.outcome, steps[e], CancelledBefore(steps, j), w.out.taken, w.err.taken)
  {
    assert steps[..j + 1][..j] == steps[..j];
    WaiterFollowsObservation(steps[..j], e);
    EveryRunIsSound(steps[..j]);
    FlagIsCancellation(steps[..j]);
    assert CancelledBefore(steps[..j], j) <==> CancelledBefore(steps, j);
    ReturnIsJoin(ExecAll(START, steps[..j]), steps[j], steps[e], ExecAll(START, steps[..j + 1]));
  }

  lemma ReturnIsJoin(w: World, step: Step, seen: Step, t: World)
    requires Sound(w) && t == Exec(w, step) && !w.waiter.Returned? && t.waiter.Returned? && seen.ObserveExit?
    requires if w.waiter.Polling? then !step.PollError? else w.waiter == Joining(seen.code, seen.stdinFailed)
    ensures w.waiter.Joining? && step.Join? && t.out.at.Done? && t.err.at.Done?
    ensures IsAnswer(t.waiter.outcome, seen, w.cancelled, t.out.taken, t.err.taken)
  {
    assert step.Join?;
    VerdictAnswers(w, seen);
  }

  lemma VerdictAnswers(w: World, seen: Step)
    requires Sound(w) && seen.ObserveExit? && w.out.at.Done? && w.err.at.Done?
    ensures IsAnswer(Verdict(w, seen.code, seen.stdinFailed), seen, w.cancelled, w.out.taken, w.err.taken)
  {
  }

  /**
  Over every interleaving, a wait that returned without failing answers at one
  join by what happened before it: the overflow first, then a cancellation
  issued before that join, then a failed write to stdin with an exit without a
  code, and otherwise the code of the first exit it observed, with everything
  both pipes gave.
   */
  lemma AnswerIsDecided(steps: seq<Step>) returns (e: nat, j: nat)
    requires var w := ExecAll(START, steps); w.waiter.Returned? && !w.waiter.outcome.WaitFailed?
    ensures IsFirstObservation(steps, e) && steps[e].ObserveExit? && e < j < |steps| && steps[j].Join?
    ensures !ExecAll(START, steps[..j]).waiter.Returned? && ExecAll(START, steps[..j + 1]).waiter.Returned?
    ensures var w := ExecAll(START, steps);
            IsAnswer(w.waiter.outcome, steps[e], CancelledBefore(steps, j), w.out.taken, w.err.taken)
  {
    e := FirstObservation(steps);
    WaiterFollowsObservation(steps, e);
    j := ReturningStep(steps);
    JoinAnswers(steps, e, j);
    assert steps == steps[..j + 1] + steps[j + 1..];
    ExecAppend(START, steps[..j + 1], steps[j + 1..]);
    TakenIsFinal(ExecAll(START, steps[..j + 1]), steps[j + 1..]);
  }

  /** The wait fails exactly when the first thing it observes is an error. */
  lemma WaitFailsExactly(steps: seq<Step>)
    ensures ExecAll(START, steps).waiter == Returned(WaitFailed) <==>
            exists e: nat :: IsFirstObservation(steps, e) && steps[e].PollError?
  {
    var e := FirstObservation(steps);
    WaiterFollowsObservation(steps, e);
  }

  // ---------------------------------------------------------------- the wait gets there

  predicate AreChunks(chunks: seq<seq<byte>>) { forall i :: 0 <= i < |chunks| ==> 0 < |chunks[i]| <= CHUNK }

  /** One drain alone reads, counts and appends chunk after chunk. */
  function Feeding(pipe: Pipe, chunks: seq<seq<byte>>): seq<Step>
  {
    if chunks == [] then []
    else
      var last := |chunks| - 1;
      Feeding(pipe, chunks[..last]) + [Read(pipe, chunks[last]), Count(pipe), Append(pipe)]
  }

  /** The drain has taken and kept these bytes, and counted them. */
  ghost predicate HasFed(w: World, t: World, pipe: Pipe, bytes: seq<byte>, at: Place)
  {
    var d := DrainOf(w, pipe);
    t == WithDrain(w, pipe, d.(buffer := d.buffer + bytes, taken := d.taken + bytes, at := at))
         .(total := w.total + |bytes|)
  }

  lemma FeedsOne(w: World, pipe: Pipe, chunk: seq<byte>)
    requires DrainOf(w, pipe).at.AtRead? && 0 < |chunk| <= CHUNK
    ensures var t := Exec(Exec(Exec(w, Read(pipe, chunk)), Count(pipe)), Append(pipe));
            HasFed(w, t, pipe, chunk, if w.total + |chunk| > OUTPUT_LIMIT then Crossing else AtRead)
  {
  }

  lemma ExecThree(w: World, x: Step, y: Step, z: Step)
    ensures ExecAll(w, [x, y, z]) == Exec(Exec(Exec(w, x), y), z)
  {
    assert [x, y, z][..2] == [x, y] && [x, y][..1] == [x] && [x][..0] == [];
    assert ExecAll(w, [x]) == Exec(w, x);
    assert ExecAll(w, [x, y]) == Exec(Exec(w, x), y);
  }

  lemma {:induction false} Feeds(w: World, pipe: Pipe, chunks: seq<seq<byte>>)
    requires DrainOf(w, pipe).at.AtRead? && AreChunks(chunks) && w.total + |Concat(chunks)| <= OUTPUT_LIMIT
    ensures HasFed(w, ExecAll(w, Feeding(pipe, chunks)), pipe, Concat(chunks), AtRead)
  {
    if chunks != [] {
      var last := |chunks| - 1;
      var init, chunk := chunks[..last], chunks[last];
      Feeds(w, pipe, init);
      var mid := ExecAll(w, Feeding(pipe, init));
      FeedsOne(mid, pipe, chunk);
      ExecThree(mid, Read(pipe, chunk), Count(pipe), Append(pipe));
      ExecAppend(w, Feeding(pipe, init), [Read(pipe, chunk), Count(pipe), Append(pipe)]);
      FedTwice(w, mid, ExecAll(w, Feeding(pipe, chunks)), pipe, Concat(init), chunk);
    }
  }

  lemma FedTwice(w: World, mid: World, t: World, pipe: Pipe, a: seq<byte>, b: seq<byte>)
    requires HasFed(w, mid, pipe, a, AtRead) && HasFed(mid, t, pipe, b, AtRead)
    ensures HasFed(w, t, pipe, a + b, AtRead)
  {
    var d := DrainOf(w, pipe);
    assert d.buffer + a + b == d.buffer + (a + b) && d.taken + a + b == d.taken + (a + b);
  }

  /** Whatever the pipes give, within the limit: some schedule ends with exactly those bytes and that code. */
  lemma WithinLimitFinishes(out: seq<seq<byte>>, err: seq<seq<byte>>, code: Option<int>, stdinFailed: bool)
    requires AreChunks(out) && AreChunks(err) && |Concat(out)| + |Concat(err)| <= OUTPUT_LIMIT
    requires code.Some? || !stdinFailed
    ensures var fed := Feeding(Out, out) + Feeding(Err, err);
            var steps := fed + [EndOfFile(Out), EndOfFile(Err), ObserveExit(code, stdinFailed)] + [Join];
            ExecAll(START, steps).waiter == Returned(Finished(code, Concat(out), Concat(err)))
  {
    var fed := Feeding(Out, out) + Feeding(Err, err);
    BothFeed(out, err);
    var w := ExecAll(START, fed);
    ExecAppend(START, fed, [EndOfFile(Out), EndOfFile(Err), ObserveExit(code, stdinFailed)]);
    ExecThree(w, EndOfFile(Out), EndOfFile(Err), ObserveExit(code, stdinFailed));
    var before := fed + [EndOfFile(Out), EndOfFile(Err), ObserveExit(code, stdinFailed)];
    assert (before + [Join])[..|before|] == before;
  }

  lemma BothFeed(out: seq<seq<byte>>, err: seq<seq<byte>>)
    requires AreChunks(out) && AreChunks(err) && |Concat(out)| + |Concat(err)| <= OUTPUT_LIMIT
    ensures var w := ExecAll(START, Feeding(Out, out) + Feeding(Err, err));
            && w.out.at.AtRead? && w.out.buffer == Concat(out) && w.err.at.AtRead? && w.err.buffer == Concat(err)
            && w.total == |Concat(out)| + |Concat(err)| && !w.cancelled && w.waiter.Polling?
  {
    Feeds(START, Out, out);
    Feeds(ExecAll(START, Feeding(Out, out)), Err, err);
    ExecAppend(START, Feeding(Out, out), Feeding(Err, err));
  }

  /** And the first chunk that crosses the limit: its drain kills and ends, and the wait reports the overflow. */
  lemma CrossingEnds(out: seq<seq<byte>>, err: seq<seq<byte>>, chunk: seq<byte>, code: Option<int>, stdinFailed: bool)
    requires AreChunks(out) && AreChunks(err) && 0 < |chunk| <= CHUNK
    requires |Concat(out)| + |Concat(err)| <= OUTPUT_LIMIT < |Concat(out)| + |Concat(err)| + |chunk|
    ensures var fed := Feeding(Out, out) + Feeding(Err, err);
            var crossed := fed + [Read(Out, chunk), Count(Out), Append(Out)];
            var steps := crossed + [KillGroup(Out), EndOfFile(Err), ObserveExit(code, stdinFailed)] + [Join];
            ExecAll(START, steps).waiter == Returned(OutputExceeded) && ExecAll(START, steps).out.kills == 1
  {
    var fed := Feeding(Out, out) + Feeding(Err, err);
    var crossed := fed + [Read(Out, chunk), Count(Out), Append(Out)];
    var before := crossed + [KillGroup(Out), EndOfFile(Err), ObserveExit(code, stdinFailed)];
    BothFeed(out, err);
    KillsStay(out, err);
    var w := ExecAll(START, fed);
    FeedsOne(w, Out, chunk);
    ExecThree(w, Read(Out, chunk), Count(Out), Append(Out));
    ExecAppend(START, fed, [Read(Out, chunk), Count(Out), Append(Out)]);
    var v := ExecAll(START, crossed);
    ExecThree(v, KillGroup(Out), EndOfFile(Err), ObserveExit(code, stdinFailed));
    ExecAppend(START, crossed, [KillGroup(Out), EndOfFile(Err), ObserveExit(code, stdinFailed)]);
    assert (before + [Join])[..|before|] == before;
  }

  lemma KillsStay(out: seq<seq<byte>>, err: seq<seq<byte>>)
    requires AreChunks(out) && AreChunks(err) && |Concat(out)| + |Concat(err)| <= OUTPUT_LIMIT
    ensures ExecAll(START, Feeding(Out, out) + Feeding(Err, err)).out.kills == 0
  {
    EveryRunIsSound(Feeding(Out, out) + Feeding(Err, err));
    BothFeed(out, err);
  }

  lemma OverStays(w: World, step: Step, pipe: Pipe)
    requires IsOver(DrainOf(w, pipe))
    ensures IsOver(DrainOf(Exec(w, step), pipe)) && DrainOf(Exec(w, step), pipe).taken == DrainOf(w, pipe).taken
  {
  }

  /** A drain that crossed the limit never reads its pipe again. */
  lemma {:induction false} NoReadAfterCrossing(w: World, steps: seq<Step>, pipe: Pipe)
    requires IsOver(DrainOf(w, pipe))
    ensures IsOver(DrainOf(ExecAll(w, steps), pipe)) && DrainOf(ExecAll(w, steps), pipe).taken == DrainOf(w, pipe).taken
  {
    if steps != [] {
      NoReadAfterCrossing(w, steps[..|steps| - 1], pipe);
      OverStays(ExecAll(w, steps[..|steps| - 1]), steps[|steps| - 1], pipe);
    }
  }

  // ----------------------------------------------------------- one thread's own loop

  function Concat(chunks: seq<seq<byte>>): seq<byte>
  {
    if chunks == [] then [] else Concat(chunks[..|chunks| - 1]) + chunks[|chunks| - 1]
  }

  predicate Crosses(prev: nat, chunk: seq<byte>) { prev + |chunk| > OUTPUT_LIMIT }

  /**
  The loop of one drain thread, given the chunks its pipe delivers before the
  end of file and the values the shared add returns: it keeps every byte it
  read and stops at the first crossing chunk, or at the end of the pipe.
   */
  method DrainStream(chunks: seq<seq<byte>>, prevs: seq<nat>) returns (buffer: seq<byte>, count: nat, kills: bool)
    requires |prevs| == |chunks|
    ensures count <= |chunks| && buffer == Concat(chunks[..count])
    ensures kills <==> exists i :: 0 <= i < |chunks| && Crosses(prevs[i], chunks[i])
    ensures kills ==> count > 0 && Crosses(prevs[count - 1], chunks[count - 1])
    ensures forall i :: 0 <= i < count - 1 ==> !Crosses(prevs[i], chunks[i])
    ensures !kills ==> count == |chunks|
  {
    buffer, count, kills := [], 0, false;
    while count < |chunks|
      invariant count <= |chunks| && buffer == Concat(chunks[..count])
      invariant forall i :: 0 <= i < count ==> !Crosses(prevs[i], chunks[i])
    {
      var prev, chunk := prevs[count], chunks[count];
      assert chunks[..count + 1][..count] == chunks[..count];
      buffer := buffer + chunk;
      count := count + 1;
      if prev + |chunk| > OUTPUT_LIMIT {
        kills := true;
        assert Crosses(prevs[count - 1], chunks[count - 1]);
        return;
      }
    }
  }
}

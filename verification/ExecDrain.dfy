/**
 Collecting the output of an internal exec. One pump moves the output, in order,
 into two bounded channels; the caller drains both and then reads the exit info.
 The pump holds both senders until it has sent the exit info.
 */
module ExecDrain {
  import opened Prelude

  const EXEC_CHANNEL_CAPACITY: nat := 4

  datatype Stream = Stdout | Stderr

  datatype Chunk = Chunk(to: Stream, bytes: Bytes)

  /** `serial`: stderr is drained only once stdout has ended. A limit of None keeps everything. */
  datatype Plan = Plan(serial: bool, outLimit: Option<nat>, errLimit: Option<nat>)

  datatype Drain = Drain(buf: Bytes, done: bool)

  datatype State = State(
    plan: Plan,
    source: seq<Chunk>,
    outQueue: seq<Bytes>,
    errQueue: seq<Bytes>,
    exit: Option<int>,
    out: Drain,
    err: Drain)

  datatype Action = Push | Exit(code: int) | RecvOut | EndOut | RecvErr | EndErr

  /** What a drain holds after one more chunk: a chunk that would pass the limit is dropped whole. */
  function Keep(limit: Option<nat>, buf: Bytes, chunk: Bytes): Bytes {
    if limit.Some? && |buf| + |chunk| > limit.value then buf else buf + chunk
  }

  function Kept(limit: Option<nat>, chunks: seq<Bytes>): Bytes {
    if chunks == [] then [] else Keep(limit, Kept(limit, chunks[..|chunks| - 1]), chunks[|chunks| - 1])
  }

  lemma {:induction false} KeptWithinLimit(limit: Option<nat>, chunks: seq<Bytes>)
    ensures limit.Some? ==> |Kept(limit, chunks)| <= limit.value
    ensures limit.None? || |Join(chunks)| <= limit.value ==> Kept(limit, chunks) == Join(chunks)
  {
    if chunks != [] {
      KeptWithinLimit(limit, chunks[..|chunks| - 1]);
    }
  }

  /** The chunks that `picked` marks. */
  function Select(chunks: seq<Bytes>, picked: seq<bool>): seq<Bytes>
    requires |picked| == |chunks|
  {
    if chunks == [] then []
    else
      var n := |chunks| - 1;
      Select(chunks[..n], picked[..n]) + if picked[n] then [chunks[n]] else []
  }

  /** Exactly the chunks are picked that fit beside those picked before them. */
  predicate PicksWhatFits(limit: Option<nat>, chunks: seq<Bytes>, picked: seq<bool>)
    requires |picked| == |chunks|
  {
    chunks == [] ||
    (var n := |chunks| - 1;
     && PicksWhatFits(limit, chunks[..n], picked[..n])
     && (picked[n] <==> limit.Some? ==> |Join(Select(chunks[..n], picked[..n]))| + |chunks[n]| <= limit.value))
  }

  /** What is kept is whole chunks: every one that fits beside the kept ones before it, and no other. */
  lemma {:induction false} KeepsWholeChunks(limit: Option<nat>, chunks: seq<Bytes>, picked: seq<bool>)
    requires |picked| == |chunks| && PicksWhatFits(limit, chunks, picked)
    ensures Kept(limit, chunks) == Join(Select(chunks, picked))
  {
    if chunks != [] {
      var n := |chunks| - 1;
      KeepsWholeChunks(limit, chunks[..n], picked[..n]);
      if picked[n] {
        JoinPlus(Select(chunks[..n], picked[..n]), [chunks[n]]);
        JoinFew(chunks[n], []);
      } else {
        NilPlus(Select(chunks[..n], picked[..n]));
      }
    }
  }

  /** One drain, as the caller runs it over everything its channel delivers. */
  method DrainChannel(limit: Option<nat>, chunks: seq<Bytes>) returns (buf: Bytes)
    ensures buf == Kept(limit, chunks)
    ensures limit.Some? ==> |buf| <= limit.value
  {
    buf := [];
    for i := 0 to |chunks|
      invariant buf == Kept(limit, chunks[..i])
    {
      assert chunks[..i + 1][..i] == chunks[..i];
      if limit.Some? && |buf| + |chunks[i]| > limit.value {
        continue;
      }
      buf := buf + chunks[i];
    }
    assert chunks[..|chunks|] == chunks;
    KeptWithinLimit(limit, chunks);
  }

  // ---- the machine ----

  predicate Enabled(s: State, a: Action) {
    match a
    case Push =>
      s.source != [] && (if s.source[0].to.Stdout? then |s.outQueue| else |s.errQueue|) < EXEC_CHANNEL_CAPACITY
    case Exit(_) => s.source == [] && s.exit.None?
    case RecvOut => !s.out.done && s.outQueue != []
    case EndOut => !s.out.done && s.outQueue == [] && s.exit.Some?
    case RecvErr => !s.err.done && s.errQueue != [] && (s.plan.serial ==> s.out.done)
    case EndErr => !s.err.done && s.errQueue == [] && s.exit.Some? && (s.plan.serial ==> s.out.done)
  }

  function NextQueue(queue: seq<Bytes>, pushed: Option<Bytes>, popped: bool): seq<Bytes>
    requires popped ==> queue != []
  {
    if popped then queue[1..] else if pushed.Some? then queue + [pushed.value] else queue
  }

  function PushedTo(s: State, a: Action, stream: Stream): Option<Bytes>
    requires Enabled(s, a)
  {
    if a.Push? && s.source[0].to == stream then Some(s.source[0].bytes) else None
  }

  function Step(s: State, a: Action): State
    requires Enabled(s, a)
  {
    State(
      s.plan,
      if a.Push? then s.source[1..] else s.source,
      NextQueue(s.outQueue, PushedTo(s, a, Stdout), a.RecvOut?),
      NextQueue(s.errQueue, PushedTo(s, a, Stderr), a.RecvErr?),
      if a.Exit? then Some(a.code) else s.exit,
      Drain(if a.RecvOut? then Keep(s.plan.outLimit, s.out.buf, s.outQueue[0]) else s.out.buf, s.out.done || a.EndOut?),
      Drain(if a.RecvErr? then Keep(s.plan.errLimit, s.err.buf, s.errQueue[0]) else s.err.buf, s.err.done || a.EndErr?))
  }

  function Exec(s: State, run: seq<Action>): Option<State> {
    if run == [] then Some(s)
    else
      var before := Exec(s, run[..|run| - 1]);
      if before.Some? && Enabled(before.value, run[|run| - 1]) then Some(Step(before.value, run[|run| - 1])) else None
  }

  function Start(plan: Plan, source: seq<Chunk>): State {
    State(plan, source, [], [], None, Drain([], false), Drain([], false))
  }

  /** Both drains have ended and the exit info is there. */
  predicate Final(s: State) {
    s.out.done && s.err.done && s.exit.Some?
  }

  ghost predicate Stuck(s: State) {
    !Final(s) && forall a :: !Enabled(s, a)
  }

  // ---- what every run keeps ----

  /** The payloads of one stream, in order. */
  function Of(chunks: seq<Chunk>, stream: Stream): seq<Bytes> {
    if chunks == [] then []
    else (if chunks[0].to == stream then [chunks[0].bytes] else []) + Of(chunks[1..], stream)
  }

  /** `taken` chunks of the stream have been drained, and the others are in order in the queue and the source. */
  predicate StreamOk(all: seq<Bytes>, limit: Option<nat>, buf: Bytes, queue: seq<Bytes>, left: seq<Bytes>) {
    var taken := |all| - |queue| - |left|;
    taken >= 0 && all == all[..taken] + (queue + left) && buf == Kept(limit, all[..taken])
  }

  predicate Inv(chunks: seq<Chunk>, s: State) {
    && StreamOk(Of(chunks, Stdout), s.plan.outLimit, s.out.buf, s.outQueue, Of(s.source, Stdout))
    && StreamOk(Of(chunks, Stderr), s.plan.errLimit, s.err.buf, s.errQueue, Of(s.source, Stderr))
    && |s.outQueue| <= EXEC_CHANNEL_CAPACITY && |s.errQueue| <= EXEC_CHANNEL_CAPACITY
    && (s.exit.Some? ==> s.source == [])
    && (s.out.done ==> s.exit.Some? && s.outQueue == [])
    && (s.err.done ==> s.exit.Some? && s.errQueue == [])
    && (s.plan.serial && !s.out.done ==> |s.errQueue| + |Of(s.source, Stderr)| == |Of(chunks, Stderr)|)
  }

  lemma PushKeepsStream(all: seq<Bytes>, limit: Option<nat>, buf: Bytes, queue: seq<Bytes>, left: seq<Bytes>)
    requires left != [] && StreamOk(all, limit, buf, queue, left)
    ensures StreamOk(all, limit, buf, queue + [left[0]], left[1..])
  {
    assert queue + left == (queue + [left[0]]) + left[1..];
  }

  lemma PopKeepsStream(all: seq<Bytes>, limit: Option<nat>, buf: Bytes, queue: seq<Bytes>, left: seq<Bytes>)
    requires queue != [] && StreamOk(all, limit, buf, queue, left)
    ensures StreamOk(all, limit, Keep(limit, buf, queue[0]), queue[1..], left)
  {
    var taken := |all| - |queue| - |left|;
    assert all[taken] == queue[0];
    assert all[..taken + 1][..taken] == all[..taken];
    assert all == all[..taken + 1] + (queue[1..] + left);
  }

  lemma {:induction false} StepKeepsInv(chunks: seq<Chunk>, s: State, a: Action)
    requires Inv(chunks, s) && Enabled(s, a)
    ensures Inv(chunks, Step(s, a))
  {
    match a
    case Push =>
      var stream := s.source[0].to;
      assert Of(s.source, stream)[1..] == Of(s.source[1..], stream);
      if stream.Stdout? {
        PushKeepsStream(Of(chunks, Stdout), s.plan.outLimit, s.out.buf, s.outQueue, Of(s.source, Stdout));
        assert Of(s.source, Stderr) == Of(s.source[1..], Stderr);
      } else {
        PushKeepsStream(Of(chunks, Stderr), s.plan.errLimit, s.err.buf, s.errQueue, Of(s.source, Stderr));
        assert Of(s.source, Stdout) == Of(s.source[1..], Stdout);
      }
    case RecvOut =>
      PopKeepsStream(Of(chunks, Stdout), s.plan.outLimit, s.out.buf, s.outQueue, Of(s.source, Stdout));
    case RecvErr =>
      PopKeepsStream(Of(chunks, Stderr), s.plan.errLimit, s.err.buf, s.errQueue, Of(s.source, Stderr));
    case _ =>
  }

  lemma {:induction false} RunKeepsInv(plan: Plan, chunks: seq<Chunk>, run: seq<Action>)
    requires Exec(Start(plan, chunks), run).Some?
    ensures Inv(chunks, Exec(Start(plan, chunks), run).value) && Exec(Start(plan, chunks), run).value.plan == plan
  {
    if run == [] {
      var none: seq<Bytes> := [];
      assert Of(chunks, Stdout)[..0] == none && Of(chunks, Stderr)[..0] == none;
    } else {
      RunKeepsInv(plan, chunks, run[..|run| - 1]);
      StepKeepsInv(chunks, Exec(Start(plan, chunks), run[..|run| - 1]).value, run[|run| - 1]);
    }
  }

  // ---- progress ----

  /** Steps still to come. */
  function Measure(s: State): nat {
    2 * |s.source| + |s.outQueue| + |s.errQueue|
    + (if s.exit.None? then 1 else 0) + (if s.out.done then 0 else 1) + (if s.err.done then 0 else 1)
  }

  lemma StepDecreases(s: State, a: Action)
    requires Enabled(s, a)
    ensures Measure(Step(s, a)) == Measure(s) - 1
  {
  }

  /** Every run is finite: it has exactly as many steps as the measure has lost. */
  lemma {:induction false} RunLength(s: State, run: seq<Action>)
    requires Exec(s, run).Some?
    ensures Measure(Exec(s, run).value) + |run| == Measure(s)
  {
    if run != [] {
      RunLength(s, run[..|run| - 1]);
      StepDecreases(Exec(s, run[..|run| - 1]).value, run[|run| - 1]);
    }
  }

  /** Drains cannot block each other: concurrent ones never, serial ones if stderr fits its channel. */
  predicate DrainsFit(plan: Plan, chunks: seq<Chunk>) {
    !plan.serial || |Of(chunks, Stderr)| <= EXEC_CHANNEL_CAPACITY
  }

  lemma SomeStep(chunks: seq<Chunk>, s: State) returns (a: Action)
    requires Inv(chunks, s) && !Final(s) && DrainsFit(s.plan, chunks)
    ensures Enabled(s, a)
  {
    if s.outQueue != [] {
      a := RecvOut;
    } else if s.exit.Some? {
      a := if !s.out.done then EndOut else if s.errQueue != [] then RecvErr else EndErr;
    } else if s.source == [] {
      a := Exit(0);
    } else if Enabled(s, Push) {
      a := Push;
    } else {
      a := RecvErr;
    }
  }

  /** Whatever has happened so far, the run can be finished. */
  lemma {:induction false} CanFinish(plan: Plan, chunks: seq<Chunk>, run: seq<Action>) returns (whole: seq<Action>)
    requires Exec(Start(plan, chunks), run).Some? && DrainsFit(plan, chunks)
    ensures run <= whole && Exec(Start(plan, chunks), whole).Some? && Final(Exec(Start(plan, chunks), whole).value)
    decreases Measure(Exec(Start(plan, chunks), run).value)
  {
    var s := Exec(Start(plan, chunks), run).value;
    RunKeepsInv(plan, chunks, run);
    if Final(s) {
      whole := run;
    } else {
      var a := SomeStep(chunks, s);
      assert (run + [a])[..|run|] == run;
      StepDecreases(s, a);
      whole := CanFinish(plan, chunks, run + [a]);
    }
  }

  /** With concurrent drains no reachable state is stuck, for any order and number of chunks. */
  lemma {:induction false} ConcurrentDrainsNeverStick(plan: Plan, chunks: seq<Chunk>, run: seq<Action>)
    requires Exec(Start(plan, chunks), run).Some? && !plan.serial
    ensures !Stuck(Exec(Start(plan, chunks), run).value)
    ensures |run| <= Measure(Start(plan, chunks))
  {
    var s := Exec(Start(plan, chunks), run).value;
    RunKeepsInv(plan, chunks, run);
    RunLength(Start(plan, chunks), run);
    if !Final(s) {
      var a := SomeStep(chunks, s);
    }
  }

  /** The exit code at hand is the one the process gave. */
  lemma {:induction false} ExitIsReported(s: State, run: seq<Action>)
    requires s.exit.None? && Exec(s, run).Some? && Exec(s, run).value.exit.Some?
    ensures Exit(Exec(s, run).value.exit.value) in run
  {
    var front, a := run[..|run| - 1], run[|run| - 1];
    if Exec(s, front).value.exit.Some? {
      ExitIsReported(s, front);
      assert !a.Exit? && forall b <- front :: b in run;
    } else {
      assert a.Exit? && a in run;
    }
  }

  /** Every finished run, however scheduled, has collected the same bytes and the exit code of its process. */
  lemma FinalBuffers(plan: Plan, chunks: seq<Chunk>, run: seq<Action>)
    requires Exec(Start(plan, chunks), run).Some? && Final(Exec(Start(plan, chunks), run).value)
    ensures Exec(Start(plan, chunks), run).value.out.buf == Kept(plan.outLimit, Of(chunks, Stdout))
    ensures Exec(Start(plan, chunks), run).value.err.buf == Kept(plan.errLimit, Of(chunks, Stderr))
    ensures Exit(Exec(Start(plan, chunks), run).value.exit.value) in run
    ensures |run| == Measure(Start(plan, chunks))
  {
    RunKeepsInv(plan, chunks, run);
    RunLength(Start(plan, chunks), run);
    ExitIsReported(Start(plan, chunks), run);
    assert Of(chunks, Stdout)[..|Of(chunks, Stdout)|] == Of(chunks, Stdout);
    assert Of(chunks, Stderr)[..|Of(chunks, Stderr)|] == Of(chunks, Stderr);
  }

  /** A serial drain never ends, on any schedule, once stderr has more chunks than its channel holds. */
  lemma SerialDrainStalls(plan: Plan, chunks: seq<Chunk>, run: seq<Action>)
    requires Exec(Start(plan, chunks), run).Some? && plan.serial && |Of(chunks, Stderr)| > EXEC_CHANNEL_CAPACITY
    ensures !Exec(Start(plan, chunks), run).value.out.done && Exec(Start(plan, chunks), run).value.exit.None?
    decreases |run|
  {
    RunKeepsInv(plan, chunks, run);
    if run != [] {
      SerialDrainStalls(plan, chunks, run[..|run| - 1]);
      RunKeepsInv(plan, chunks, run[..|run| - 1]);
    }
  }

  ghost predicate Finishes(plan: Plan, chunks: seq<Chunk>, run: seq<Action>) {
    Exec(Start(plan, chunks), run).Some? && Final(Exec(Start(plan, chunks), run).value)
  }

  /** Exactly when the drains of an exec can finish at all. */
  lemma FinishesIffDrainsFit(plan: Plan, chunks: seq<Chunk>)
    ensures (exists run :: Finishes(plan, chunks, run)) <==> DrainsFit(plan, chunks)
  {
    if DrainsFit(plan, chunks) {
      var run := CanFinish(plan, chunks, []);
      assert Finishes(plan, chunks, run);
    } else {
      forall run | Exec(Start(plan, chunks), run).Some?
        ensures !Finishes(plan, chunks, run)
      {
        SerialDrainStalls(plan, chunks, run);
      }
    }
  }
}

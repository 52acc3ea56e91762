/**
 A file write from end to end: the gateway's chunking producer, the proxy's relay
 and the agent's collector, as tasks over two bounded first-in first-out channels.
 The gateway may break off; when its stream ends the proxy adds a full Close.
 */
module Upload {
  import opened Prelude
  import opened Wire
  import opened FileOps

  const STDIN_CHUNK_BYTES: nat := 64 * 1024

  /**
   `arrived` is how many frames of the body leave the gateway before its stream
   ends, `refusal` how the agent answers the revision precondition, and the rest
   the capacities of the two channels.
   */
  datatype Plan = Plan(
    content: Bytes,
    arrived: nat,
    refusal: Option<ServerFrame>,
    gatewayRoom: nat,
    agentRoom: nat)

  datatype Agent =
    | AwaitStart
    | Checking
    | Collecting(content: Bytes)
    | Writing(content: Bytes)
    | Draining(answer: ServerFrame)
    | Done

  /** `consumed` is the history of frames the agent has taken. */
  datatype State = State(
    plan: Plan,
    source: seq<ClientFrame>,
    gatewayQueue: seq<ClientFrame>,
    agentQueue: seq<ClientFrame>,
    consumed: seq<ClientFrame>,
    agent: Agent,
    writes: seq<Bytes>)

  datatype Action = Produce | Relay | TakeStart | Check | TakeFrame | CallWrite | Discard

  /** The body of an upload, after its Start. */
  function BodyFrames(content: Bytes): seq<ClientFrame> {
    StdinFrames(Chunks(content, STDIN_CHUNK_BYTES)) + [CloseFrame(true)]
  }

  lemma StdinMore(chunk: Bytes, rest: seq<Bytes>)
    ensures StdinFrames([chunk] + rest) == [Stdin(chunk)] + StdinFrames(rest)
  {
  }

  /** One more chunk moves from the content to the frames. */
  lemma ProducedMore(frames: seq<ClientFrame>, bytes: Bytes, offset: nat, size: nat)
    requires offset < |bytes| && size > 0
    ensures var end := Min(offset + size, |bytes|);
            frames + StdinFrames(Chunks(bytes[offset..], size)) ==
            (frames + [Stdin(bytes[offset..end])]) + StdinFrames(Chunks(bytes[end..], size))
  {
    var end := Min(offset + size, |bytes|);
    NextChunk(bytes, offset, size);
    StdinMore(bytes[offset..end], Chunks(bytes[end..], size));
    SplitFirst(frames, Stdin(bytes[offset..end]), StdinFrames(Chunks(bytes[end..], size)));
  }

  /** The producer's loop; an empty body is only a Close. */
  method ProduceBody(content: Option<Bytes>) returns (frames: seq<ClientFrame>)
    ensures frames == BodyFrames(if content.Some? then content.value else [])
  {
    frames := [];
    if content.Some? && content.value != [] {
      var bytes, offset := content.value, 0;
      assert bytes[0..] == bytes;
      while offset < |bytes|
        invariant offset <= |bytes|
        invariant frames + StdinFrames(Chunks(bytes[offset..], STDIN_CHUNK_BYTES)) ==
                StdinFrames(Chunks(bytes, STDIN_CHUNK_BYTES))
      {
        var end := Min(offset + STDIN_CHUNK_BYTES, |bytes|);
        ProducedMore(frames, bytes, offset, STDIN_CHUNK_BYTES);
        frames := frames + [Stdin(bytes[offset..end])];
        offset := end;
      }
      NilPlus(frames);
    }
    frames := frames + [CloseFrame(true)];
  }

  /** What the proxy relays after the Start: the frames that arrived, and its own Close. */
  function Relayed(content: Bytes, arrived: nat): seq<ClientFrame> {
    BodyFrames(content)[..Min(arrived, |BodyFrames(content)|)] + [CloseFrame(false)]
  }

  function Frames(plan: Plan): seq<ClientFrame> {
    [StartFrame] + Relayed(plan.content, plan.arrived)
  }

  function ChunksSent(chunks: seq<Bytes>, arrived: nat): seq<Bytes> {
    chunks[..Min(arrived, |chunks|)]
  }

  /** The part of the content that reached the agent. */
  function Received(plan: Plan): Bytes {
    Join(ChunksSent(Chunks(plan.content, STDIN_CHUNK_BYTES), plan.arrived))
  }

  /** Every Stdin frame of the body has left the gateway. */
  predicate AllArrived(plan: Plan) {
    plan.arrived >= |Chunks(plan.content, STDIN_CHUNK_BYTES)|
  }

  function Begin(plan: Plan): State {
    State(plan, Frames(plan), [], [], [], AwaitStart, [])
  }

  predicate Enabled(s: State, a: Action) {
    match a
    case Produce => s.source != [] && |s.gatewayQueue| < s.plan.gatewayRoom
    case Relay => s.gatewayQueue != [] && |s.agentQueue| < s.plan.agentRoom
    case TakeStart => s.agent.AwaitStart? && s.agentQueue != []
    case Check => s.agent.Checking?
    case TakeFrame => s.agent.Collecting? && s.agentQueue != []
    case CallWrite => s.agent.Writing?
    case Discard => s.agent.Draining? && s.agentQueue != []
  }

  predicate Takes(a: Action) {
    a.TakeStart? || a.TakeFrame? || a.Discard?
  }

  function AfterFrame(u: Upload): Agent {
    match u
    case Taking(content) => Collecting(content)
    case Taken(content) => Writing(content)
    case Refused(frame) => Draining(frame)
  }

  function NextAgent(s: State, a: Action): Agent
    requires Enabled(s, a)
  {
    match a
    case TakeStart => Checking
    case Check => if s.plan.refusal.Some? then Draining(s.plan.refusal.value) else Collecting([])
    case TakeFrame => AfterFrame(Take(WRITE_FILE, s.agent.content, s.agentQueue[0]))
    case CallWrite => Done
    case _ => s.agent
  }

  function Step(s: State, a: Action): State
    requires Enabled(s, a)
  {
    State(
      s.plan,
      if a.Produce? then s.source[1..] else s.source,
      if a.Produce? then s.gatewayQueue + [s.source[0]] else if a.Relay? then s.gatewayQueue[1..] else s.gatewayQueue,
      if a.Relay? then s.agentQueue + [s.gatewayQueue[0]] else if Takes(a) then s.agentQueue[1..] else s.agentQueue,
      if Takes(a) then s.consumed + [s.agentQueue[0]] else s.consumed,
      NextAgent(s, a),
      if a.CallWrite? then s.writes + [s.agent.content] else s.writes)
  }

  function Exec(plan: Plan, run: seq<Action>): Option<State> {
    if run == [] then Some(Begin(plan))
    else
      var before := Exec(plan, run[..|run| - 1]);
      if before.Some? && Enabled(before.value, run[|run| - 1]) then Some(Step(before.value, run[|run| - 1])) else None
  }

  // ---- first in, first out ----

  function InFlight(s: State): seq<ClientFrame> {
    s.consumed + (s.agentQueue + (s.gatewayQueue + s.source))
  }

  lemma MoveOver<T>(front: seq<T>, a: seq<T>, b: seq<T>)
    requires b != []
    ensures front + (a + b) == front + ((a + [b[0]]) + b[1..])
  {
  }

  lemma StepIsFifo(s: State, a: Action)
    requires Enabled(s, a)
    ensures InFlight(Step(s, a)) == InFlight(s)
  {
    if a.Produce? {
      MoveOver(s.agentQueue, s.gatewayQueue, s.source);
    } else if a.Relay? {
      var rest := s.gatewayQueue[1..] + s.source;
      assert s.gatewayQueue + s.source == [s.gatewayQueue[0]] + rest;
      assert s.agentQueue + ([s.gatewayQueue[0]] + rest) == (s.agentQueue + [s.gatewayQueue[0]]) + rest;
    } else if Takes(a) {
      var rest := s.agentQueue[1..] + (s.gatewayQueue + s.source);
      assert s.agentQueue + (s.gatewayQueue + s.source) == [s.agentQueue[0]] + rest;
      assert s.consumed + ([s.agentQueue[0]] + rest) == (s.consumed + [s.agentQueue[0]]) + rest;
    }
  }

  // ---- the agent follows the collector ----

  function Uploaded(s: State): Upload
    requires s.consumed != []
  {
    Collected(WRITE_FILE, s.consumed[1..])
  }

  predicate AgentOk(s: State) {
    match s.agent
    case AwaitStart => s.consumed == [] && s.writes == []
    case Checking => |s.consumed| == 1 && s.writes == []
    case Collecting(content) =>
      s.plan.refusal.None? && s.consumed != [] && Uploaded(s) == Taking(content) && s.writes == []
    case Writing(content) => s.plan.refusal.None? && s.consumed != [] && Uploaded(s) == Taken(content) && s.writes == []
    case Draining(answer) =>
      s.consumed != [] && (s.plan.refusal == Some(answer) || Uploaded(s) == Refused(answer)) && s.writes == []
    case Done => s.plan.refusal.None? && s.consumed != [] && Uploaded(s).Taken? && s.writes == [Uploaded(s).content]
  }

  lemma StepKeepsAgent(s: State, a: Action)
    requires AgentOk(s) && Enabled(s, a)
    ensures AgentOk(Step(s, a))
  {
    if Takes(a) && s.consumed != [] {
      var before, f := s.consumed[1..], s.agentQueue[0];
      assert (s.consumed + [f])[1..] == before + [f];
      assert (before + [f])[..|before + [f]| - 1] == before;
    }
  }

  lemma {:induction false} RunKeepsInv(plan: Plan, run: seq<Action>)
    requires Exec(plan, run).Some?
    ensures var s := Exec(plan, run).value; s.plan == plan && AgentOk(s) && InFlight(s) == Frames(plan)
  {
    if run == [] {
      assert InFlight(Begin(plan)) == Frames(plan);
    } else {
      RunKeepsInv(plan, run[..|run| - 1]);
      StepKeepsAgent(Exec(plan, run[..|run| - 1]).value, run[|run| - 1]);
      StepIsFifo(Exec(plan, run[..|run| - 1]).value, run[|run| - 1]);
    }
  }

  // ---- what the collector makes of a prefix of the body ----

  lemma JoinOfPrefix(chunks: seq<Bytes>, k: nat)
    requires k <= |chunks|
    ensures |Join(chunks[..k])| <= |Join(chunks)|
  {
    JoinPlus(chunks[..k], chunks[k..]);
    assert chunks[..k] + chunks[k..] == chunks;
  }

  /** `whole` says that the frames include the first Close. */
  predicate Verdict(u: Upload, content: Bytes, whole: bool) {
    && (u.Taken? ==> |content| <= MAX_WRITE_BYTES && u.content == content)
    && (u.Refused? ==> |content| > MAX_WRITE_BYTES)
    && (whole ==> !u.Taking?)
  }

  /** Chunks, a Close of either kind, and anything after it. */
  lemma ChunkVerdict(op: UploadOp, chunks: seq<Bytes>, close: ClientFrame, tail: seq<ClientFrame>, k: nat)
    requires close.CloseFrame? && k <= |chunks| + 1 + |tail|
    ensures Verdict(Collected(op, (StdinFrames(chunks) + [close] + tail)[..k]), Join(chunks), k > |chunks|)
  {
    var closed := StdinFrames(chunks) + [close];
    var all := closed + tail;
    if k <= |chunks| {
      assert all[..k] == StdinFrames(chunks[..k]);
      CollectsWhatFits(op, chunks[..k]);
      JoinOfPrefix(chunks, k);
    } else {
      assert closed[..|closed| - 1] == StdinFrames(chunks);
      CollectsWhatFits(op, chunks);
      assert all[..k] == closed + tail[..k - |closed|];
      CollectedStays(op, closed, tail[..k - |closed|]);
    }
  }

  /** The relayed frames are the chunks that arrived, a Close, and at most one more. */
  lemma RelayedShape(chunks: seq<Bytes>, arrived: nat) returns (close: ClientFrame, tail: seq<ClientFrame>)
    ensures close.CloseFrame?
    ensures var body := StdinFrames(chunks) + [CloseFrame(true)];
            body[..Min(arrived, |body|)] + [CloseFrame(false)] ==
              StdinFrames(ChunksSent(chunks, arrived)) + [close] + tail
  {
    var body := StdinFrames(chunks) + [CloseFrame(true)];
    if arrived <= |chunks| {
      close, tail := CloseFrame(false), [];
      assert body[..arrived] == StdinFrames(chunks[..arrived]);
    } else {
      close, tail := CloseFrame(true), [CloseFrame(false)];
      assert chunks[..|chunks|] == chunks && body[..|body|] == body;
    }
  }

  lemma PrefixVerdict(content: Bytes, arrived: nat, k: nat)
    requires k <= |Relayed(content, arrived)|
    ensures var sent := ChunksSent(Chunks(content, STDIN_CHUNK_BYTES), arrived);
            Verdict(Collected(WRITE_FILE, Relayed(content, arrived)[..k]), Join(sent), k > |sent|)
  {
    var chunks := Chunks(content, STDIN_CHUNK_BYTES);
    var close, tail := RelayedShape(chunks, arrived);
    ChunkVerdict(WRITE_FILE, ChunksSent(chunks, arrived), close, tail, k);
  }

  predicate MayWrite(plan: Plan) {
    plan.refusal.None? && |Received(plan)| <= MAX_WRITE_BYTES
  }

  lemma ConsumedIsPrefix(plan: Plan, s: State)
    requires InFlight(s) == Frames(plan) && s.consumed != []
    ensures s.consumed[0] == StartFrame && |s.consumed| - 1 <= |Relayed(plan.content, plan.arrived)|
    ensures s.consumed[1..] == Relayed(plan.content, plan.arrived)[..|s.consumed| - 1]
  {
    var n := |s.consumed|;
    assert s.consumed == Frames(plan)[..n];
    assert Frames(plan)[..n][1..] == Relayed(plan.content, plan.arrived)[..n - 1];
  }

  /** On every run the runtime is asked to write at most once, only what arrived, and only if it may be written. */
  lemma {:induction false} WritesWhatArrived(plan: Plan, run: seq<Action>)
    requires Exec(plan, run).Some?
    ensures var s := Exec(plan, run).value;
            && (s.writes == [] || s.writes == [Received(plan)])
            && (s.writes != [] ==> MayWrite(plan))
            && (s.agent.Done? <==> s.writes != [])
            && (s.agent.Draining? ==> !MayWrite(plan))
  {
    RunKeepsInv(plan, run);
    var s := Exec(plan, run).value;
    if s.consumed != [] {
      ConsumedIsPrefix(plan, s);
      PrefixVerdict(plan.content, plan.arrived, |s.consumed| - 1);
    }
  }

  /** A part of the chunks joins to the whole exactly when no chunk is missing. */
  lemma PartIsWhole(content: Bytes, arrived: nat)
    ensures var chunks := Chunks(content, STDIN_CHUNK_BYTES);
            Join(ChunksSent(chunks, arrived)) == content <==> arrived >= |chunks|
  {
    var chunks := Chunks(content, STDIN_CHUNK_BYTES);
    ChunksJoin(content, STDIN_CHUNK_BYTES);
    if arrived >= |chunks| {
      assert chunks[..|chunks|] == chunks;
    } else {
      JoinPlus(chunks[..arrived], chunks[arrived..]);
      assert chunks == chunks[..arrived] + chunks[arrived..];
      NonEmptyJoin(chunks[arrived..]);
    }
  }

  lemma NonEmptyJoin(pieces: seq<Bytes>)
    requires pieces != [] && |pieces[0]| > 0
    ensures |Join(pieces)| > 0
  {
    JoinPlus([pieces[0]], pieces[1..]);
    JoinFew(pieces[0], pieces[0]);
    HeadAndTail(pieces);
  }

  // ---- progress ----

  function AgentRank(agent: Agent): nat {
    match agent
    case AwaitStart => 3
    case Checking => 2
    case Collecting(_) => 1
    case Writing(_) => 1
    case _ => 0
  }

  function Measure(s: State): nat {
    3 * |s.source| + 2 * |s.gatewayQueue| + |s.agentQueue| + AgentRank(s.agent)
  }

  lemma StepDecreases(s: State, a: Action)
    requires Enabled(s, a)
    ensures Measure(Step(s, a)) < Measure(s)
  {
  }

  /** An upload that may be written is never stuck before it is written. */
  lemma {:induction false} SomeStep(plan: Plan, run: seq<Action>) returns (a: Action)
    requires Exec(plan, run).Some? && plan.gatewayRoom > 0 && plan.agentRoom > 0
    requires MayWrite(plan) && !Exec(plan, run).value.agent.Done?
    ensures Enabled(Exec(plan, run).value, a)
  {
    RunKeepsInv(plan, run);
    WritesWhatArrived(plan, run);
    var s := Exec(plan, run).value;
    if s.agent.Checking? {
      a := Check;
    } else if s.agent.Writing? {
      a := CallWrite;
    } else if s.agentQueue != [] {
      a := if s.agent.AwaitStart? then TakeStart else TakeFrame;
    } else if s.gatewayQueue != [] {
      a := Relay;
    } else {
      a := Produce;
      if s.source == [] {
        EverythingConsumed(plan, s);
        assert false;
      }
    }
  }

  /** Once nothing is in flight the agent is neither waiting for the Start nor still collecting. */
  lemma EverythingConsumed(plan: Plan, s: State)
    requires InFlight(s) == Frames(plan) && AgentOk(s) && s.agentQueue == [] && s.gatewayQueue == [] && s.source == []
    ensures !s.agent.AwaitStart? && !s.agent.Collecting?
  {
    assert InFlight(s) == s.consumed;
    ConsumedIsPrefix(plan, s);
    PrefixVerdict(plan.content, plan.arrived, |s.consumed| - 1);
  }

  /** No step is left to take. */
  ghost predicate Ended(s: State) {
    forall a :: !Enabled(s, a)
  }

  /** Every run of an upload that may be written, once it has ended, has written what arrived. */
  lemma {:induction false} EndedRunsHaveWritten(plan: Plan, run: seq<Action>)
    requires Exec(plan, run).Some? && plan.gatewayRoom > 0 && plan.agentRoom > 0 && MayWrite(plan)
    requires Ended(Exec(plan, run).value)
    ensures Exec(plan, run).value.writes == [Received(plan)]
  {
    WritesWhatArrived(plan, run);
    if !Exec(plan, run).value.agent.Done? {
      var a := SomeStep(plan, run);
      assert false;
    }
  }

  /** No run goes on for ever. */
  lemma {:induction false} RunsAreFinite(plan: Plan, run: seq<Action>)
    requires Exec(plan, run).Some?
    ensures |run| + Measure(Exec(plan, run).value) <= Measure(Begin(plan))
  {
    if run != [] {
      RunsAreFinite(plan, run[..|run| - 1]);
      StepDecreases(Exec(plan, run[..|run| - 1]).value, run[|run| - 1]);
    }
  }

  /** Wherever such a run has got to, it can go on to the write. */
  lemma {:induction false} UploadCompletes(plan: Plan, run: seq<Action>) returns (whole: seq<Action>)
    requires Exec(plan, run).Some? && plan.gatewayRoom > 0 && plan.agentRoom > 0 && MayWrite(plan)
    ensures run <= whole && Exec(plan, whole).Some? && Exec(plan, whole).value.writes == [Received(plan)]
    decreases Measure(Exec(plan, run).value)
  {
    WritesWhatArrived(plan, run);
    if Exec(plan, run).value.agent.Done? {
      whole := run;
    } else {
      var a := SomeStep(plan, run);
      assert (run + [a])[..|run|] == run;
      StepDecreases(Exec(plan, run).value, a);
      whole := UploadCompletes(plan, run + [a]);
    }
  }

  // ---- the write as the client asked for it ----

  ghost predicate Written(plan: Plan, run: seq<Action>, bytes: Bytes) {
    Exec(plan, run).Some? && Exec(plan, run).value.writes == [bytes]
  }

  /** The revision precondition of a write, in the client's terms. */
  predicate Passes(expected: string, force: bool, stat: Answer<Revision>) {
    expected == "" || force || (stat.Ok? && stat.value.token == expected)
  }

  /** A write of `content` under a precondition, from a gateway that gets `arrived` frames of its body out. */
  function PlanOf(content: Bytes, arrived: nat, expected: string, force: bool, stat: Answer<Revision>,
      rooms: (nat, nat)): Plan {
    Plan(content, arrived, PreconditionError(expected, force, stat), rooms.0, rooms.1)
  }

  /**
   The runtime is asked for some write exactly when the precondition passes and
   what arrived is within the cap, and for the whole content exactly when,
   besides, every Stdin frame arrived.
   */
  lemma {:induction false} WrittenIffAllowed(
      content: Bytes, arrived: nat, expected: string, force: bool, stat: Answer<Revision>, rooms: (nat, nat))
    requires rooms.0 > 0 && rooms.1 > 0
    ensures var plan := PlanOf(content, arrived, expected, force, stat, rooms);
            && ((exists run, bytes :: Written(plan, run, bytes)) <==>
                Passes(expected, force, stat) && |Received(plan)| <= MAX_WRITE_BYTES)
            && ((exists run :: Written(plan, run, content)) <==>
                Passes(expected, force, stat) && |content| <= MAX_WRITE_BYTES && AllArrived(plan))
  {
    var plan := PlanOf(content, arrived, expected, force, stat, rooms);
    PartIsWhole(content, arrived);
    forall run, bytes | Written(plan, run, bytes)
      ensures MayWrite(plan) && bytes == Received(plan)
    {
      WritesWhatArrived(plan, run);
    }
    if MayWrite(plan) {
      var whole := UploadCompletes(plan, []);
      assert Written(plan, whole, Received(plan));
    }
  }

  /**
   A body that breaks off after `k` frames is ended by the proxy's Close and
   written as far as it came; that is the content exactly when no Stdin frame is missing.
   */
  lemma {:induction false} BrokenUploadIsWritten(w: Write, content: Bytes, k: nat)
    requires k <= |BodyFrames(content)| && w.frames == BodyFrames(content)[..k] + [CloseFrame(false)]
    requires PreconditionError(w.expected, w.force, w.statBefore).None?
    ensures var chunks := Chunks(content, STDIN_CHUNK_BYTES);
            var sent := Join(ChunksSent(chunks, k));
            && WriteCall(w) == (if |sent| <= MAX_WRITE_BYTES then Some(sent) else None)
            && (WriteCall(w) == Some(content) <==> k >= |chunks| && |content| <= MAX_WRITE_BYTES)
  {
    assert w.frames == Relayed(content, k) && w.frames == Relayed(content, k)[..|w.frames|];
    PrefixVerdict(content, k, |w.frames|);
    PartIsWhole(content, k);
  }
}

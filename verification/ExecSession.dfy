/**
 One streaming exec session: the driver, the demux of client frames and the two
 output pumps, as tasks over bounded queues, with the runtime, the client and
 the receiver as the environment. Then many sessions over one registry.
 */
module ExecSession {
  import opened Prelude
  import opened Wire
  import opened ExecRegistry

  const CLIENT_BUFFER: nat := 256
  const SERVER_BUFFER: nat := 32
  const EXEC_BUFFER: nat := 4
  const SIGNAL_BUFFER: nat := 4
  const CLOSE_BUFFER: nat := 1

  const NOT_A_START := "first frame must be IoStart"
  const NO_EXIT_INFO := "runtime exited without sending exit info"
  const CLIENT_CLOSE := "client-initiated close"

  // ---- the demux ----

  datatype Mode = Unspawned | Active | Ended | Aborted

  /** Queues of the demux, and the histories of what it took and passed on. */
  datatype Demux = Demux(
    mode: Mode,
    stdinOpen: bool,
    stdinGone: bool,
    stdinQ: seq<Bytes>,
    signalQ: seq<nat>,
    closeQ: seq<bool>,
    consumed: seq<ClientFrame>,
    passed: seq<Bytes>,
    read: seq<Bytes>,
    signals: seq<nat>,
    closes: nat)

  /** The input makes the demux post a Close and stop. */
  predicate EndsDemux(d: Demux, input: Option<ClientFrame>) {
    match input
    case None => true
    case Some(Stdin(_)) => d.stdinOpen && d.stdinGone
    case Some(SignalFrame(_)) => false
    case Some(CloseFrame(eof)) => !eof
    case _ => true
  }

  predicate DemuxReady(d: Demux, input: Option<ClientFrame>) {
    if EndsDemux(d, input) then |d.closeQ| < CLOSE_BUFFER
    else if input.value.Stdin? then !d.stdinOpen || |d.stdinQ| < EXEC_BUFFER
    else if input.value.SignalFrame? then |d.signalQ| < SIGNAL_BUFFER
    else true
  }

  function DemuxNext(d: Demux, input: Option<ClientFrame>): Demux {
    var taken := d.(consumed := if input.Some? then d.consumed + [input.value] else d.consumed);
    if EndsDemux(d, input) then taken.(mode := Ended, closeQ := d.closeQ + [false], closes := d.closes + 1)
    else match input.value
      case Stdin(b) => if d.stdinOpen then taken.(stdinQ := d.stdinQ + [b], passed := d.passed + [b]) else taken
      case SignalFrame(n) => taken.(signalQ := d.signalQ + [n], signals := d.signals + [n])
      case CloseFrame(_) => taken.(stdinOpen := false)
      case _ => taken
  }

  // ---- what the demux should pass on, from the frames alone ----

  predicate HalfClosed(frames: seq<ClientFrame>) {
    CloseFrame(true) in frames
  }

  /** Stdin payloads before the first half-close. */
  function StdinOf(frames: seq<ClientFrame>): seq<Bytes> {
    if frames == [] then []
    else
      var front, f := frames[..|frames| - 1], frames[|frames| - 1];
      StdinOf(front) + if f.Stdin? && !HalfClosed(front) then [f.bytes] else []
  }

  function SignalsOf(frames: seq<ClientFrame>): seq<nat> {
    if frames == [] then []
    else
      var front, f := frames[..|frames| - 1], frames[|frames| - 1];
      SignalsOf(front) + if f.SignalFrame? then [f.signum] else []
  }

  predicate EndsSession(f: ClientFrame) {
    f.StartFrame? || f.Malformed? || f.ReadFailed? || f == CloseFrame(false)
  }

  /** A stdin receiver found gone loses exactly the frame that found it so. */
  predicate StdinOk(d: Demux) {
    || d.passed == StdinOf(d.consumed)
    || (d.mode != Active && d.stdinGone && d.consumed != [] && d.consumed[|d.consumed| - 1].Stdin?
        && d.passed == StdinOf(d.consumed[..|d.consumed| - 1]))
  }

  ghost predicate DemuxOk(d: Demux) {
    && (d.mode.Unspawned? ==> d.consumed == [])
    && (d.mode.Unspawned? || d.mode.Active? ==>
      && d.closes == 0 && d.closeQ == []
      && (d.stdinOpen <==> !HalfClosed(d.consumed))
      && d.passed == StdinOf(d.consumed)
      && (forall f <- d.consumed :: !EndsSession(f)))
    && (d.mode.Ended? ==> d.closes == 1)
    && d.closes <= 1 && |d.closeQ| <= d.closes
    && d.signals == SignalsOf(d.consumed)
    && StdinOk(d)
    && d.passed == d.read + d.stdinQ
  }

  lemma FramesMore(frames: seq<ClientFrame>, f: ClientFrame)
    ensures StdinOf(frames + [f]) == StdinOf(frames) + if f.Stdin? && !HalfClosed(frames) then [f.bytes] else []
    ensures SignalsOf(frames + [f]) == SignalsOf(frames) + if f.SignalFrame? then [f.signum] else []
    ensures HalfClosed(frames + [f]) <==> HalfClosed(frames) || f == CloseFrame(true)
  {
    assert (frames + [f])[..|frames + [f]| - 1] == frames;
  }

  lemma DemuxKeepsOk(d: Demux, input: Option<ClientFrame>)
    requires DemuxOk(d) && d.mode.Active? && DemuxReady(d, input)
    ensures DemuxOk(DemuxNext(d, input))
  {
    if input.Some? {
      FramesMore(d.consumed, input.value);
      assert (d.consumed + [input.value])[..|d.consumed + [input.value]| - 1] == d.consumed;
    }
  }

  // ---- the session ----

  datatype Kind = AsStdout | AsStderr

  datatype Pump = NotRunning | Pumping | Drained | Stopped

  /** One output stream: what the runtime produced, what is still queued, and its pump. */
  datatype Pipe = Pipe(queue: seq<Bytes>, closed: bool, produced: seq<Bytes>, pump: Pump)

  datatype Exit = Pending | Sent(info: ExitInfo) | Dropped

  datatype End = Unstarted | Refused | Natural(pid: int) | Killed(pid: int)

  datatype Pc =
    | AwaitStart
    | Starting
    | Registering(pid: int)
    | Announcing(pid: int)
    | Looping(pid: int)
    | Draining(pid: int, info: ExitInfo)
    | Concluding(pid: int, last: ServerFrame, kill: bool)
    | Hooking(pid: int)
    | Terminating(rec: Record)
    | Killing(rec: Record)
    | Finished(end: End)

  /** `slot` is the session's own entry of the registry; `opening` the frame
   the driver took first; `trace` every frame the server queue took. */
  datatype Session = Session(
    container: string,
    opening: seq<ClientFrame>,
    inbox: seq<ClientFrame>,
    inboxClosed: bool,
    demux: Demux,
    out: Pipe,
    err: Pipe,
    exit: Exit,
    trace: seq<ServerFrame>,
    received: nat,
    gone: bool,
    pc: Pc,
    slot: Option<Record>,
    taken: seq<nat>,
    clientSignals: seq<Signal>,
    hookSignals: seq<Signal>)

  const QUIET_DEMUX := Demux(Unspawned, true, false, [], [], [], [], [], [], [], 0)
  const QUIET_PIPE := Pipe([], false, [], NotRunning)

  function Fresh(container: string): Session {
    Session(
      container, [], [], false, QUIET_DEMUX, QUIET_PIPE, QUIET_PIPE, Pending,
      [], 0, false, AwaitStart, None, [], [], [])
  }

  datatype Action =
    | ClientSend(f: ClientFrame)
    | ClientGone
    | Produce(k: Kind, bytes: Bytes)
    | CloseOutput(k: Kind)
    | ProcessExit(exit: Exit)
    | ReadStdin
    | StdinGone
    | Receive
    | ReceiverGone
    | DemuxStep
    | PumpStep(k: Kind)
    | TakeStart
    | StartAnswer(pid: int)
    | StartRefused(detail: string)
    | Register
    | Announce
    | LoopExit
    | LoopSignal
    | LoopClose
    | PumpsJoined
    | SendTerminal
    | RemoveRecord
    | SendTerm
    | SendKill

  predicate Room(s: Session) {
    s.gone || |s.trace| - s.received < SERVER_BUFFER
  }

  function PipeOf(s: Session, k: Kind): Pipe {
    if k.AsStdout? then s.out else s.err
  }

  /** The demux's next input: a frame, the end of the stream, or nothing yet. */
  function DemuxInput(s: Session): Option<ClientFrame> {
    if s.inbox == [] then None else Some(s.inbox[0])
  }

  predicate Enabled(s: Session, a: Action) {
    match a
    case ClientSend(_) => !s.inboxClosed && |s.inbox| < CLIENT_BUFFER
    case ClientGone => true
    case Produce(k, _) => !PipeOf(s, k).closed && |PipeOf(s, k).queue| < EXEC_BUFFER
    case CloseOutput(k) => true
    case ProcessExit(e) => s.exit.Pending? && !e.Pending?
    case ReadStdin => s.demux.stdinQ != []
    case StdinGone => true
    case Receive => s.received < |s.trace|
    case ReceiverGone => true
    case DemuxStep =>
      s.demux.mode.Active? && (s.inbox != [] || s.inboxClosed) && DemuxReady(s.demux, DemuxInput(s))
    case PumpStep(k) => PipeOf(s, k).pump.Pumping? && if PipeOf(s, k).queue == [] then PipeOf(s, k).closed else Room(s)
    case TakeStart => s.pc.AwaitStart? && (s.inbox != [] || s.inboxClosed)
    case StartAnswer(_) => s.pc.Starting?
    case StartRefused(_) => s.pc.Starting?
    case Register => s.pc.Registering?
    case Announce => s.pc.Announcing? && Room(s)
    case LoopExit => s.pc.Looping? && !s.exit.Pending?
    case LoopSignal => s.pc.Looping? && s.demux.signalQ != []
    case LoopClose => s.pc.Looping? && s.demux.closeQ != []
    case PumpsJoined => s.pc.Draining? && !s.out.pump.Pumping? && !s.err.pump.Pumping?
    case SendTerminal => s.pc.Concluding? && Room(s)
    case RemoveRecord => s.pc.Hooking?
    case SendTerm => s.pc.Terminating?
    case SendKill => s.pc.Killing?
  }

  predicate ValidSignum(n: nat) {
    1 <= n <= 31 || 34 <= n <= 64
  }

  /** The control loop is left without waiting for the pumps. */
  predicate Breaks(s: Session, a: Action) {
    a.LoopClose? || (a.LoopExit? && s.exit.Dropped?)
  }

  function NextPc(s: Session, a: Action): Pc
    requires Enabled(s, a)
  {
    match a
    case TakeStart => if s.inbox != [] && s.inbox[0].StartFrame? then Starting else Finished(Unstarted)
    case StartAnswer(pid) => Registering(pid)
    case StartRefused(_) => Finished(Refused)
    case Register => Announcing(s.pc.pid)
    case Announce => if s.gone then Hooking(s.pc.pid) else Looping(s.pc.pid)
    case LoopExit =>
      if s.exit.Sent? then Draining(s.pc.pid, s.exit.info)
      else Concluding(s.pc.pid, Failure(RuntimeError, NO_EXIT_INFO), true)
    case LoopClose => Concluding(s.pc.pid, Failure(Cancelled, CLIENT_CLOSE), true)
    case PumpsJoined => Concluding(s.pc.pid, Exited(s.pc.info), false)
    case SendTerminal => if s.pc.kill then Hooking(s.pc.pid) else Finished(Natural(s.pc.pid))
    case RemoveRecord => if s.slot.Some? then Terminating(s.slot.value) else Finished(Killed(s.pc.pid))
    case SendTerm => Killing(s.pc.rec)
    case SendKill => Finished(Killed(s.pc.rec.pid))
    case _ => s.pc
  }

  function OpeningError(f: ClientFrame): seq<ServerFrame> {
    if f.StartFrame? then []
    else if f.ReadFailed? then [Failure(OtherCode("IO_STREAM_FAILED"), f.text)]
    else [Failure(InvalidRequest, NOT_A_START)]
  }

  /** The frame an action offers to the server queue, if any. */
  function Offered(s: Session, a: Action): seq<ServerFrame>
    requires Enabled(s, a)
  {
    match a
    case PumpStep(k) =>
      var q := PipeOf(s, k).queue;
      if q == [] then [] else [if k.AsStdout? then Stdout(q[0]) else Stderr(q[0])]
    case TakeStart => if s.inbox == [] then [] else OpeningError(s.inbox[0])
    case StartRefused(detail) => [Failure(RuntimeError, detail)]
    case Announce => [Started(s.pc.pid)]
    case SendTerminal => [s.pc.last]
    case _ => []
  }

  function NextDemux(s: Session, a: Action): Demux
    requires Enabled(s, a)
  {
    match a
    case ReadStdin => s.demux.(stdinQ := s.demux.stdinQ[1..], read := s.demux.read + [s.demux.stdinQ[0]])
    case StdinGone => s.demux.(stdinGone := true)
    case DemuxStep => DemuxNext(s.demux, DemuxInput(s))
    case Announce => if s.gone then s.demux else s.demux.(mode := Active)
    case LoopSignal => s.demux.(signalQ := s.demux.signalQ[1..])
    case LoopExit => s.demux.(mode := if s.demux.mode.Active? then Aborted else s.demux.mode)
    case LoopClose =>
      s.demux.(mode := if s.demux.mode.Active? then Aborted else s.demux.mode, closeQ := s.demux.closeQ[1..])
    case _ => s.demux
  }

  function NextPipe(s: Session, a: Action, k: Kind): Pipe
    requires Enabled(s, a)
  {
    var p := PipeOf(s, k);
    if a.Produce? && a.k == k then p.(queue := p.queue + [a.bytes], produced := p.produced + [a.bytes])
    else if a.CloseOutput? && a.k == k then p.(closed := true)
    else if a.Announce? && !s.gone then p.(pump := Pumping)
    else if a.PumpStep? && a.k == k then
      if p.queue == [] then p.(pump := Drained)
      else p.(queue := p.queue[1..], pump := if s.gone then Drained else p.pump)
    else if Breaks(s, a) then p.(pump := if p.pump.Pumping? then Stopped else p.pump)
    else p
  }

  function Step(s: Session, a: Action): Session
    requires Enabled(s, a)
  {
    Session(
      s.container,
      if a.TakeStart? then s.inbox[..if s.inbox == [] then 0 else 1] else s.opening,
      if a.ClientSend? then s.inbox + [a.f]
      else if (a.DemuxStep? || a.TakeStart?) && s.inbox != [] then s.inbox[1..] else s.inbox,
      s.inboxClosed || a.ClientGone?,
      NextDemux(s, a),
      NextPipe(s, a, AsStdout),
      NextPipe(s, a, AsStderr),
      if a.ProcessExit? then a.exit else s.exit,
      if s.gone then s.trace else s.trace + Offered(s, a),
      if a.Receive? then s.received + 1 else s.received,
      s.gone || a.ReceiverGone?,
      NextPc(s, a),
      if a.Register? then Some(Record(s.container, s.pc.pid))
      else if a.RemoveRecord? || (a.SendTerminal? && !s.pc.kill) then None else s.slot,
      if a.LoopSignal? then s.taken + [s.demux.signalQ[0]] else s.taken,
      if a.LoopSignal? && ValidSignum(s.demux.signalQ[0]) then
        s.clientSignals + [Signal(s.container, s.pc.pid, s.demux.signalQ[0])] else s.clientSignals,
      if a.SendTerm? then s.hookSignals + [Signal(s.pc.rec.container, s.pc.rec.pid, SIGTERM)]
      else if a.SendKill? then s.hookSignals + [Signal(s.pc.rec.container, s.pc.rec.pid, SIGKILL)] else s.hookSignals)
  }

  function Exec(container: string, run: seq<Action>): Option<Session> {
    if run == [] then Some(Fresh(container))
    else
      var before := Exec(container, run[..|run| - 1]);
      if before.Some? && Enabled(before.value, run[|run| - 1]) then Some(Step(before.value, run[|run| - 1])) else None
  }

  // ---- the grammar of server frames ----

  predicate IsOutput(f: ServerFrame) {
    f.Stdout? || f.Stderr?
  }

  /** Started, then output only. */
  predicate OpenTrace(trace: seq<ServerFrame>, pid: int) {
    && |trace| > 0 && trace[0] == Started(pid)
    && forall i :: 1 <= i < |trace| ==> IsOutput(trace[i])
  }

  /** Started, output, then one terminal: Exited after a natural exit, an error otherwise. */
  predicate CompleteTrace(trace: seq<ServerFrame>, pid: int, natural: bool) {
    && |trace| > 1 && OpenTrace(trace[..|trace| - 1], pid)
    && if natural then trace[|trace| - 1].Exited? else trace[|trace| - 1].Failure?
  }

  /** Complete, or cut short by a receiver that went away. */
  predicate ClosedTrace(s: Session, pid: int, natural: bool) {
    CompleteTrace(s.trace, pid, natural) || (s.gone && (s.trace == [] || OpenTrace(s.trace, pid)))
  }

  /** The payloads of one output kind, in order. */
  function Payloads(trace: seq<ServerFrame>, k: Kind): seq<Bytes> {
    if trace == [] then []
    else
      var front, f := trace[..|trace| - 1], trace[|trace| - 1];
      Payloads(front, k) + if (k.AsStdout? && f.Stdout?) || (k.AsStderr? && f.Stderr?) then [f.bytes] else []
  }

  lemma PayloadsMore(trace: seq<ServerFrame>, f: ServerFrame, k: Kind)
    ensures Payloads(trace + [f], k) == Payloads(trace, k) +
            if (k.AsStdout? && f.Stdout?) || (k.AsStderr? && f.Stderr?) then [f.bytes] else []
  {
    assert (trace + [f])[..|trace + [f]| - 1] == trace;
  }

  // ---- the invariant of a session ----

  predicate TraceOk(s: Session) {
    match s.pc
    case Looping(pid) => OpenTrace(s.trace, pid)
    case Draining(pid, _) => OpenTrace(s.trace, pid)
    case Concluding(pid, last, kill) => OpenTrace(s.trace, pid) && if kill then last.Failure? else last.Exited?
    case Hooking(pid) => ClosedTrace(s, pid, false)
    case Terminating(rec) => ClosedTrace(s, rec.pid, false)
    case Killing(rec) => ClosedTrace(s, rec.pid, false)
    case Finished(Killed(pid)) => ClosedTrace(s, pid, false)
    case Finished(Natural(pid)) => ClosedTrace(s, pid, true)
    case Finished(Refused) => (s.gone && s.trace == []) || (|s.trace| == 1 && s.trace[0].Failure?)
    case Finished(Unstarted) => s.trace == [] || (|s.trace| == 1 && s.trace[0].Failure?)
    case _ => s.trace == []
  }

  /** Forwarded and queued chunks are what the runtime produced; a drained pump has forwarded them all. */
  predicate PipeOk(s: Session, k: Kind) {
    !s.gone ==>
      && Payloads(s.trace, k) + PipeOf(s, k).queue == PipeOf(s, k).produced
      && (PipeOf(s, k).pump.Drained? ==> PipeOf(s, k).queue == [] && PipeOf(s, k).closed)
  }

  predicate Flowing(pc: Pc) {
    pc.Looping? || pc.Draining?
  }

  /** The pumps run from Started until the loop breaks or both have drained. */
  predicate PumpsOk(s: Session) {
    && (s.out.pump.Pumping? || s.err.pump.Pumping? ==> Flowing(s.pc))
    && (Flowing(s.pc) || (s.pc.Concluding? && !s.pc.kill) || (s.pc.Finished? && s.pc.end.Natural?) ==>
      (s.out.pump.Pumping? || s.out.pump.Drained?) && (s.err.pump.Pumping? || s.err.pump.Drained?))
  }

  /** The demux runs only beside the loop; ended, it has left the loop a Close to take. */
  predicate DemuxPhaseOk(s: Session) {
    && (s.demux.mode.Active? ==> s.pc.Looping?)
    && (s.pc.Looping? ==> s.demux.mode.Active? || (s.demux.mode.Ended? && s.demux.closeQ != []))
    && (s.pc.AwaitStart? || s.pc.Starting? || s.pc.Registering? || s.pc.Announcing? ==> s.demux.mode.Unspawned?)
  }

  /** The record is in the registry from Register until the end, and the hook signals it at most once each. */
  predicate KillOk(s: Session) {
    match s.pc
    case Announcing(pid) => s.slot == Some(Record(s.container, pid)) && s.hookSignals == []
    case Looping(pid) => s.slot == Some(Record(s.container, pid)) && s.hookSignals == []
    case Draining(pid, _) => s.slot == Some(Record(s.container, pid)) && s.hookSignals == []
    case Concluding(pid, _, _) => s.slot == Some(Record(s.container, pid)) && s.hookSignals == []
    case Hooking(pid) => s.slot == Some(Record(s.container, pid)) && s.hookSignals == []
    case Terminating(rec) => s.slot == None && rec.container == s.container && s.hookSignals == []
    case Killing(rec) =>
      s.slot == None && rec.container == s.container && s.hookSignals == [Signal(s.container, rec.pid, SIGTERM)]
    case Finished(Killed(pid)) => s.slot == None && s.hookSignals == HookSignals(Some(Record(s.container, pid)))
    case _ => s.slot == None && s.hookSignals == []
  }

  function PidOf(pc: Pc): Option<int> {
    match pc
    case AwaitStart => None
    case Starting => None
    case Terminating(rec) => Some(rec.pid)
    case Killing(rec) => Some(rec.pid)
    case Finished(end) => if end.Natural? || end.Killed? then Some(end.pid) else None
    case _ => Some(pc.pid)
  }

  /** The deliverable signals of those the loop took, in order, to the session's process. */
  function Forwarded(container: string, pid: int, taken: seq<nat>): seq<Signal> {
    if taken == [] then []
    else
      var n := taken[|taken| - 1];
      Forwarded(container, pid, taken[..|taken| - 1]) + if ValidSignum(n) then [Signal(container, pid, n)] else []
  }

  predicate SignalsOk(s: Session) {
    && s.demux.signals == s.taken + s.demux.signalQ
    && (if PidOf(s.pc).Some? then s.clientSignals == Forwarded(s.container, PidOf(s.pc).value, s.taken)
        else s.clientSignals == [] && s.taken == [] && s.demux.mode.Unspawned? && s.demux.signalQ == [])
  }

  ghost predicate Inv(s: Session) {
    && DemuxOk(s.demux) && PipeOk(s, AsStdout) && PipeOk(s, AsStderr)
    && TraceOk(s) && PumpsOk(s) && DemuxPhaseOk(s) && KillOk(s) && SignalsOk(s)
  }

  lemma StepKeepsDemux(s: Session, a: Action)
    requires DemuxOk(s.demux) && DemuxPhaseOk(s) && Enabled(s, a)
    ensures DemuxOk(Step(s, a).demux)
  {
    if a.DemuxStep? { DemuxKeepsOk(s.demux, DemuxInput(s)); }
  }

  predicate IsDriver(a: Action) {
    || a.TakeStart? || a.StartAnswer? || a.StartRefused? || a.Register? || a.Announce?
    || a.LoopExit? || a.LoopSignal? || a.LoopClose?
    || a.PumpsJoined? || a.SendTerminal? || a.RemoveRecord? || a.SendTerm? || a.SendKill?
  }

  predicate Early(a: Action) {
    a.TakeStart? || a.StartAnswer? || a.StartRefused? || a.Register? || a.Announce?
  }

  lemma EarlyKeepsPumps(s: Session, a: Action)
    requires PumpsOk(s) && Enabled(s, a) && Early(a)
    ensures PumpsOk(Step(s, a))
  {
  }

  lemma DriverKeepsPumps(s: Session, a: Action)
    requires PumpsOk(s) && Enabled(s, a) && IsDriver(a)
    ensures PumpsOk(Step(s, a))
  {
    if Early(a) { EarlyKeepsPumps(s, a); }
  }

  lemma StepKeepsPumps(s: Session, a: Action)
    requires PumpsOk(s) && Enabled(s, a)
    ensures PumpsOk(Step(s, a))
  {
    if IsDriver(a) {
      DriverKeepsPumps(s, a);
    } else {
      assert Step(s, a).pc == s.pc;
    }
  }

  lemma StepKeepsDemuxPhase(s: Session, a: Action)
    requires DemuxPhaseOk(s) && Enabled(s, a)
    ensures DemuxPhaseOk(Step(s, a))
  {
    assert !IsDriver(a) ==> Step(s, a).pc == s.pc;
  }

  /** A step offers a frame of an output kind only from that kind's pump. */
  lemma OnlyPumpsOffer(s: Session, a: Action, k: Kind)
    requires s.pc.Concluding? ==> !IsOutput(s.pc.last)
    requires Enabled(s, a) && !(a.PumpStep? && a.k == k)
    ensures Payloads(s.trace + Offered(s, a), k) == Payloads(s.trace, k)
  {
    var more := Offered(s, a);
    if more == [] {
      assert s.trace + more == s.trace;
    } else {
      PayloadsMore(s.trace, more[0], k);
      assert more == [more[0]];
    }
  }

  lemma PumpKeepsPipe(s: Session, a: Action, k: Kind)
    requires PipeOk(s, k) && Enabled(s, a) && a == PumpStep(k)
    ensures PipeOk(Step(s, a), k)
  {
    var q := PipeOf(s, k).queue;
    if q == [] {
      assert s.trace + Offered(s, a) == s.trace;
    } else {
      PayloadsMore(s.trace, Offered(s, a)[0], k);
      assert Payloads(s.trace, k) + q == (Payloads(s.trace, k) + [q[0]]) + q[1..];
    }
  }

  lemma OthersKeepPipe(s: Session, a: Action, k: Kind)
    requires PipeOk(s, k) && Enabled(s, a) && a != PumpStep(k)
    requires s.gone || Payloads(Step(s, a).trace, k) == Payloads(s.trace, k)
    ensures PipeOk(Step(s, a), k)
  {
    var p, p' := PipeOf(s, k), NextPipe(s, a, k);
    assert PipeOf(Step(s, a), k) == p';
    if !s.gone && p'.queue != p.queue {
      assert Payloads(s.trace, k) + p'.queue == (Payloads(s.trace, k) + p.queue) + [a.bytes];
    }
  }

  lemma StepKeepsPipe(s: Session, a: Action, k: Kind)
    requires PipeOk(s, k) && Enabled(s, a)
    requires s.pc.Concluding? ==> !IsOutput(s.pc.last)
    ensures PipeOk(Step(s, a), k)
  {
    if a == PumpStep(k) {
      PumpKeepsPipe(s, a, k);
    } else {
      OnlyPumpsOffer(s, a, k);
      OthersKeepPipe(s, a, k);
    }
  }

  lemma PumpKeepsTrace(s: Session, a: Action)
    requires TraceOk(s) && PumpsOk(s) && Enabled(s, a) && a.PumpStep?
    ensures TraceOk(Step(s, a))
  {
    assert Flowing(s.pc) && Step(s, a).pc == s.pc;
    if Offered(s, a) == [] { assert s.trace + Offered(s, a) == s.trace; }
  }

  lemma ConcludeKeepsTrace(s: Session, a: Action)
    requires TraceOk(s) && Enabled(s, a) && a.SendTerminal?
    ensures TraceOk(Step(s, a))
  {
    assert (s.trace + Offered(s, a))[..|s.trace|] == s.trace;
  }

  lemma DriverKeepsTrace(s: Session, a: Action)
    requires TraceOk(s) && KillOk(s) && Enabled(s, a) && IsDriver(a) && !a.SendTerminal?
    ensures TraceOk(Step(s, a))
  {
    assert Offered(s, a) == [] ==> s.trace + Offered(s, a) == s.trace;
  }

  lemma StepKeepsTrace(s: Session, a: Action)
    requires TraceOk(s) && PumpsOk(s) && KillOk(s) && Enabled(s, a)
    ensures TraceOk(Step(s, a))
  {
    if a.PumpStep? {
      PumpKeepsTrace(s, a);
    } else if a.SendTerminal? {
      ConcludeKeepsTrace(s, a);
    } else if IsDriver(a) {
      DriverKeepsTrace(s, a);
    } else {
      assert Step(s, a).pc == s.pc && Offered(s, a) == [] && s.trace + [] == s.trace;
    }
  }

  lemma EarlyKeepsKill(s: Session, a: Action)
    requires KillOk(s) && Enabled(s, a) && Early(a)
    ensures KillOk(Step(s, a))
  {
  }

  lemma DriverKeepsKill(s: Session, a: Action)
    requires KillOk(s) && Enabled(s, a) && IsDriver(a)
    ensures KillOk(Step(s, a))
  {
    if Early(a) { EarlyKeepsKill(s, a); }
  }

  lemma StepKeepsKill(s: Session, a: Action)
    requires KillOk(s) && Enabled(s, a)
    ensures KillOk(Step(s, a))
  {
    if IsDriver(a) {
      DriverKeepsKill(s, a);
    } else {
      assert Step(s, a).pc == s.pc;
    }
  }

  lemma LoopKeepsSignals(s: Session, a: Action)
    requires SignalsOk(s) && Enabled(s, a) && a.LoopSignal?
    ensures SignalsOk(Step(s, a))
  {
    var q := s.demux.signalQ;
    assert (s.taken + [q[0]])[..|s.taken + [q[0]]| - 1] == s.taken;
    assert s.taken + q == (s.taken + [q[0]]) + q[1..];
  }

  lemma DemuxKeepsSignals(s: Session, a: Action)
    requires SignalsOk(s) && DemuxPhaseOk(s) && Enabled(s, a) && a.DemuxStep?
    ensures SignalsOk(Step(s, a))
  {
    var d, d' := s.demux, Step(s, a).demux;
    assert d'.signals == d.signals + d'.signals[|d.signals|..] && d'.signalQ == d.signalQ + d'.signals[|d.signals|..];
  }

  lemma DriverKeepsSignals(s: Session, a: Action)
    requires SignalsOk(s) && KillOk(s) && Enabled(s, a) && IsDriver(a) && !a.LoopSignal?
    ensures SignalsOk(Step(s, a))
  {
    assert Step(s, a).taken == s.taken && Step(s, a).clientSignals == s.clientSignals;
    assert PidOf(s.pc).Some? ==> PidOf(Step(s, a).pc) == PidOf(s.pc);
  }

  lemma StepKeepsSignals(s: Session, a: Action)
    requires SignalsOk(s) && DemuxPhaseOk(s) && KillOk(s) && Enabled(s, a)
    ensures SignalsOk(Step(s, a))
  {
    if a.LoopSignal? {
      LoopKeepsSignals(s, a);
    } else if a.DemuxStep? {
      DemuxKeepsSignals(s, a);
    } else if IsDriver(a) {
      DriverKeepsSignals(s, a);
    } else {
      assert Step(s, a).pc == s.pc;
    }
  }

  lemma {:induction false} RunKeepsInv(container: string, run: seq<Action>)
    requires Exec(container, run).Some?
    ensures Inv(Exec(container, run).value) && Exec(container, run).value.container == container
  {
    if run != [] {
      var before, a := Exec(container, run[..|run| - 1]).value, run[|run| - 1];
      RunKeepsInv(container, run[..|run| - 1]);
      StepKeepsDemux(before, a);
      StepKeepsPumps(before, a);
      StepKeepsDemuxPhase(before, a);
      StepKeepsPipe(before, a, AsStdout);
      StepKeepsPipe(before, a, AsStderr);
      StepKeepsTrace(before, a);
      StepKeepsKill(before, a);
      StepKeepsSignals(before, a);
    }
  }

  // ---- main results for one session, over every interleaving ----

  /** The frames a session may have sent by its end. */
  predicate FinalTrace(trace: seq<ServerFrame>, end: End) {
    if end.Natural? || end.Killed? then CompleteTrace(trace, end.pid, end.Natural?)
    else (end.Unstarted? && trace == []) || (|trace| == 1 && trace[0].Failure?)
  }

  /** A finished session's frames follow the exec grammar, cut short only when the receiver went away. */
  lemma TraceGrammar(container: string, run: seq<Action>)
    requires Exec(container, run).Some? && Exec(container, run).value.pc.Finished?
    ensures var s := Exec(container, run).value;
            var end := s.pc.end;
            FinalTrace(s.trace, end) ||
            (s.gone && (s.trace == [] || ((end.Natural? || end.Killed?) && OpenTrace(s.trace, end.pid))))
  {
    RunKeepsInv(container, run);
  }

  /** After a natural exit every chunk the process wrote was sent, in order, before the exit info the runtime gave. */
  lemma NaturalExitForwardsAll(container: string, run: seq<Action>, k: Kind)
    requires Exec(container, run).Some? && !Exec(container, run).value.gone
    requires Exec(container, run).value.pc.Finished? && Exec(container, run).value.pc.end.Natural?
    ensures var s := Exec(container, run).value;
            && Payloads(s.trace, k) == PipeOf(s, k).produced && PipeOf(s, k).closed
            && s.trace != [] && s.exit.Sent? && s.trace[|s.trace| - 1] == Exited(s.exit.info)
  {
    RunKeepsInv(container, run);
    EndIsReported(container, run);
    var s := Exec(container, run).value;
    assert PipeOk(s, k) && PipeOf(s, k).pump.Drained?;
    assert Payloads(s.trace, k) + [] == Payloads(s.trace, k);
  }

  // ---- which end a session reports ----

  /** Why the control loop was left: a Close was taken, or the exit channel answered. */
  datatype Cause = Cause(closed: bool, exited: bool)

  const NO_CAUSE := Cause(false, false)

  function CauseOf(run: seq<Action>): Cause {
    Cause(LoopClose in run, LoopExit in run)
  }

  /** The report of a session that ended by itself: the very exit info the runtime sent. */
  predicate ReportsExit(s: Session, c: Cause, last: ServerFrame) {
    c == Cause(false, true) && s.exit.Sent? && last == Exited(s.exit.info)
  }

  /** The report of a session that is killed: cancelled by a Close, or left without its exit info. */
  predicate ReportsKill(s: Session, c: Cause, last: ServerFrame) {
    || (c == Cause(true, false) && last == Failure(Cancelled, CLIENT_CLOSE))
    || (c == Cause(false, true) && s.exit.Dropped? && last == Failure(RuntimeError, NO_EXIT_INFO))
  }

  /** The trace ends with the report of a killed session, if the receiver stayed for it. */
  predicate KillReported(s: Session, c: Cause) {
    !s.gone ==> s.trace != [] && ReportsKill(s, c, s.trace[|s.trace| - 1])
  }

  /** A session without a process says why it has none, unless its client never said a word. */
  predicate OpeningReported(s: Session) {
    !s.gone ==>
      if s.opening == [] then s.trace == []
      else if s.opening[0].ReadFailed? then s.trace == [Failure(OtherCode("IO_STREAM_FAILED"), s.opening[0].text)]
      else s.trace == [Failure(InvalidRequest, NOT_A_START)]
  }

  predicate EndOk(s: Session, c: Cause) {
    match s.pc
    case Draining(_, info) => c == Cause(false, true) && s.exit == Sent(info)
    case Concluding(_, last, kill) => if kill then ReportsKill(s, c, last) else ReportsExit(s, c, last)
    case Hooking(_) => KillReported(s, c)
    case Terminating(_) => KillReported(s, c)
    case Killing(_) => KillReported(s, c)
    case Finished(Killed(_)) => KillReported(s, c)
    case Finished(Natural(_)) => !s.gone ==> s.trace != [] && ReportsExit(s, c, s.trace[|s.trace| - 1])
    case Finished(Unstarted) => c == NO_CAUSE && OpeningReported(s)
    case _ => c == NO_CAUSE
  }

  function CauseAfter(c: Cause, a: Action): Cause {
    Cause(c.closed || a.LoopClose?, c.exited || a.LoopExit?)
  }

  lemma PassiveKeepsEnd(s: Session, a: Action, c: Cause)
    requires EndOk(s, c) && PumpsOk(s) && Enabled(s, a) && !IsDriver(a)
    ensures EndOk(Step(s, a), c)
  {
    assert Step(s, a).pc == s.pc && Step(s, a).opening == s.opening;
    if a.PumpStep? {
      assert Flowing(s.pc);
    } else {
      assert Offered(s, a) == [] && s.trace + [] == s.trace;
    }
  }

  lemma EarlyKeepsEnd(s: Session, a: Action, c: Cause)
    requires EndOk(s, c) && TraceOk(s) && Enabled(s, a) && Early(a)
    ensures EndOk(Step(s, a), c)
  {
    if a.TakeStart? && s.inbox != [] { assert s.inbox[..1] == [s.inbox[0]]; }
  }

  lemma LateKeepsEnd(s: Session, a: Action, c: Cause)
    requires EndOk(s, c) && Enabled(s, a) && IsDriver(a) && !Early(a)
    ensures EndOk(Step(s, a), CauseAfter(c, a))
  {
    if a.SendTerminal? {
      assert Offered(s, a) == [s.pc.last];
    } else {
      assert Offered(s, a) == [] && s.trace + [] == s.trace;
    }
  }

  lemma StepKeepsEnd(s: Session, a: Action, c: Cause)
    requires EndOk(s, c) && PumpsOk(s) && TraceOk(s) && Enabled(s, a)
    ensures EndOk(Step(s, a), CauseAfter(c, a))
  {
    if !IsDriver(a) {
      PassiveKeepsEnd(s, a, c);
    } else if Early(a) {
      EarlyKeepsEnd(s, a, c);
    } else {
      LateKeepsEnd(s, a, c);
    }
  }

  lemma CauseMore(run: seq<Action>)
    requires run != []
    ensures CauseOf(run) == CauseAfter(CauseOf(run[..|run| - 1]), run[|run| - 1])
  {
    assert run == run[..|run| - 1] + [run[|run| - 1]];
  }

  lemma {:induction false} RunKeepsEnd(container: string, run: seq<Action>)
    requires Exec(container, run).Some?
    ensures EndOk(Exec(container, run).value, CauseOf(run))
  {
    if run != [] {
      RunKeepsEnd(container, run[..|run| - 1]);
      RunKeepsInv(container, run[..|run| - 1]);
      CauseMore(run);
      StepKeepsEnd(Exec(container, run[..|run| - 1]).value, run[|run| - 1], CauseOf(run[..|run| - 1]));
    }
  }

  /**
   A finished session whose receiver stayed tells how it ended: by the exit info
   the runtime sent, by a cancellation if and only if a Close was taken, or by the
   runtime error if and only if the exit info it waited for was dropped.
   */
  lemma {:induction false} EndIsReported(container: string, run: seq<Action>)
    requires Exec(container, run).Some? && !Exec(container, run).value.gone
    requires Exec(container, run).value.pc.Finished?
    requires var end := Exec(container, run).value.pc.end; end.Natural? || end.Killed?
    ensures var s := Exec(container, run).value;
            && s.trace != []
            && var last := s.trace[|s.trace| - 1];
            && (s.pc.end.Natural? ==> s.exit.Sent? && last == Exited(s.exit.info))
            && (s.pc.end.Killed? ==>
              && (last == Failure(Cancelled, CLIENT_CLOSE) <==> LoopClose in run)
              && (last == Failure(RuntimeError, NO_EXIT_INFO) <==> LoopExit in run)
              && (LoopClose in run <==> LoopExit !in run)
              && (LoopExit in run ==> s.exit.Dropped?))
  {
    RunKeepsEnd(container, run);
  }

  /** A session that never started a process says why, as the first frame it took determines. */
  lemma {:induction false} OpeningIsAnswered(container: string, run: seq<Action>)
    requires Exec(container, run).Some? && Exec(container, run).value.pc == Finished(Unstarted)
    ensures OpeningReported(Exec(container, run).value)
  {
    RunKeepsEnd(container, run);
  }

  /** A refused start is answered with the runtime's own words. */
  lemma {:induction false} RefusalIsReported(container: string, run: seq<Action>)
    requires Exec(container, run).Some? && !Exec(container, run).value.gone
    requires Exec(container, run).value.pc == Finished(Refused)
    ensures exists detail ::
              StartRefused(detail) in run && Exec(container, run).value.trace == [Failure(RuntimeError, detail)]
  {
    var front, a := run[..|run| - 1], run[|run| - 1];
    var before := Exec(container, front).value;
    RunKeepsInv(container, front);
    if before.pc == Finished(Refused) {
      RefusalIsReported(container, front);
      assert Offered(before, a) == [] && before.trace + [] == before.trace;
      assert forall b <- front :: b in run;
    } else {
      assert a.StartRefused? && a in run;
    }
  }

  /** The demux ended the session because the client left, said so, broke the protocol, or fed a closed stdin. */
  predicate ClosedForCause(s: Session) {
    var d := s.demux;
    || (s.inboxClosed && s.inbox == [])
    || (d.consumed != [] &&
        var f := d.consumed[|d.consumed| - 1];
        EndsSession(f) || (f.Stdin? && d.stdinGone && !HalfClosed(d.consumed)))
  }

  lemma StepKeepsCause(s: Session, a: Action)
    requires s.demux.closes > 0 ==> ClosedForCause(s) && !s.demux.mode.Active?
    requires s.demux.mode.Active? ==> (s.demux.stdinOpen <==> !HalfClosed(s.demux.consumed))
    requires Enabled(s, a) && !a.TakeStart?
    ensures Step(s, a).demux.closes > 0 ==> ClosedForCause(Step(s, a))
  {
    if a.DemuxStep? {
      if s.inbox != [] { FramesMore(s.demux.consumed, s.inbox[0]); }
    } else {
      assert Step(s, a).demux.closes == s.demux.closes && Step(s, a).demux.consumed == s.demux.consumed;
    }
  }

  lemma RunKeepsModes(container: string, run: seq<Action>)
    requires Exec(container, run).Some?
    ensures var s := Exec(container, run).value;
            && (s.demux.closes > 0 ==> !s.demux.mode.Active? && !s.pc.AwaitStart?)
            && (s.demux.mode.Active? ==> (s.demux.stdinOpen <==> !HalfClosed(s.demux.consumed)))
  {
    RunKeepsInv(container, run);
  }

  /** A Close is never posted without cause. */
  lemma {:induction false} ClosesHaveCause(container: string, run: seq<Action>)
    requires Exec(container, run).Some? && Exec(container, run).value.demux.closes > 0
    ensures ClosedForCause(Exec(container, run).value)
  {
    var front, a := run[..|run| - 1], run[|run| - 1];
    RunKeepsModes(container, front);
    if Exec(container, front).value.demux.closes > 0 {
      ClosesHaveCause(container, front);
    }
    StepKeepsCause(Exec(container, front).value, a);
  }

  /** Stdin bytes, signals and the one Close, as the client frames alone determine them. */
  lemma {:induction false} DemuxDelivers(container: string, run: seq<Action>)
    requires Exec(container, run).Some?
    ensures var s := Exec(container, run).value;
            var d := s.demux;
            && StdinOk(d) && d.passed == d.read + d.stdinQ
            && SignalsOf(d.consumed) == s.taken + d.signalQ
            && (PidOf(s.pc).Some? ==> s.clientSignals == Forwarded(container, PidOf(s.pc).value, s.taken))
            && (d.mode.Ended? ==> d.closes == 1) && (d.mode.Active? ==> d.closes == 0)
            && (d.mode.Active? ==> forall input :: EndsDemux(d, input) ==> DemuxReady(d, input))
  {
    RunKeepsInv(container, run);
  }

  /** A client that closes or disappears is noticed: the loop has a Close it can take. */
  lemma {:induction false} DisconnectIsNoticed(container: string, run: seq<Action>)
    requires Exec(container, run).Some? && Exec(container, run).value.pc.Looping?
    requires !Exec(container, run).value.demux.mode.Active?
    ensures Enabled(Exec(container, run).value, LoopClose)
  {
    RunKeepsInv(container, run);
  }

  /** Every frame the client queued, in order. */
  function SentFrames(run: seq<Action>): seq<ClientFrame> {
    if run == [] then []
    else SentFrames(run[..|run| - 1]) + if run[|run| - 1].ClientSend? then [run[|run| - 1].f] else []
  }

  /** The frames of a session, wherever they are. */
  function AllFrames(s: Session): seq<ClientFrame> {
    s.opening + s.demux.consumed + s.inbox
  }

  predicate OpeningOk(s: Session) {
    && (s.pc.AwaitStart? ==> s.opening == [])
    && (s.pc.Starting? || PidOf(s.pc).Some? ==> s.opening == [StartFrame])
    && |s.opening| <= 1
  }

  lemma MoveFront<T>(a: seq<T>, b: seq<T>, c: seq<T>)
    requires c != []
    ensures a + b + c == a + (b + [c[0]]) + c[1..]
  {
  }

  lemma TakingIsFifo(s: Session, a: Action)
    requires s.pc.AwaitStart? ==> s.opening == [] && s.demux.consumed == []
    requires Enabled(s, a) && (a.DemuxStep? || a.TakeStart?)
    ensures AllFrames(Step(s, a)) == AllFrames(s)
  {
    if s.inbox != [] {
      if a.TakeStart? {
        assert s.inbox == s.inbox[..1] + s.inbox[1..];
      } else {
        MoveFront(s.opening, s.demux.consumed, s.inbox);
        assert Step(s, a).demux.consumed == s.demux.consumed + [s.inbox[0]];
      }
    }
  }

  lemma StepIsFifo(s: Session, a: Action)
    requires s.pc.AwaitStart? ==> s.opening == [] && s.demux.consumed == []
    requires Enabled(s, a)
    ensures AllFrames(Step(s, a)) == AllFrames(s) + if a.ClientSend? then [a.f] else []
  {
    if a.DemuxStep? || a.TakeStart? {
      TakingIsFifo(s, a);
    } else {
      assert Step(s, a).opening == s.opening && Step(s, a).demux.consumed == s.demux.consumed;
    }
  }

  lemma RunKeepsKill(container: string, run: seq<Action>)
    requires Exec(container, run).Some?
    ensures var s := Exec(container, run).value;
            KillOk(s) && (s.pc.AwaitStart? ==> s.demux.consumed == []) && (s.demux.mode.Active? ==> s.pc.Looping?)
  {
    RunKeepsInv(container, run);
  }

  /** The driver and the demux take exactly the frames the client sent, in order, the Start first. */
  lemma {:induction false} FramesAreFifo(container: string, run: seq<Action>)
    requires Exec(container, run).Some?
    ensures SentFrames(run) == AllFrames(Exec(container, run).value) && OpeningOk(Exec(container, run).value)
  {
    if run != [] {
      var front, a := run[..|run| - 1], run[|run| - 1];
      FramesAreFifo(container, front);
      RunKeepsKill(container, front);
      StepIsFifo(Exec(container, front).value, a);
      PidStays(Exec(container, front).value, a);
    }
  }

  /** The demux runs only after the driver took the first frame. */
  lemma {:induction false} ConsumedAfterOpening(container: string, run: seq<Action>)
    requires Exec(container, run).Some? && Exec(container, run).value.demux.consumed != []
    ensures |Exec(container, run).value.opening| == 1
  {
    var front := run[..|run| - 1];
    RunKeepsKill(container, front);
    FramesAreFifo(container, front);
    if Exec(container, front).value.demux.consumed != [] {
      ConsumedAfterOpening(container, front);
    }
  }

  lemma NotInMiddle<T>(a: seq<T>, b: seq<T>, c: seq<T>, x: T)
    requires |a| == 1 && forall i :: 1 <= i < |a + b + c| ==> (a + b + c)[i] != x
    ensures x !in b
  {
    assert forall i :: 0 <= i < |b| ==> b[i] == (a + b + c)[i + 1];
  }

  /** When no Start follows the first frame, the session is never ended by a duplicate Start. */
  lemma NoDuplicateStart(container: string, run: seq<Action>)
    requires Exec(container, run).Some?
    requires forall i :: 1 <= i < |SentFrames(run)| ==> SentFrames(run)[i] != StartFrame
    ensures StartFrame !in Exec(container, run).value.demux.consumed
  {
    var s := Exec(container, run).value;
    if s.demux.consumed != [] {
      FramesAreFifo(container, run);
      ConsumedAfterOpening(container, run);
      NotInMiddle(s.opening, s.demux.consumed, s.inbox, StartFrame);
    }
  }

  lemma PidStays(s: Session, a: Action)
    requires KillOk(s) && Enabled(s, a)
    ensures PidOf(Step(s, a).pc) == if PidOf(s.pc).None? && a.StartAnswer? then Some(a.pid) else PidOf(s.pc)
  {
  }

  /** The pid a session signals is the one its runtime reported. */
  lemma {:induction false} PidIsTheRuntimes(container: string, run: seq<Action>)
    requires Exec(container, run).Some? && PidOf(Exec(container, run).value.pc).Some?
    ensures StartAnswer(PidOf(Exec(container, run).value.pc).value) in run
  {
    var front, a := run[..|run| - 1], run[|run| - 1];
    RunKeepsInv(container, front);
    PidStays(Exec(container, front).value, a);
    if PidOf(Exec(container, front).value.pc).Some? {
      PidIsTheRuntimes(container, front);
      assert forall b <- front :: b in run;
    }
  }

  // ---- many sessions over one registry ----

  datatype Global = Global(sessions: map<StreamId, Session>, registry: map<StreamId, Record>)

  datatype GlobalAction = Spawn(id: StreamId, container: string) | Act(id: StreamId, a: Action)

  /** A session as it sees itself: its own tasks, and its own entry of the shared registry. */
  function View(g: Global, id: StreamId): Session
    requires id in g.sessions
  {
    g.sessions[id].(slot := Lookup(g.registry, id))
  }

  predicate GlobalEnabled(g: Global, b: GlobalAction) {
    match b
    case Spawn(id, _) => id !in g.sessions
    case Act(id, a) => id in g.sessions && Enabled(View(g, id), a)
  }

  function GlobalStep(g: Global, b: GlobalAction): Global
    requires GlobalEnabled(g, b)
  {
    match b
    case Spawn(id, container) => g.(sessions := g.sessions[id := Fresh(container)])
    case Act(id, a) =>
      var v := Step(View(g, id), a);
      Global(g.sessions[id := v], if v.slot.Some? then g.registry[id := v.slot.value] else g.registry - {id})
  }

  function GlobalExec(run: seq<GlobalAction>): Option<Global> {
    if run == [] then Some(Global(map[], map[]))
    else
      var before := GlobalExec(run[..|run| - 1]);
      if before.Some? && GlobalEnabled(before.value, run[|run| - 1])
      then Some(GlobalStep(before.value, run[|run| - 1])) else None
  }

  /** The part of a run that one stream takes. */
  function Project(run: seq<GlobalAction>, id: StreamId): seq<Action> {
    if run == [] then []
    else
      var b := run[|run| - 1];
      Project(run[..|run| - 1], id) + if b.Act? && b.id == id then [b.a] else []
  }

  function ContainerOf(run: seq<GlobalAction>, id: StreamId): string {
    if run == [] then ""
    else
      var b := run[|run| - 1];
      if b.Spawn? && b.id == id then b.container else ContainerOf(run[..|run| - 1], id)
  }

  /** Each session runs as if it were alone, whatever the others do. */
  lemma {:induction false} SessionsAreIndependent(run: seq<GlobalAction>, id: StreamId)
    requires GlobalExec(run).Some?
    ensures if id in GlobalExec(run).value.sessions
            then Exec(ContainerOf(run, id), Project(run, id)) == Some(View(GlobalExec(run).value, id))
            else id !in GlobalExec(run).value.registry && Project(run, id) == []
  {
    if run != [] {
      var front, b := run[..|run| - 1], run[|run| - 1];
      SessionsAreIndependent(front, id);
      var p := Project(front, id);
      if b.Act? && b.id == id {
        assert (p + [b.a])[..|p + [b.a]| - 1] == p;
      } else {
        assert p + [] == p;
      }
    }
  }

  /**
   Kill accounting: a finished stream has no record, and was signalled by the hook
   exactly when it did not exit by itself.
   */
  lemma KillAccounting(run: seq<GlobalAction>, id: StreamId)
    requires GlobalExec(run).Some? && id in GlobalExec(run).value.sessions
    requires GlobalExec(run).value.sessions[id].pc.Finished?
    ensures var g := GlobalExec(run).value;
            && id !in g.registry
            && var end := g.sessions[id].pc.end;
               && g.sessions[id].hookSignals ==
                  (if end.Killed? then HookSignals(Some(Record(ContainerOf(run, id), end.pid))) else [])
               && (end.Killed? ==> Act(id, StartAnswer(end.pid)) in run)
  {
    SessionsAreIndependent(run, id);
    RunKeepsInv(ContainerOf(run, id), Project(run, id));
    if GlobalExec(run).value.sessions[id].pc.end.Killed? {
      var pid := GlobalExec(run).value.sessions[id].pc.end.pid;
      PidIsTheRuntimes(ContainerOf(run, id), Project(run, id));
      ProjectedIsActed(run, id, StartAnswer(pid));
    }
  }

  lemma {:induction false} ProjectedIsActed(run: seq<GlobalAction>, id: StreamId, a: Action)
    requires a in Project(run, id)
    ensures Act(id, a) in run
  {
    var front, b := run[..|run| - 1], run[|run| - 1];
    if !(b == Act(id, a)) {
      ProjectedIsActed(front, id, a);
      assert forall c <- front :: c in run;
    }
  }

  predicate Registered(pc: Pc) {
    pc.Announcing? || pc.Looping? || pc.Draining? || pc.Concluding? || pc.Hooking?
  }

  lemma {:induction false} RunKeepsSlot(container: string, run: seq<Action>)
    requires Exec(container, run).Some?
    ensures Exec(container, run).value.slot.Some? <==> Registered(Exec(container, run).value.pc)
  {
    RunKeepsKill(container, run);
  }

  /** The registry holds a stream's record from its registration until its end, and no other records. */
  lemma {:induction false} RegistryIsExact(run: seq<GlobalAction>, id: StreamId)
    requires GlobalExec(run).Some?
    ensures var g := GlobalExec(run).value;
            id in g.registry <==> id in g.sessions && Registered(g.sessions[id].pc)
  {
    SessionsAreIndependent(run, id);
    if id in GlobalExec(run).value.sessions {
      RunKeepsSlot(ContainerOf(run, id), Project(run, id));
    }
  }
}

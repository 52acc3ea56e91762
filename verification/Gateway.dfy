/**
 The gateway's readers of I/O sessions: the collectors behind the unary REST
 endpoints and the WebSocket pump of the streaming read. Each takes the frames
 the proxy delivers, any of which may be a transport error instead.
 */
module Gateway {
  import opened Prelude
  import opened Wire
  import opened FileOps

  datatype StreamFault =
    | NoTerminalFrame
    | NoResult
    | ExitedWith(info: ExitInfo)
    | Coded(code: ErrorCode, detail: string)

  datatype ApiError =
    | StreamFailed(fault: StreamFault)
    | NoSuchFile(path: string)
    | NoSuchSandbox(id: string)
    | StaleRevision(actual: string)
    | Unsupported(detail: string)
    | PopulatedDirectory(detail: string)
    | ProxyUnavailable(detail: string)
    | OtherApiError(text: string)

  type Delivery = Result<ServerFrame, ApiError>

  function MapIoError(code: ErrorCode, detail: string): ApiError {
    match code
    case FileNotFound => NoSuchFile(detail)
    case SandboxGone => NoSuchSandbox(detail)
    case RevisionMismatch => StaleRevision(detail)
    case NotImplemented => Unsupported(detail)
    case DirectoryNotEmpty => PopulatedDirectory(detail)
    case _ => StreamFailed(Coded(code, detail))
  }

  function CloseCode(e: ApiError): nat {
    match e
    case NoSuchFile(_) => 4404
    case NoSuchSandbox(_) => 4404
    case ProxyUnavailable(_) => 4503
    case StaleRevision(_) => 4409
    case Unsupported(_) => 4501
    case PopulatedDirectory(_) => 4409
    case _ => 4500
  }

  // ---- where a stream of deliveries ends ----

  predicate Ends(d: Delivery) {
    d.Err? || Terminal(d.value)
  }

  /** The number of frames before the first terminal frame or transport error. */
  function BodyLength(ds: seq<Delivery>): (k: nat)
    ensures k <= |ds| && (k < |ds| ==> Ends(ds[k]))
    ensures forall i :: 0 <= i < k ==> !Ends(ds[i])
  {
    if ds == [] || Ends(ds[0]) then 0 else 1 + BodyLength(ds[1..])
  }

  lemma BodyLengthIs(ds: seq<Delivery>, n: nat)
    requires n <= |ds| && (n < |ds| ==> Ends(ds[n])) && forall i :: 0 <= i < n ==> !Ends(ds[i])
    ensures BodyLength(ds) == n
  {
    if n > 0 {
      assert forall i :: 0 <= i < n - 1 ==> ds[1..][i] == ds[i + 1];
      BodyLengthIs(ds[1..], n - 1);
    }
  }

  function Body(ds: seq<Delivery>): (body: seq<ServerFrame>)
    ensures |body| == BodyLength(ds)
  {
    seq(BodyLength(ds), i requires 0 <= i < BodyLength(ds) => ds[i].value)
  }

  /** The error a stream ends in, unless it ends in an exit. */
  function EndError(ds: seq<Delivery>): Option<ApiError> {
    var k := BodyLength(ds);
    if k == |ds| then Some(StreamFailed(NoTerminalFrame))
    else if ds[k].Err? then Some(ds[k].error)
    else if ds[k].value.Failure? then Some(MapIoError(ds[k].value.code, ds[k].value.detail))
    else None
  }

  function ExitOf(ds: seq<Delivery>): ExitInfo
    requires EndError(ds).None?
  {
    ds[BodyLength(ds)].value.info
  }

  /** The frames that went before are passed over; the loops below read frame `i` next. */
  predicate Reading(ds: seq<Delivery>, i: nat) {
    i <= BodyLength(ds)
  }

  // ---- what a body carries ----

  /** The payloads of the Stdout frames, joined. */
  function BytesOf(body: seq<ServerFrame>): Bytes {
    if body == [] then []
    else
      var f := body[|body| - 1];
      BytesOf(body[..|body| - 1]) + if f.Stdout? then f.bytes else []
  }

  function LastMeta(body: seq<ServerFrame>): Option<Revision> {
    if body == [] then None
    else if body[|body| - 1].FileMeta? then Some(body[|body| - 1].meta)
    else LastMeta(body[..|body| - 1])
  }

  function KindOf(proto: int): EntryKind {
    if proto == 1 then FileEntry else if proto == 2 then DirEntry else if proto == 3 then SymlinkEntry else OtherEntry
  }

  function JsonEntry(e: Entry<int>): Entry<EntryKind> {
    Entry(e.name, KindOf(e.kind), e.size, e.revision, e.mode, e.target)
  }

  function JsonListing(l: Listing<int>): Listing<EntryKind> {
    Listing(l.path, seq(|l.entries|, i requires 0 <= i < |l.entries| => JsonEntry(l.entries[i])), l.truncated, l.total)
  }

  function LastListing(body: seq<ServerFrame>): Option<Listing<EntryKind>> {
    if body == [] then None
    else if body[|body| - 1].ListDirResult? then Some(JsonListing(body[|body| - 1].listing))
    else LastListing(body[..|body| - 1])
  }

  function LastProbe(body: seq<ServerFrame>): Option<(bool, nat)> {
    if body == [] then None
    else if body[|body| - 1].WaitPortResult? then Some((body[|body| - 1].ready, body[|body| - 1].elapsedMs))
    else LastProbe(body[..|body| - 1])
  }

  lemma BodyMore(body: seq<ServerFrame>, f: ServerFrame)
    ensures BytesOf(body + [f]) == BytesOf(body) + if f.Stdout? then f.bytes else []
    ensures LastMeta(body + [f]) == if f.FileMeta? then Some(f.meta) else LastMeta(body)
    ensures LastListing(body + [f]) == if f.ListDirResult? then Some(JsonListing(f.listing)) else LastListing(body)
    ensures LastProbe(body + [f]) == if f.WaitPortResult? then Some((f.ready, f.elapsedMs)) else LastProbe(body)
  {
    assert (body + [f])[..|body + [f]| - 1] == body;
  }

  /** One more frame read: the end, or one more of the body. */
  lemma NextFrame(ds: seq<Delivery>, i: nat)
    requires Reading(ds, i) && i < |ds|
    ensures Ends(ds[i]) ==> BodyLength(ds) == i && Body(ds)[..i] == Body(ds)
    ensures !Ends(ds[i]) ==> Reading(ds, i + 1) && Body(ds)[..i + 1] == Body(ds)[..i] + [ds[i].value]
  {
    if !Ends(ds[i]) {
      assert i < BodyLength(ds);
      TakeMore(Body(ds), i);
    }
  }

  // ---- the collectors ----

  function UnaryResult(ds: seq<Delivery>): Result<Option<Revision>, ApiError> {
    var error := EndError(ds);
    if error.Some? then Err(error.value)
    else if ExitOf(ds) != ExitInfo(0, false) then Err(StreamFailed(ExitedWith(ExitOf(ds))))
    else Ok(LastMeta(Body(ds)))
  }

  method UnaryViaIoStream(ds: seq<Delivery>) returns (r: Result<Option<Revision>, ApiError>)
    ensures r == UnaryResult(ds)
  {
    var captured: Option<Revision> := None;
    for i := 0 to |ds|
      invariant Reading(ds, i) && captured == LastMeta(Body(ds)[..i])
    {
      NextFrame(ds, i);
      if ds[i].Err? { return Err(ds[i].error); }
      var frame := ds[i].value;
      BodyMore(Body(ds)[..i], frame);
      match frame {
        case Exited(info) =>
          if info.code == 0 && !info.commandNotFound { return Ok(captured); }
          return Err(StreamFailed(ExitedWith(info)));
        case Failure(code, detail) => return Err(MapIoError(code, detail));
        case FileMeta(meta) => captured := Some(meta);
        case _ =>
      }
    }
    r := Err(StreamFailed(NoTerminalFrame));
  }

  datatype ReadFileResult = ReadFileResult(bytes: Bytes, meta: Option<Revision>)

  function ReadResult(ds: seq<Delivery>): Result<ReadFileResult, ApiError> {
    var error := EndError(ds);
    if error.Some? then Err(error.value)
    else if ExitOf(ds).code != 0 then Err(StreamFailed(ExitedWith(ExitOf(ds))))
    else Ok(ReadFileResult(BytesOf(Body(ds)), LastMeta(Body(ds))))
  }

  method StreamViaIoStream(ds: seq<Delivery>) returns (r: Result<ReadFileResult, ApiError>)
    ensures r == ReadResult(ds)
  {
    var buf: Bytes := [];
    var captured: Option<Revision> := None;
    for i := 0 to |ds|
      invariant Reading(ds, i) && buf == BytesOf(Body(ds)[..i]) && captured == LastMeta(Body(ds)[..i])
    {
      NextFrame(ds, i);
      if ds[i].Err? { return Err(ds[i].error); }
      var frame := ds[i].value;
      BodyMore(Body(ds)[..i], frame);
      match frame {
        case Stdout(chunk) => buf := buf + chunk;
        case Exited(info) =>
          if info.code != 0 { return Err(StreamFailed(ExitedWith(info))); }
          return Ok(ReadFileResult(buf, captured));
        case Failure(code, detail) => return Err(MapIoError(code, detail));
        case FileMeta(meta) => captured := Some(meta);
        case _ =>
      }
    }
    r := Err(StreamFailed(NoTerminalFrame));
  }

  function ListResult(ds: seq<Delivery>): Result<Listing<EntryKind>, ApiError> {
    var error := EndError(ds);
    if error.Some? then Err(error.value)
    else if ExitOf(ds).code != 0 then Err(StreamFailed(ExitedWith(ExitOf(ds))))
    else if LastListing(Body(ds)).None? then Err(StreamFailed(NoResult))
    else Ok(LastListing(Body(ds)).value)
  }

  method ListDirViaIoStream(ds: seq<Delivery>) returns (r: Result<Listing<EntryKind>, ApiError>)
    ensures r == ListResult(ds)
  {
    var captured: Option<Listing<EntryKind>> := None;
    for i := 0 to |ds|
      invariant Reading(ds, i) && captured == LastListing(Body(ds)[..i])
    {
      NextFrame(ds, i);
      if ds[i].Err? { return Err(ds[i].error); }
      var frame := ds[i].value;
      BodyMore(Body(ds)[..i], frame);
      match frame {
        case ListDirResult(listing) => captured := Some(JsonListing(listing));
        case Exited(info) =>
          if info.code != 0 { return Err(StreamFailed(ExitedWith(info))); }
          if captured.None? { return Err(StreamFailed(NoResult)); }
          return Ok(captured.value);
        case Failure(code, detail) => return Err(MapIoError(code, detail));
        case _ =>
      }
    }
    r := Err(StreamFailed(NoTerminalFrame));
  }

  function WaitResult(ds: seq<Delivery>): Result<(bool, nat), ApiError> {
    var error := EndError(ds);
    if error.Some? then Err(error.value)
    else if ExitOf(ds).code != 0 then Err(StreamFailed(ExitedWith(ExitOf(ds))))
    else if LastProbe(Body(ds)).None? then Err(StreamFailed(NoResult))
    else Ok(LastProbe(Body(ds)).value)
  }

  method WaitPortViaIoStream(ds: seq<Delivery>) returns (r: Result<(bool, nat), ApiError>)
    ensures r == WaitResult(ds)
  {
    var captured: Option<(bool, nat)> := None;
    for i := 0 to |ds|
      invariant Reading(ds, i) && captured == LastProbe(Body(ds)[..i])
    {
      NextFrame(ds, i);
      if ds[i].Err? { return Err(ds[i].error); }
      var frame := ds[i].value;
      BodyMore(Body(ds)[..i], frame);
      match frame {
        case WaitPortResult(ready, elapsedMs) => captured := Some((ready, elapsedMs));
        case Exited(info) =>
          if info.code != 0 { return Err(StreamFailed(ExitedWith(info))); }
          if captured.None? { return Err(StreamFailed(NoResult)); }
          return Ok(captured.value);
        case Failure(code, detail) => return Err(MapIoError(code, detail));
        case _ =>
      }
    }
    r := Err(StreamFailed(NoTerminalFrame));
  }

  // ---- the WebSocket pump ----

  datatype Message = Text(meta: Revision) | Binary(bytes: Bytes) | Close(code: nat)

  function MessagesOf(f: ServerFrame): seq<Message> {
    if f.Stdout? then [Binary(f.bytes)] else if f.FileMeta? then [Text(f.meta)] else []
  }

  function Messages(body: seq<ServerFrame>): seq<Message> {
    if body == [] then [] else Messages(body[..|body| - 1]) + MessagesOf(body[|body| - 1])
  }

  function Closing(ds: seq<Delivery>): Message {
    var error := EndError(ds);
    if BodyLength(ds) == |ds| then Close(4503)
    else if error.Some? then Close(CloseCode(error.value))
    else if ExitOf(ds).code == 0 then Close(1000)
    else Close(4500)
  }

  function SocketTrace(ds: seq<Delivery>): seq<Message> {
    Messages(Body(ds)) + [Closing(ds)]
  }

  /** A socket whose client leaves after `room` messages. */
  class Socket {
    const room: nat
    var sent: seq<Message>

    constructor (room: nat)
      ensures this.room == room && sent == []
    {
      this.room := room;
      sent := [];
    }

    method Send(m: Message) returns (ok: bool)
      modifies this
      ensures ok == (|old(sent)| < room)
      ensures sent == if ok then old(sent) + [m] else old(sent)
    {
      ok := |sent| < room;
      if ok { sent := sent + [m]; }
    }
  }

  predicate CutAt(sent: seq<Message>, all: seq<Message>, room: nat) {
    sent <= all && |sent| <= room && (|sent| < room ==> sent == all)
  }

  lemma {:induction false} MessagesGrow(body: seq<ServerFrame>, i: nat)
    requires i <= |body|
    ensures Messages(body[..i]) <= Messages(body)
    decreases |body|
  {
    if i < |body| {
      MessagesGrow(body[..|body| - 1], i);
      assert body[..|body| - 1][..i] == body[..i];
    } else {
      assert body[..i] == body;
    }
  }

  lemma {:induction false} MessagesMore(body: seq<ServerFrame>, i: nat)
    requires i < |body|
    ensures Messages(body[..i + 1]) == Messages(body[..i]) + MessagesOf(body[i])
    ensures Messages(body[..i + 1]) <= Messages(body)
  {
    assert body[..i + 1][..i] == body[..i];
    MessagesGrow(body, i + 1);
  }

  method Forward(socket: Socket, frame: ServerFrame) returns (ok: bool)
    requires |socket.sent| <= socket.room
    modifies socket
    ensures if ok then socket.sent == old(socket.sent) + MessagesOf(frame) && |socket.sent| <= socket.room
            else socket.sent == old(socket.sent) && |socket.sent| == socket.room
  {
    ok := true;
    match frame {
      case Stdout(chunk) => ok := socket.Send(Binary(chunk));
      case FileMeta(meta) => ok := socket.Send(Text(meta));
      case _ =>
    }
  }

  method SendClose(socket: Socket, ghost ds: seq<Delivery>, code: nat)
    requires socket.sent == Messages(Body(ds)) && |socket.sent| <= socket.room && Closing(ds) == Close(code)
    modifies socket
    ensures CutAt(socket.sent, SocketTrace(ds), socket.room)
  {
    var _ := socket.Send(Close(code));
  }

  /** Everything up to the first ending, then one Close; less only if the client leaves. */
  method Pump(socket: Socket, ds: seq<Delivery>)
    requires socket.sent == []
    modifies socket
    ensures CutAt(socket.sent, SocketTrace(ds), socket.room)
  {
    for i := 0 to |ds|
      invariant Reading(ds, i) && socket.sent == Messages(Body(ds)[..i]) && |socket.sent| <= socket.room
    {
      NextFrame(ds, i);
      if ds[i].Err? {
        SendClose(socket, ds, CloseCode(ds[i].error));
        return;
      }
      var frame := ds[i].value;
      if frame.Exited? {
        SendClose(socket, ds, if frame.info.code == 0 then 1000 else 4500);
        return;
      }
      if frame.Failure? {
        SendClose(socket, ds, CloseCode(MapIoError(frame.code, frame.detail)));
        return;
      }
      MessagesMore(Body(ds), i);
      var ok := Forward(socket, frame);
      if !ok { return; }
    }
    assert Body(ds)[..|ds|] == Body(ds);
    SendClose(socket, ds, 4503);
  }

  /** The bytes a client has received. */
  function Received(messages: seq<Message>): Bytes {
    if messages == [] then []
    else
      var m := messages[|messages| - 1];
      Received(messages[..|messages| - 1]) + if m.Binary? then m.bytes else []
  }

  lemma {:induction false} MessagesCarryBytes(body: seq<ServerFrame>)
    ensures Received(Messages(body)) == BytesOf(body)
    ensures forall m <- Messages(body) :: !m.Close?
  {
    if body != [] {
      var front, f := body[..|body| - 1], body[|body| - 1];
      MessagesCarryBytes(front);
      BodyMore(front, f);
      assert front + [f] == body;
      if MessagesOf(f) == [] {
        assert Messages(body) == Messages(front);
      } else {
        assert Messages(body)[..|Messages(body)| - 1] == Messages(front);
      }
    }
  }

  /** Whatever the proxy delivers, the socket carries exactly the stream's bytes and one Close, the last message. */
  lemma SocketCarriesBytesAndOneClose(ds: seq<Delivery>, i: nat)
    requires i < |SocketTrace(ds)|
    ensures SocketTrace(ds)[i].Close? <==> i == |SocketTrace(ds)| - 1
    ensures Received(SocketTrace(ds)) == BytesOf(Body(ds))
  {
    MessagesCarryBytes(Body(ds));
    var all := SocketTrace(ds);
    assert all[..|all| - 1] == Messages(Body(ds));
    if i < |all| - 1 { assert all[i] == Messages(Body(ds))[i]; }
  }

  // ---- what the end of a stream means to every reader ----

  /** Delivery `k` is the first that ends the stream. */
  ghost predicate EndsAt(ds: seq<Delivery>, k: nat) {
    k < |ds| && Ends(ds[k]) && forall i :: 0 <= i < k ==> !Ends(ds[i])
  }

  predicate CleanExit(d: Delivery) {
    d.Ok? && d.value.Exited? && d.value.info.code == 0
  }

  /** The socket's last message. */
  function LastMessage(ds: seq<Delivery>): Message {
    SocketTrace(ds)[|SocketTrace(ds)| - 1]
  }

  /** The socket is closed cleanly if and only if the first ending is an exit with code 0. */
  lemma ClosesCleanlyIffExited(ds: seq<Delivery>)
    ensures LastMessage(ds) == Close(1000) <==>
            exists k: nat :: EndsAt(ds, k) && CleanExit(ds[k])
  {
    if BodyLength(ds) < |ds| { assert EndsAt(ds, BodyLength(ds)); }
    forall k: nat | EndsAt(ds, k)
      ensures k == BodyLength(ds)
    {
      BodyLengthIs(ds, k);
    }
  }

  /** The close code by which an error frame reaches the client. */
  predicate ClosesFor(code: ErrorCode, close: nat) {
    && (close == 4404 <==> code.FileNotFound? || code.SandboxGone?)
    && (close == 4409 <==> code.RevisionMismatch? || code.DirectoryNotEmpty?)
    && (close == 4501 <==> code.NotImplemented?)
    && close in {4404, 4409, 4500, 4501}
  }

  /** Every other ending is told apart by its close code. */
  lemma CloseTellsTheEnd(ds: seq<Delivery>, k: nat)
    requires EndsAt(ds, k)
    ensures LastMessage(ds).Close?
    ensures var close := LastMessage(ds).code;
            match ds[k]
            case Ok(Exited(info)) => close == if info.code == 0 then 1000 else 4500
            case Ok(Failure(code, _)) => ClosesFor(code, close)
            case Ok(_) => false
            case Err(e) => close == CloseCode(e) && (close == 4503 <==> e.ProxyUnavailable?) && close != 1000
  {
    BodyLengthIs(ds, k);
  }

  /** A stream without an ending closes the socket as an unavailable service, and fails every unary reader. */
  lemma NoEndIsAnError(ds: seq<Delivery>)
    requires forall i :: 0 <= i < |ds| ==> !Ends(ds[i])
    ensures LastMessage(ds) == Close(4503)
    ensures UnaryResult(ds) == Err(StreamFailed(NoTerminalFrame))
    ensures ReadResult(ds) == Err(StreamFailed(NoTerminalFrame))
    ensures ListResult(ds) == Err(StreamFailed(NoTerminalFrame))
    ensures WaitResult(ds) == Err(StreamFailed(NoTerminalFrame))
  {
    BodyLengthIs(ds, |ds|);
  }

  /** The error a unary reader makes of an error frame. */
  predicate Tells(e: ApiError, code: ErrorCode, detail: string) {
    && (code.FileNotFound? <==> e == NoSuchFile(detail))
    && (code.SandboxGone? <==> e == NoSuchSandbox(detail))
    && (code.RevisionMismatch? <==> e == StaleRevision(detail))
    && (code.NotImplemented? <==> e == Unsupported(detail))
    && (code.DirectoryNotEmpty? <==> e == PopulatedDirectory(detail))
    && (e.StreamFailed? ==> e == StreamFailed(Coded(code, detail)))
    && !e.ProxyUnavailable? && !e.OtherApiError?
  }

  /** The outcome of a unary reader, as the ending alone decides it. */
  predicate FollowsEnd<T>(r: Result<T, ApiError>, end: Delivery) {
    match end
    case Err(e) => r == Err(e)
    case Ok(Failure(code, detail)) => r.Err? && Tells(r.error, code, detail)
    case Ok(Exited(info)) => if info.code == 0 then r.Ok? else r == Err(StreamFailed(ExitedWith(info)))
    case Ok(_) => false
  }

  /** Every unary reader fails as the ending says; on a clean exit only a missing result can fail it. */
  lemma ReadersFollowTheEnd(ds: seq<Delivery>, k: nat)
    requires EndsAt(ds, k)
    ensures FollowsEnd(ReadResult(ds), ds[k])
    ensures if ds[k] == Ok(Exited(ExitInfo(0, true))) then
              UnaryResult(ds) == Err(StreamFailed(ExitedWith(ExitInfo(0, true))))
            else FollowsEnd(UnaryResult(ds), ds[k])
    ensures if CleanExit(ds[k]) && LastListing(Body(ds)).None? then ListResult(ds) == Err(StreamFailed(NoResult))
            else FollowsEnd(ListResult(ds), ds[k])
    ensures if CleanExit(ds[k]) && LastProbe(Body(ds)).None? then WaitResult(ds) == Err(StreamFailed(NoResult))
            else FollowsEnd(WaitResult(ds), ds[k])
  {
    BodyLengthIs(ds, k);
  }

  // ---- sessions and their readers ----

  function Deliver(trace: seq<ServerFrame>): seq<Delivery> {
    seq(|trace|, i requires 0 <= i < |trace| => Ok(trace[i]))
  }

  /** The stream the gateway sees when the session's trace arrives up to `n` frames and then breaks off or fails. */
  function Broken(s: Session, n: nat, failure: Option<ApiError>): seq<Delivery>
    requires n < |Trace(s)|
  {
    Deliver(Trace(s)[..n]) + if failure.Some? then [Err(failure.value)] else []
  }

  lemma CompleteStream(s: Session)
    ensures var ds, n := Deliver(Trace(s)), |Trace(s)| - 1;
            n >= 0 && BodyLength(ds) == n && Body(ds) == Trace(s)[..n]
  {
    EveryTraceFollowsGrammar(s);
    var ds, n := Deliver(Trace(s)), |Trace(s)| - 1;
    forall i | 0 <= i <= n
      ensures Ends(ds[i]) <==> i == n
    {
      OnlyTheLastIsTerminal(s, i);
    }
    BodyLengthIs(ds, n);
  }

  /** A stream that stops short of the trace's end is an error to every reader, and the one the proxy reported. */
  lemma BrokenStreamIsAnError(s: Session, n: nat, failure: Option<ApiError>)
    requires n < |Trace(s)|
    ensures EndError(Broken(s, n, failure)) ==
            Some(if failure.Some? then failure.value else StreamFailed(NoTerminalFrame))
  {
    var ds := Broken(s, n, failure);
    forall i | 0 <= i < n
      ensures !Ends(ds[i])
    {
      OnlyTheLastIsTerminal(s, i);
      assert ds[i] == Ok(Trace(s)[i]);
    }
    BodyLengthIs(ds, n);
  }

  /** The socket then closes with the failure's own code, or as unavailable; never cleanly. */
  lemma BrokenStreamClosesSo(s: Session, n: nat, failure: Option<ApiError>)
    requires n < |Trace(s)|
    ensures LastMessage(Broken(s, n, failure)) == Close(if failure.Some? then CloseCode(failure.value) else 4503)
    ensures LastMessage(Broken(s, n, failure)) != Close(1000)
  {
    var ds := Broken(s, n, failure);
    forall i | 0 <= i < n
      ensures !Ends(ds[i])
    {
      OnlyTheLastIsTerminal(s, i);
      assert ds[i] == Ok(Trace(s)[i]);
    }
    if failure.Some? {
      assert ds[n] == Err(failure.value);
      CloseTellsTheEnd(ds, n);
    } else {
      NoEndIsAnError(ds);
    }
  }

  /** On a complete trace no reader ends up without a terminal frame. */
  lemma CompleteStreamHasTerminal(s: Session)
    ensures BodyLength(Deliver(Trace(s))) < |Deliver(Trace(s))|
    ensures EndError(Deliver(Trace(s))) ==
            var last := Trace(s)[|Trace(s)| - 1];
            if last.Failure? then Some(MapIoError(last.code, last.detail)) else None
    ensures EndError(Deliver(Trace(s))).None? ==> ExitOf(Deliver(Trace(s))) == ExitInfo(0, false)
  {
    CompleteStream(s);
    EveryTraceFollowsGrammar(s);
  }

  lemma {:induction false} MetaThenChunks(meta: seq<ServerFrame>, chunks: seq<Bytes>)
    requires |meta| <= 1 && forall f <- meta :: f.FileMeta?
    ensures BytesOf(meta + StdoutFrames(chunks)) == Join(chunks)
    ensures LastMeta(meta + StdoutFrames(chunks)) == if meta == [] then None else Some(meta[0].meta)
  {
    var body := meta + StdoutFrames(chunks);
    if chunks == [] {
      assert body == meta;
      if meta != [] { BodyMore([], meta[0]); assert meta == [] + [meta[0]]; }
    } else {
      var n := |chunks| - 1;
      MetaThenChunks(meta, chunks[..n]);
      assert body[..|body| - 1] == meta + StdoutFrames(chunks[..n]);
    }
  }

  function Known(stat: Answer<Revision>): Option<Revision> {
    if stat.Ok? then Some(stat.value) else None
  }

  lemma ReadResultIs(ds: seq<Delivery>, meta: seq<ServerFrame>, chunks: seq<Bytes>)
    requires |meta| <= 1 && forall f <- meta :: f.FileMeta?
    requires Body(ds) == meta + StdoutFrames(chunks) && EndError(ds).None? && ExitOf(ds) == ExitInfo(0, false)
    ensures ReadResult(ds) == Ok(ReadFileResult(Join(chunks), if meta == [] then None else Some(meta[0].meta)))
  {
    MetaThenChunks(meta, chunks);
  }

  /** The unary read returns exactly the file, with the revision that was stat'd. */
  lemma ReadEndToEnd(content: Bytes, stat: Answer<Revision>)
    ensures ReadResult(Deliver(Trace(Read(Ok(content), stat)))) == Ok(ReadFileResult(content, Known(stat)))
  {
    ReadBody(content, stat);
    ReadResultIs(Deliver(Trace(Read(Ok(content), stat))), MetaFrames(stat), Chunks(content, READ_FILE_CHUNK_BYTES));
    ChunksJoin(content, READ_FILE_CHUNK_BYTES);
  }

  function BinaryMessages(chunks: seq<Bytes>): seq<Message> {
    seq(|chunks|, i requires 0 <= i < |chunks| => Binary(chunks[i]))
  }

  lemma MessagesSnoc(body: seq<ServerFrame>, f: ServerFrame)
    ensures Messages(body + [f]) == Messages(body) + MessagesOf(f)
  {
    assert (body + [f])[..|body + [f]| - 1] == body;
  }

  lemma FramesSnoc(chunks: seq<Bytes>)
    requires chunks != []
    ensures var n := |chunks| - 1;
            && StdoutFrames(chunks) == StdoutFrames(chunks[..n]) + [Stdout(chunks[n])]
            && BinaryMessages(chunks) == BinaryMessages(chunks[..n]) + [Binary(chunks[n])]
  {
  }

  lemma {:induction false} ChunkMessages(meta: seq<ServerFrame>, chunks: seq<Bytes>)
    requires |meta| <= 1 && forall f <- meta :: f.FileMeta?
    ensures Messages(meta + StdoutFrames(chunks)) ==
            (if meta == [] then [] else [Text(meta[0].meta)]) + BinaryMessages(chunks)
  {
    var first := if meta == [] then [] else [Text(meta[0].meta)];
    if chunks == [] {
      NilPlus(meta);
      NilPlus(first);
      if meta != [] {
        HeadAndTail(meta);
        NilPlus([meta[0]]);
        MessagesSnoc([], meta[0]);
      }
    } else {
      var n := |chunks| - 1;
      ChunkMessages(meta, chunks[..n]);
      FramesSnoc(chunks);
      PlusPlus(meta, StdoutFrames(chunks[..n]), [Stdout(chunks[n])]);
      MessagesSnoc(meta + StdoutFrames(chunks[..n]), Stdout(chunks[n]));
      PlusPlus(first, BinaryMessages(chunks[..n]), [Binary(chunks[n])]);
    }
  }

  lemma ReadBody(content: Bytes, stat: Answer<Revision>)
    ensures var ds := Deliver(Trace(Read(Ok(content), stat)));
            && Body(ds) == MetaFrames(stat) + StdoutFrames(Chunks(content, READ_FILE_CHUNK_BYTES))
            && BodyLength(ds) < |ds| && EndError(ds).None? && ExitOf(ds) == ExitInfo(0, false)
  {
    CompleteStreamHasTerminal(Read(Ok(content), stat));
    CompleteStream(Read(Ok(content), stat));
  }

  lemma {:induction false} SocketTraceIs(ds: seq<Delivery>, meta: seq<ServerFrame>, chunks: seq<Bytes>)
    requires |meta| <= 1 && forall f <- meta :: f.FileMeta?
    requires Body(ds) == meta + StdoutFrames(chunks)
    requires BodyLength(ds) < |ds| && EndError(ds).None? && ExitOf(ds) == ExitInfo(0, false)
    ensures SocketTrace(ds) ==
            (if meta == [] then [] else [Text(meta[0].meta)]) + BinaryMessages(chunks) + [Close(1000)]
    ensures Received(SocketTrace(ds)) == Join(chunks)
  {
    ChunkMessages(meta, chunks);
    MetaThenChunks(meta, chunks);
    SocketCarriesBytesAndOneClose(ds, 0);
  }

  /** The streaming read sends the revision first, then the file's chunks, then a clean Close. */
  lemma SocketReadEndToEnd(content: Bytes, stat: Answer<Revision>)
    ensures var all := SocketTrace(Deliver(Trace(Read(Ok(content), stat))));
            && all == (if stat.Ok? then [Text(stat.value)] else [])
                      + BinaryMessages(Chunks(content, READ_FILE_CHUNK_BYTES)) + [Close(1000)]
            && Received(all) == content
  {
    ReadBody(content, stat);
    SocketTraceIs(Deliver(Trace(Read(Ok(content), stat))), MetaFrames(stat), Chunks(content, READ_FILE_CHUNK_BYTES));
    ChunksJoin(content, READ_FILE_CHUNK_BYTES);
  }

  lemma ListingRoundTrip(l: Listing<EntryKind>)
    ensures JsonListing(ProtoListing(l)) == l
  {
    var back := JsonListing(ProtoListing(l));
    forall i | 0 <= i < |l.entries|
      ensures back.entries[i] == l.entries[i]
    {
      assert back.entries[i] == JsonEntry(ProtoEntry(l.entries[i]));
    }
    assert back.entries == l.entries;
  }

  /** A listing reaches the client as the runtime gave it, or its error does; it is never missing. */
  lemma ListEndToEnd(answer: Answer<Listing<EntryKind>>)
    ensures ListResult(Deliver(Trace(List(answer)))) ==
            if answer.Ok? then Ok(answer.value)
            else
              var text := Describe(answer.error);
              Err(if RuntimeOpens(answer.error, "list_dir not yet implemented") then Unsupported(text)
                  else if RuntimeSays(answer.error, "No such file") then NoSuchFile(text)
                  else StreamFailed(Coded(OtherCode("LIST_DIR_FAILED"), text)))
  {
    var s := List(answer);
    CompleteStreamHasTerminal(s);
    CompleteStream(s);
    if answer.Ok? {
      var f := ListDirResult(ProtoListing(answer.value));
      assert Body(Deliver(Trace(s))) == [] + [f];
      BodyMore([], f);
      ListingRoundTrip(answer.value);
    }
  }

  /** So does the answer of a port probe. */
  lemma WaitPortEndToEnd(timeoutMs: nat, answer: Answer<bool>, measuredMs: nat)
    ensures var r := WaitResult(Deliver(Trace(WaitPort(timeoutMs, answer, measuredMs))));
            r == if answer.Ok? then Ok((answer.value, ElapsedMs(timeoutMs, answer.value, measuredMs)))
                 else if RuntimeOpens(answer.error, "wait_port_listening not yet implemented") then
                   Err(Unsupported("wait_port_listening not yet implemented for this backend"))
                 else Err(StreamFailed(Coded(OtherCode("WAIT_PORT_LISTENING_FAILED"), Describe(answer.error))))
  {
    var s := WaitPort(timeoutMs, answer, measuredMs);
    CompleteStreamHasTerminal(s);
    CompleteStream(s);
    if answer.Ok? {
      var f := WaitPortResult(answer.value, ElapsedMs(timeoutMs, answer.value, measuredMs));
      assert Body(Deliver(Trace(s))) == [] + [f];
      BodyMore([], f);
    }
  }

  /** A write succeeds at the gateway exactly when the runtime was asked to write and did, with the new revision. */
  lemma WriteEndToEnd(w: Write)
    ensures var r := UnaryResult(Deliver(Trace(WriteOne(w))));
            && (r.Ok? <==> WriteCall(w).Some? && w.written.Ok?)
            && (r.Ok? ==> r.value == Known(w.statAfter))
            && (r.Err? ==> r.error != StreamFailed(NoTerminalFrame))
  {
    var s := WriteOne(w);
    CompleteStreamHasTerminal(s);
    CompleteStream(s);
    RefusalIsFailure(WRITE_FILE, w.frames);
    var body := Body(Deliver(Trace(s)));
    if WriteCall(w).Some? && w.written.Ok? {
      assert body == MetaFrames(w.statAfter);
      if w.statAfter.Ok? {
        assert body == [] + [FileMeta(w.statAfter.value)];
        BodyMore([], FileMeta(w.statAfter.value));
      }
    }
  }

  // ---- how a runtime's error looks to the client ----

  lemma ErrorStream(s: Session, code: ErrorCode, detail: string)
    requires Trace(s) == [Failure(code, detail)]
    ensures var ds := Deliver(Trace(s));
            && EndError(ds) == Some(MapIoError(code, detail))
            && SocketTrace(ds) == [Close(CloseCode(MapIoError(code, detail)))]
  {
    CompleteStreamHasTerminal(s);
    CompleteStream(s);
    assert Body(Deliver(Trace(s))) == [];
  }

  /** A missing file is reported as such, on both read paths; any other error is a stream failure. */
  lemma ReadErrorEndToEnd(e: AgentError, stat: Answer<Revision>)
    ensures var ds, missing := Deliver(Trace(Read(Err(e), stat))), RuntimeSays(e, "No such file");
            && ReadResult(ds) ==
               Err(if missing then NoSuchFile(Describe(e)) else StreamFailed(Coded(ReadFileFailed, Describe(e))))
            && SocketTrace(ds) == [Close(if missing then 4404 else 4500)]
  {
    ErrorStream(Read(Err(e), stat), ReadErrorCode(e), Describe(e));
  }

  /** The file's revision is not the expected one, or the file is gone. */
  predicate Outdated(w: Write) {
    if w.statBefore.Ok? then w.statBefore.value.token != w.expected
    else
      var e := w.statBefore.error;
      RuntimeSays(e, "No such file") && !RuntimeOpens(e, "stat_revision not yet implemented")
  }

  /** A checked write to a file that has moved on, or is gone, is a conflict that carries the live revision. */
  lemma StaleWriteEndToEnd(w: Write)
    requires w.expected != "" && !w.force
    requires Outdated(w)
    ensures var live := if w.statBefore.Ok? then w.statBefore.value.token else "";
            UnaryResult(Deliver(Trace(WriteOne(w)))) == Err(StaleRevision(live)) && WriteCall(w).None?
  {
    ErrorStream(WriteOne(w), RevisionMismatch, if w.statBefore.Ok? then w.statBefore.value.token else "");
  }

  /** An upload cut into Stdin frames, the frame that follows them, and whatever comes after. */
  datatype Parts = Parts(chunks: seq<Bytes>, next: ClientFrame, more: seq<ClientFrame>)

  function FramesOf(p: Parts): seq<ClientFrame> {
    StdinFrames(p.chunks) + [p.next] + p.more
  }

  /** Why an upload is turned away, if it is. */
  function TurnedAway(op: UploadOp, p: Parts): Option<ApiError> {
    if |Join(p.chunks)| > MAX_WRITE_BYTES then Some(StreamFailed(Coded(PayloadTooLarge, op.tooLarge)))
    else if !EndsUpload(p.next) then Some(StreamFailed(Coded(InvalidRequest, op.notAnUpload)))
    else None
  }

  /** A tarball upload succeeds exactly when it was taken whole and unpacked. */
  lemma {:induction false} TargzEndToEnd(p: Parts, written: Answer<()>)
    requires !p.next.Stdin?
    ensures UnaryResult(Deliver(Trace(WriteMany(FramesOf(p), written)))) ==
            var away := TurnedAway(WRITE_FILES_TARGZ, p);
            if away.Some? then Err(away.value)
            else if written.Err? then Err(StreamFailed(Coded(WriteFailed, Describe(written.error))))
            else Ok(None)
  {
    var s := WriteMany(FramesOf(p), written);
    FirstOtherFrameDecides(WRITE_FILES_TARGZ, p.chunks, p.next, p.more);
    CompleteStreamHasTerminal(s);
    CompleteStream(s);
    if Trace(s)[0].Failure? {
      ErrorStream(s, Trace(s)[0].code, Trace(s)[0].detail);
    } else {
      assert Body(Deliver(Trace(s))) == [];
    }
  }

  /** A write without a precondition to fail: what the client hears of its upload, and what is written. */
  lemma {:induction false} WriteUploadEndToEnd(w: Write, p: Parts)
    requires !p.next.Stdin? && w.frames == FramesOf(p) && (w.expected == "" || w.force)
    ensures WriteCall(w) == if TurnedAway(WRITE_FILE, p).Some? then None else Some(Join(p.chunks))
    ensures UnaryResult(Deliver(Trace(WriteOne(w)))) ==
            var away := TurnedAway(WRITE_FILE, p);
            if away.Some? then Err(away.value)
            else if w.written.Err? then Err(StreamFailed(Coded(WriteFailed, Describe(w.written.error))))
            else Ok(Known(w.statAfter))
  {
    var s := WriteOne(w);
    FirstOtherFrameDecides(WRITE_FILE, p.chunks, p.next, p.more);
    WriteEndToEnd(w);
    if Trace(s)[0].Failure? { ErrorStream(s, Trace(s)[0].code, Trace(s)[0].detail); }
  }

  /** A precondition that cannot be checked is an error of its own, and nothing is written. */
  lemma {:induction false} UncheckableWriteEndToEnd(w: Write)
    requires w.expected != "" && !w.force && w.statBefore.Err? && !Outdated(w)
    ensures WriteCall(w).None?
    ensures UnaryResult(Deliver(Trace(WriteOne(w)))) ==
            Err(if RuntimeOpens(w.statBefore.error, "stat_revision not yet implemented") then
                  Unsupported(NO_STAT_REVISION)
                else StreamFailed(Coded(WriteFailed, Describe(w.statBefore.error))))
  {
    var s := WriteOne(w);
    ErrorStream(s, Trace(s)[0].code, Trace(s)[0].detail);
  }

  /** A delete succeeds exactly when the runtime's does; a populated directory is a conflict of its own. */
  lemma DeleteEndToEnd(answer: Answer<()>)
    ensures var r := UnaryResult(Deliver(Trace(Delete(answer))));
            if answer.Ok? then r == Ok(None)
            else
              var text := Describe(answer.error);
              r == Err(if Contains(text, "is a directory") || Contains(text, "Directory not empty") then
                         PopulatedDirectory(text)
                       else StreamFailed(Coded(DeleteFailed, text)))
  {
    CompleteStreamHasTerminal(Delete(answer));
    CompleteStream(Delete(answer));
    if answer.Ok? { assert Body(Deliver(Trace(Delete(answer)))) == []; }
    if answer.Err? {
      ErrorStream(Delete(answer), DeleteErrorCode(Describe(answer.error)), Describe(answer.error));
    }
  }
}

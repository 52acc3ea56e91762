/**
 The agent's one-shot I/O sessions: read, list, delete, wait for a port, write,
 and unpack a tarball. A driver turns the runtime's answers into server frames
 on a channel whose receiver may go away after any number of frames.
 */
module FileOps {
  import opened Prelude
  import opened Wire

  const READ_FILE_CHUNK_BYTES: nat := 64 * 1024
  const MAX_WRITE_BYTES: nat := 256 * 1024 * 1024
  const WAIT_PORT_LISTENING_MAX_TIMEOUT_MS: nat := 300_000
  const U32_MAX: nat := 0xFFFF_FFFF

  const EXIT_OK := Exited(ExitInfo(0, false))

  datatype AgentError = Runtime(detail: string) | OtherError(text: string)

  type Answer<T> = Result<T, AgentError>

  function Describe(e: AgentError): string {
    match e
    case Runtime(detail) => "container runtime error: " + detail
    case OtherError(text) => text
  }

  predicate Contains(text: string, part: string) {
    exists i :: 0 <= i <= |text| && part <= text[i..]
  }

  predicate RuntimeSays(e: AgentError, part: string) {
    e.Runtime? && Contains(e.detail, part)
  }

  predicate RuntimeOpens(e: AgentError, part: string) {
    e.Runtime? && part <= e.detail
  }

  // ---- the sender ----

  /** The frames a receiver gets that leaves after `room` of them. */
  function Cut(trace: seq<ServerFrame>, room: nat): seq<ServerFrame> {
    if |trace| <= room then trace else trace[..room]
  }

  class ServerTx {
    const room: nat
    var sent: seq<ServerFrame>

    constructor (room: nat)
      ensures this.room == room && sent == []
    {
      this.room := room;
      sent := [];
    }

    method Send(f: ServerFrame) returns (ok: bool)
      modifies this
      ensures ok == (|old(sent)| < room)
      ensures sent == if ok then old(sent) + [f] else old(sent)
    {
      ok := |sent| < room;
      if ok { sent := sent + [f]; }
    }
  }

  // ---- the complete trace of every operation ----

  function MetaFrames(stat: Answer<Revision>): seq<ServerFrame> {
    if stat.Ok? then [FileMeta(stat.value)] else []
  }

  function StdoutFrames(chunks: seq<Bytes>): seq<ServerFrame> {
    seq(|chunks|, i requires 0 <= i < |chunks| => Stdout(chunks[i]))
  }

  function ReadErrorCode(e: AgentError): ErrorCode {
    if RuntimeSays(e, "No such file") then FileNotFound else ReadFileFailed
  }

  function ReadTrace(content: Answer<Bytes>, stat: Answer<Revision>): seq<ServerFrame> {
    if content.Err? then [Failure(ReadErrorCode(content.error), Describe(content.error))]
    else MetaFrames(stat) + StdoutFrames(Chunks(content.value, READ_FILE_CHUNK_BYTES)) + [EXIT_OK]
  }

  function ProtoKind(kind: EntryKind): int {
    match kind
    case FileEntry => 1
    case DirEntry => 2
    case SymlinkEntry => 3
    case OtherEntry => 4
  }

  function ProtoEntry(e: Entry<EntryKind>): Entry<int> {
    Entry(e.name, ProtoKind(e.kind), e.size, e.revision, e.mode, e.target)
  }

  function ProtoListing(l: Listing<EntryKind>): Listing<int> {
    Listing(l.path, seq(|l.entries|, i requires 0 <= i < |l.entries| => ProtoEntry(l.entries[i])), l.truncated, l.total)
  }

  function ListErrorCode(e: AgentError): ErrorCode {
    if RuntimeOpens(e, "list_dir not yet implemented") then NotImplemented
    else if RuntimeSays(e, "No such file") then FileNotFound
    else OtherCode("LIST_DIR_FAILED")
  }

  function ListTrace(answer: Answer<Listing<EntryKind>>): seq<ServerFrame> {
    if answer.Ok? then [ListDirResult(ProtoListing(answer.value)), EXIT_OK]
    else [Failure(ListErrorCode(answer.error), Describe(answer.error))]
  }

  function DeleteErrorCode(text: string): ErrorCode {
    if Contains(text, "is a directory") || Contains(text, "Directory not empty") then DirectoryNotEmpty
    else DeleteFailed
  }

  function DeleteTrace(answer: Answer<()>): seq<ServerFrame> {
    if answer.Ok? then [EXIT_OK] else [Failure(DeleteErrorCode(Describe(answer.error)), Describe(answer.error))]
  }

  function Min(a: nat, b: nat): nat {
    if a <= b then a else b
  }

  /** A probe that timed out reports no more than its own timeout. */
  function ElapsedMs(timeoutMs: nat, ready: bool, measuredMs: nat): nat {
    if ready then Min(measuredMs, U32_MAX)
    else Min(Min(measuredMs, U32_MAX), Min(timeoutMs, WAIT_PORT_LISTENING_MAX_TIMEOUT_MS))
  }

  function WaitTrace(timeoutMs: nat, answer: Answer<bool>, measuredMs: nat): seq<ServerFrame> {
    if answer.Ok? then [WaitPortResult(answer.value, ElapsedMs(timeoutMs, answer.value, measuredMs)), EXIT_OK]
    else if RuntimeOpens(answer.error, "wait_port_listening not yet implemented") then
      [Failure(NotImplemented, "wait_port_listening not yet implemented for this backend")]
    else [Failure(OtherCode("WAIT_PORT_LISTENING_FAILED"), Describe(answer.error))]
  }

  // ---- collecting an upload ----

  /** `Refused` carries the answer to the client. */
  datatype Upload = Taking(content: Bytes) | Taken(content: Bytes) | Refused(frame: ServerFrame)

  /** An operation that takes an upload, as the texts of its two refusals. */
  datatype UploadOp = UploadOp(tooLarge: string, notAnUpload: string)

  const WRITE_FILE := UploadOp(
    "write_file body exceeds 268435456-byte cap",
    "only Stdin and Close frames are valid in write_file mode")

  const WRITE_FILES_TARGZ := UploadOp(
    "write_files_targz body exceeds 268435456-byte cap",
    "only Stdin and Close frames are valid in write_files_targz mode")

  function TooLarge(op: UploadOp): ServerFrame {
    Failure(PayloadTooLarge, op.tooLarge)
  }

  function NotAnUpload(op: UploadOp): ServerFrame {
    Failure(InvalidRequest, op.notAnUpload)
  }

  function Take(op: UploadOp, content: Bytes, f: ClientFrame): Upload {
    match f
    case Stdin(bytes) =>
      if |content| + |bytes| > MAX_WRITE_BYTES then Refused(TooLarge(op)) else Taking(content + bytes)
    case CloseFrame(_) => Taken(content)
    case Malformed => Taken(content)
    case ReadFailed(_) => Taken(content)
    case _ => Refused(NotAnUpload(op))
  }

  function Collected(op: UploadOp, frames: seq<ClientFrame>): Upload {
    if frames == [] then Taking([])
    else
      var before := Collected(op, frames[..|frames| - 1]);
      if before.Taking? then Take(op, before.content, frames[|frames| - 1]) else before
  }

  lemma {:induction false} CollectedStays(op: UploadOp, frames: seq<ClientFrame>, more: seq<ClientFrame>)
    requires !Collected(op, frames).Taking?
    ensures Collected(op, frames + more) == Collected(op, frames)
  {
    if more == [] {
      assert frames + more == frames;
    } else {
      CollectedStays(op, frames, more[..|more| - 1]);
      assert (frames + more)[..|frames + more| - 1] == frames + more[..|more| - 1];
    }
  }

  /** The collecting loop of both upload drivers. The end of the stream ends the upload too. */
  method CollectUpload(op: UploadOp, frames: seq<ClientFrame>) returns (content: Result<Bytes, ServerFrame>)
    ensures var u := Collected(op, frames);
            content == if u.Refused? then Err(u.frame) else Ok(u.content)
  {
    var bytes: Bytes := [];
    for i := 0 to |frames|
      invariant Collected(op, frames[..i]) == Taking(bytes)
    {
      assert frames[..i + 1][..i] == frames[..i];
      var f := frames[i];
      if Collected(op, frames[..i + 1]).Taking? {} else { CollectedStays(op, frames[..i + 1], frames[i + 1..]); }
      assert frames == frames[..i + 1] + frames[i + 1..];
      match f {
        case Stdin(chunk) =>
          if |bytes| + |chunk| > MAX_WRITE_BYTES {
            return Err(TooLarge(op));
          }
          bytes := bytes + chunk;
        case CloseFrame(_) => return Ok(bytes);
        case Malformed => return Ok(bytes);
        case ReadFailed(_) => return Ok(bytes);
        case SignalFrame(_) => return Err(NotAnUpload(op));
        case StartFrame => return Err(NotAnUpload(op));
      }
    }
    assert frames[..|frames|] == frames;
    content := Ok(bytes);
  }

  // ---- writing ----

  /** The answer to a write whose revision precondition fails. */
  function PreconditionError(expected: string, force: bool, stat: Answer<Revision>): Option<ServerFrame> {
    if expected == "" || force then None
    else if stat.Ok? then
      if stat.value.token == expected then None else Some(Failure(RevisionMismatch, stat.value.token))
    else if RuntimeOpens(stat.error, "stat_revision not yet implemented") then
      Some(Failure(NotImplemented, NO_STAT_REVISION))
    else if RuntimeSays(stat.error, "No such file") then Some(Failure(RevisionMismatch, ""))
    else Some(Failure(WriteFailed, Describe(stat.error)))
  }

  const NO_STAT_REVISION :=
    "write_file expected_revision precondition requires a runtime that supports stat_revision; " +
    "not yet implemented for this backend. Pass force=true to bypass."

  /** A write session: its parameters, the client's frames, and the runtime's answers along the way. */
  datatype Write = Write(
    expected: string,
    force: bool,
    statBefore: Answer<Revision>,
    frames: seq<ClientFrame>,
    written: Answer<()>,
    statAfter: Answer<Revision>)

  /** What the runtime is asked to write, if anything. */
  function WriteCall(w: Write): Option<Bytes> {
    var u := Collected(WRITE_FILE, w.frames);
    if PreconditionError(w.expected, w.force, w.statBefore).Some? || u.Refused? then None else Some(u.content)
  }

  function WriteTrace(w: Write): seq<ServerFrame> {
    var refused, u := PreconditionError(w.expected, w.force, w.statBefore), Collected(WRITE_FILE, w.frames);
    if refused.Some? then [refused.value]
    else if u.Refused? then [u.frame]
    else if w.written.Err? then [Failure(WriteFailed, Describe(w.written.error))]
    else MetaFrames(w.statAfter) + [EXIT_OK]
  }

  function TargzTrace(frames: seq<ClientFrame>, written: Answer<()>): seq<ServerFrame> {
    var u := Collected(WRITE_FILES_TARGZ, frames);
    if u.Refused? then [u.frame]
    else if written.Err? then [Failure(WriteFailed, Describe(written.error))]
    else [EXIT_OK]
  }

  class Store {
    var writes: seq<Bytes>
    var unpacked: seq<Bytes>
  }

  // ---- the drivers ----

  lemma StdoutMore(chunk: Bytes, rest: seq<Bytes>)
    ensures StdoutFrames([chunk] + rest) == [Stdout(chunk)] + StdoutFrames(rest)
  {
  }

  /** One more chunk moves from the content to the frames sent. */
  lemma SentMore(sent: seq<ServerFrame>, bytes: Bytes, offset: nat, size: nat)
    requires offset < |bytes| && size > 0
    ensures var end := Min(offset + size, |bytes|);
            var all := sent + StdoutFrames(Chunks(bytes[offset..], size));
            all == (sent + [Stdout(bytes[offset..end])]) + StdoutFrames(Chunks(bytes[end..], size))
            && |sent| < |all| && all[..|sent|] == sent
  {
    var end := Min(offset + size, |bytes|);
    NextChunk(bytes, offset, size);
    StdoutMore(bytes[offset..end], Chunks(bytes[end..], size));
    SplitFirst(sent, Stdout(bytes[offset..end]), StdoutFrames(Chunks(bytes[end..], size)));
  }

  /** The chunking loop of a read; it stops when the receiver is gone. */
  method SendChunks(tx: ServerTx, bytes: Bytes) returns (ok: bool)
    requires |tx.sent| <= tx.room
    modifies tx
    ensures |tx.sent| <= tx.room
    ensures var all := old(tx.sent) + StdoutFrames(Chunks(bytes, READ_FILE_CHUNK_BYTES));
            if ok then tx.sent == all else tx.room < |all| && tx.sent == all[..tx.room]
  {
    var offset := 0;
    assert bytes[0..] == bytes;
    while offset < |bytes|
      invariant offset <= |bytes| && |tx.sent| <= tx.room
      invariant tx.sent + StdoutFrames(Chunks(bytes[offset..], READ_FILE_CHUNK_BYTES)) ==
                old(tx.sent) + StdoutFrames(Chunks(bytes, READ_FILE_CHUNK_BYTES))
    {
      var end := Min(offset + READ_FILE_CHUNK_BYTES, |bytes|);
      SentMore(tx.sent, bytes, offset, READ_FILE_CHUNK_BYTES);
      ok := tx.Send(Stdout(bytes[offset..end]));
      if !ok { return; }
      offset := end;
    }
    NilPlus(tx.sent);
    ok := true;
  }

  method DriveReadFile(tx: ServerTx, content: Answer<Bytes>, stat: Answer<Revision>)
    requires tx.sent == []
    modifies tx
    ensures tx.sent == Cut(ReadTrace(content, stat), tx.room)
  {
    if content.Err? {
      var _ := tx.Send(Failure(ReadErrorCode(content.error), Describe(content.error)));
      return;
    }
    if stat.Ok? {
      var ok := tx.Send(FileMeta(stat.value));
      if !ok { return; }
    }
    assert tx.sent == MetaFrames(stat);
    ghost var body := MetaFrames(stat) + StdoutFrames(Chunks(content.value, READ_FILE_CHUNK_BYTES));
    assert ReadTrace(content, stat) == body + [EXIT_OK];
    var ok := SendChunks(tx, content.value);
    if !ok {
      assert (body + [EXIT_OK])[..tx.room] == body[..tx.room];
      return;
    }
    var _ := tx.Send(EXIT_OK);
    assert (body + [EXIT_OK])[..|body|] == body;
  }

  method DriveListDir(tx: ServerTx, answer: Answer<Listing<EntryKind>>)
    requires tx.sent == []
    modifies tx
    ensures tx.sent == Cut(ListTrace(answer), tx.room)
  {
    if answer.Err? {
      var _ := tx.Send(Failure(ListErrorCode(answer.error), Describe(answer.error)));
      return;
    }
    var ok := tx.Send(ListDirResult(ProtoListing(answer.value)));
    if !ok { return; }
    var _ := tx.Send(EXIT_OK);
  }

  method DriveDeleteFile(tx: ServerTx, answer: Answer<()>)
    requires tx.sent == []
    modifies tx
    ensures tx.sent == Cut(DeleteTrace(answer), tx.room)
  {
    if answer.Ok? {
      var _ := tx.Send(EXIT_OK);
    } else {
      var _ := tx.Send(Failure(DeleteErrorCode(Describe(answer.error)), Describe(answer.error)));
    }
  }

  method DriveWaitPortListening(tx: ServerTx, timeoutMs: nat, answer: Answer<bool>, measuredMs: nat)
    requires tx.sent == []
    modifies tx
    ensures tx.sent == Cut(WaitTrace(timeoutMs, answer, measuredMs), tx.room)
  {
    if answer.Err? {
      if RuntimeOpens(answer.error, "wait_port_listening not yet implemented") {
        var _ := tx.Send(Failure(NotImplemented, "wait_port_listening not yet implemented for this backend"));
      } else {
        var _ := tx.Send(Failure(OtherCode("WAIT_PORT_LISTENING_FAILED"), Describe(answer.error)));
      }
      return;
    }
    var clamped := Min(timeoutMs, WAIT_PORT_LISTENING_MAX_TIMEOUT_MS);
    var elapsed := Min(measuredMs, U32_MAX);
    if !answer.value { elapsed := Min(elapsed, clamped); }
    var ok := tx.Send(WaitPortResult(answer.value, elapsed));
    if !ok { return; }
    var _ := tx.Send(EXIT_OK);
  }

  /** The runtime is asked to write at most once, and never by a session that answers with a refusal. */
  method DriveWriteFile(tx: ServerTx, store: Store, w: Write)
    requires tx.sent == []
    modifies tx, store`writes
    ensures tx.sent == Cut(WriteTrace(w), tx.room)
    ensures store.writes == old(store.writes) + if WriteCall(w).Some? then [WriteCall(w).value] else []
  {
    if w.expected != "" && !w.force {
      var refused := PreconditionError(w.expected, w.force, w.statBefore);
      if refused.Some? {
        var _ := tx.Send(refused.value);
        return;
      }
    }
    var content := CollectUpload(WRITE_FILE, w.frames);
    if content.Err? {
      var _ := tx.Send(content.error);
      return;
    }
    store.writes := store.writes + [content.value];
    if w.written.Err? {
      var _ := tx.Send(Failure(WriteFailed, Describe(w.written.error)));
      return;
    }
    if w.statAfter.Ok? {
      var ok := tx.Send(FileMeta(w.statAfter.value));
      if !ok { return; }
    }
    var _ := tx.Send(EXIT_OK);
  }

  method DriveWriteFilesTargz(tx: ServerTx, store: Store, frames: seq<ClientFrame>, written: Answer<()>)
    requires tx.sent == []
    modifies tx, store`unpacked
    ensures tx.sent == Cut(TargzTrace(frames, written), tx.room)
    ensures var u := Collected(WRITE_FILES_TARGZ, frames);
            store.unpacked == old(store.unpacked) + if u.Refused? then [] else [u.content]
  {
    var content := CollectUpload(WRITE_FILES_TARGZ, frames);
    if content.Err? {
      var _ := tx.Send(content.error);
      return;
    }
    store.unpacked := store.unpacked + [content.value];
    if written.Err? {
      var _ := tx.Send(Failure(WriteFailed, Describe(written.error)));
    } else {
      var _ := tx.Send(EXIT_OK);
    }
  }

  // ---- the grammar of every operation ----

  datatype Session =
    | Read(content: Answer<Bytes>, stat: Answer<Revision>)
    | List(listing: Answer<Listing<EntryKind>>)
    | Delete(deleted: Answer<()>)
    | WaitPort(timeoutMs: nat, ready: Answer<bool>, measuredMs: nat)
    | WriteOne(write: Write)
    | WriteMany(frames: seq<ClientFrame>, written: Answer<()>)

  function Trace(s: Session): seq<ServerFrame> {
    match s
    case Read(content, stat) => ReadTrace(content, stat)
    case List(listing) => ListTrace(listing)
    case Delete(deleted) => DeleteTrace(deleted)
    case WaitPort(timeoutMs, ready, measuredMs) => WaitTrace(timeoutMs, ready, measuredMs)
    case WriteOne(write) => WriteTrace(write)
    case WriteMany(frames, written) => TargzTrace(frames, written)
  }

  predicate Terminal(f: ServerFrame) {
    f.Exited? || f.Failure?
  }

  predicate IsStdout(f: ServerFrame) {
    f.Stdout? && 0 < |f.bytes| <= READ_FILE_CHUNK_BYTES
  }

  /** The frames a successful session of this kind sends before its exit. */
  predicate BodyOk(s: Session, body: seq<ServerFrame>) {
    match s
    case Read(_, _) =>
      || (body != [] && body[0].FileMeta? && forall i :: 1 <= i < |body| ==> IsStdout(body[i]))
      || (forall f <- body :: IsStdout(f))
    case List(_) => |body| == 1 && body[0].ListDirResult?
    case WaitPort(_, _, _) => |body| == 1 && body[0].WaitPortResult?
    case WriteOne(_) => body == [] || (|body| == 1 && body[0].FileMeta?)
    case _ => body == []
  }

  /** A body of the operation's own frames and one clean exit, or one error and nothing else. */
  predicate Grammar(s: Session, trace: seq<ServerFrame>) {
    || (trace != [] && trace[|trace| - 1] == EXIT_OK && BodyOk(s, trace[..|trace| - 1]))
    || (|trace| == 1 && trace[0].Failure?)
  }

  lemma {:induction false} RefusalIsFailure(op: UploadOp, frames: seq<ClientFrame>)
    ensures Collected(op, frames).Refused? ==> Collected(op, frames).frame.Failure?
  {
    if frames != [] {
      RefusalIsFailure(op, frames[..|frames| - 1]);
    }
  }

  lemma ReadFollowsGrammar(s: Session)
    requires s.Read?
    ensures Grammar(s, Trace(s))
  {
    if s.content.Ok? {
      var chunks := Chunks(s.content.value, READ_FILE_CHUNK_BYTES);
      ChunksJoin(s.content.value, READ_FILE_CHUNK_BYTES);
      var body := MetaFrames(s.stat) + StdoutFrames(chunks);
      assert Trace(s) == body + [EXIT_OK];
      assert Trace(s)[..|Trace(s)| - 1] == body;
      assert forall f <- StdoutFrames(chunks) :: IsStdout(f);
      if s.stat.Ok? {
        assert forall i :: 1 <= i < |body| ==> body[i] == StdoutFrames(chunks)[i - 1];
      } else {
        assert body == StdoutFrames(chunks);
      }
    }
  }

  /** Every operation, whatever the runtime answers, sends a trace of its own grammar. */
  lemma EveryTraceFollowsGrammar(s: Session)
    ensures Grammar(s, Trace(s))
  {
    match s
    case Read(_, _) => ReadFollowsGrammar(s);
    case WriteOne(write) => RefusalIsFailure(WRITE_FILE, write.frames);
    case WriteMany(frames, _) => RefusalIsFailure(WRITE_FILES_TARGZ, frames);
    case _ =>
  }

  /** A complete trace ends with its only terminal frame, so a cut one has none. */
  lemma OnlyTheLastIsTerminal(s: Session, i: nat)
    requires i < |Trace(s)|
    ensures Terminal(Trace(s)[i]) <==> i == |Trace(s)| - 1
  {
    EveryTraceFollowsGrammar(s);
    if i < |Trace(s)| - 1 {
      assert Trace(s)[..|Trace(s)| - 1][i] == Trace(s)[i];
    }
  }

  lemma WaitPortIsBounded(timeoutMs: nat, ready: bool, measuredMs: nat)
    ensures ElapsedMs(timeoutMs, ready, measuredMs) <= U32_MAX
    ensures !ready ==> ElapsedMs(timeoutMs, ready, measuredMs) <= timeoutMs
    ensures !ready ==> ElapsedMs(timeoutMs, ready, measuredMs) <= WAIT_PORT_LISTENING_MAX_TIMEOUT_MS
    ensures ElapsedMs(timeoutMs, ready, measuredMs) <= measuredMs
    ensures ElapsedMs(timeoutMs, ready, measuredMs) in
              {measuredMs, U32_MAX} + if ready then {} else {timeoutMs, WAIT_PORT_LISTENING_MAX_TIMEOUT_MS}
  {
  }

  // ---- what the collector takes ----

  function StdinFrames(chunks: seq<Bytes>): seq<ClientFrame> {
    seq(|chunks|, i requires 0 <= i < |chunks| => Stdin(chunks[i]))
  }

  /** Stdin frames alone are taken whole exactly while they fit the cap. */
  lemma {:induction false} CollectsWhatFits(op: UploadOp, chunks: seq<Bytes>)
    ensures Collected(op, StdinFrames(chunks)) ==
      if |Join(chunks)| <= MAX_WRITE_BYTES then Taking(Join(chunks))
      else Refused(Failure(PayloadTooLarge, op.tooLarge))
  {
    if chunks != [] {
      var n := |chunks| - 1;
      CollectsWhatFits(op, chunks[..n]);
      assert StdinFrames(chunks)[..n] == StdinFrames(chunks[..n]);
    }
  }

  /** The frames that end an upload without spoiling it. */
  predicate EndsUpload(f: ClientFrame) {
    f.CloseFrame? || f.Malformed? || f.ReadFailed?
  }

  /** Whatever follows, the first frame that is not Stdin decides the upload, unless it was too large by then. */
  lemma {:induction false} FirstOtherFrameDecides(
    op: UploadOp, chunks: seq<Bytes>, f: ClientFrame, more: seq<ClientFrame>)
    requires !f.Stdin?
    ensures Collected(op, StdinFrames(chunks) + [f] + more) ==
      if |Join(chunks)| > MAX_WRITE_BYTES then Refused(Failure(PayloadTooLarge, op.tooLarge))
      else if EndsUpload(f) then Taken(Join(chunks))
      else Refused(Failure(InvalidRequest, op.notAnUpload))
  {
    CollectsWhatFits(op, chunks);
    var frames := StdinFrames(chunks) + [f];
    assert frames[..|frames| - 1] == StdinFrames(chunks);
    CollectedStays(op, frames, more);
  }
}

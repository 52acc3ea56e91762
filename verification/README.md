# Verified models of the sandbox platform's I/O, lifecycle, cache and codecs

This project models the parts of the platform where ordering, interleaving and
framing decide correctness, and proves properties of them over every input,
every interleaving and every chunking.

- `SandboxLifecycle` has the agent's sandbox manager: commands that take a
  per-sandbox lock, call the container runtime and then update a shared table.
  Every interleaving is shown equal to running the commands one at a time.
- `ExecSession`, `ExecProgress`, `ExecRegistry` and `Tunnel` have the streaming exec session:
  a driver, a demux of client frames and two output pumps over bounded queues,
  the registry that decides who is killed, and the tunnel that feeds many
  sessions at once.
- `FileOps`, `Gateway` and `Upload` have the one-shot file operations from end
  to end: the agent's drivers, the gateway's collectors and WebSocket pump, and
  the chunked upload over two bounded channels.
- `LiveEdit` has the editor's optimistic saves against a revision token, with
  many panels, outside writers and answers in any order.
- `MarkerPump` has the stripping of the pid marker from a chunked stderr
  stream, and `ExecDrain` the draining of two bounded output channels.
- `ImageCache` has the extract, rename and mark protocol of one cached image
  under concurrent pulls, failures and crashes.
- `CreateLoop`, `ListingParser`, `Protobuf` and `Argv` have the container
  create loop, the directory listing parser, the browser's Protocol Buffers
  codec and the command line splitter.

Concurrent parts are state machines: a `State`, an `Action`, `Enabled`, `Step`
and `Exec` over a sequence of actions. Answers of the runtime, the daemon, the
file system and the network, and the moment a receiver goes away, are free
choices of the environment. Code that loops or updates in place is a method or
a class, proved against a specification function or an outright property.

## Findings

- The drains of `drain_to_exit` and `read_file`, which read stdout to its end
  before stderr, can finish exactly when the exec's pump forwards at most four
  stderr chunks, counted after the marker is taken out
  (`ExecDrain.FinishesIffDrainsFit`); the concurrent drains always can.
- The pump's result depends on chunking exactly for a marker line that is
  longer than its 256-byte window (`MarkerPump.ChunkingMattersIffLate`); a pid
  with 243 or more leading zeros is one (`MarkerPump.LateMarkersExist`).
- A checked save replaces only content its panel has held exactly when four
  conditions are kept: no write falls between the read and the stat of an agent
  session, between its check and its write, or between its write and its stat,
  and no revision token is given to two contents. Giving up any one of them
  admits a silent overwrite (`LiveEdit.ProtectsIffAllConditions`). The docker
  runtime's token is the modification second and the size
  (crates/agent-docker/src/lib.rs:1228-1233), so a write of the same length
  within one second breaks the last condition.
- The image marker implies a complete rootfs exactly when three rules hold:
  marker removals do not fail unseen, directory removals do not break off, and
  forced installs overlap no other install. Giving up any one of them admits a
  false marker, for an image of any number of layers
  (`ImageCache.SufficeIffAllRules`). The comment at
  crates/agent-youki/src/image.rs:145-149 calls the worst case one redundant
  pull; a removal that breaks off contradicts it (`ImageCache.TornRemoval`).
- A forced pull that is dropped, as the create deadline does, is not over: a
  removal it had begun can still empty the rootfs under a pull begun later
  (`ImageCache.RemovalOutlivesItsPull`). Until it is over such a pull counts as
  installing in the rules above.
- An upload whose gateway breaks off is ended by the proxy's own Close and
  written as far as it came; the whole content is written exactly when, besides
  the precondition and the cap, every Stdin frame had reached the proxy
  (`Upload.BrokenUploadIsWritten`, `Upload.WrittenIffAllowed`).
- A stderr stream that ends while the pump still waits for its marker loses all
  its bytes, and no other stream loses any (`MarkerPump.LostAtEndIffUndecided`).
- Splitting a command line distributes over whitespace exactly when the first
  part ends outside a quote (`Argv.ParseApartIff`).

## Model

| member | source | states |
|---|---|---|
| `SandboxLifecycle.Linearizable` | crates/agent/src/sandbox.rs:57-240 | every interleaving of start, stop, pause and unpause has the containers, the replies and, for each idle sandbox, the table entry and lock order of its log replayed one command at a time |
| `SandboxLifecycle.QuiescentIsSequential` | crates/agent/src/sandbox.rs:57-240 | once no command is inside, the whole table and all containers are those of the sequential replay |
| `SandboxLifecycle.OneInside` | crates/agent/src/sandbox.rs:57-63 | two commands for one sandbox are never both past its lock |
| `SandboxLifecycle.LogOnlyGrows` | crates/agent/src/sandbox.rs:65-240 | effects already made are never reordered or taken back |
| `SandboxLifecycle.EffectsHappenOnce` | crates/agent/src/sandbox.rs:65-240 | a command takes effect at most once |
| `SandboxLifecycle.RealTimeOrder` | crates/agent/src/sandbox.rs:65-240 | a command that has its reply before another is invoked takes effect before it |
| `SandboxLifecycle.RuntimeAgreement` | crates/agent/src/sandbox.rs:125-240 | an entry marked Running or Paused, with no command inside, names a live container in exactly that state |
| `SandboxLifecycle.RepliesTellTheTruth` | crates/agent/src/sandbox.rs:65-240 | for every command, agreeing world and runtime answer: an error of stop, pause or unpause changes nothing; a stop that succeeds leaves neither entry nor container; Running and Paused replies mean an entry in that state whose container is up or frozen; a created start has exactly the answered container and port, any other a Failed entry; success comes exactly when the runtime did its part or nothing was to do; no other sandbox or container changes |
| `SandboxLifecycle.EveryReplyIsTrue` | crates/agent/src/sandbox.rs:57-240 | every reply in every interleaved run is true in that sense of the worlds before and after one event of the log, which has the command's own verb and sandbox |
| `SandboxLifecycle.EventsAreCommands` | crates/agent/src/sandbox.rs:57-240 | every event of a run is of an invoked command, with its verb and sandbox |
| `SandboxLifecycle.UnparsableIsRefused` | crates/agent/src/sandbox.rs:14-20 | a command whose id does not parse has no effect and can only be answered as invalid |
| `SandboxLifecycle.RelookupFindsEntry` | crates/agent/src/sandbox.rs:178-212 | the second lookup after a pause or unpause call always finds its entry |
| `SandboxLifecycle.AtomicKeepsAgreement` | crates/agent/src/sandbox.rs:65-240 | a single command keeps the table in agreement with the runtime |
| `SandboxLifecycle.ReplayAgrees` | crates/agent/src/sandbox.rs:65-240 | so does every sequence of commands |
| `SandboxLifecycle.RunKeepsInv` | crates/agent/src/sandbox.rs:57-240 | the lock, slot and reply invariants hold after every run |
| `SandboxLifecycle.SandboxManager.CommandLock` | crates/agent/src/sandbox.rs:57-63 | one lock per sandbox, created once and kept, and never the lock of another sandbox |
| `SandboxLifecycle.SandboxManager.StartSandbox` | crates/agent/src/sandbox.rs:65-154 | the method does exactly the atomic start, error paths and deadline included |
| `SandboxLifecycle.SandboxManager.PauseSandbox` | crates/agent/src/sandbox.rs:165-187 | the method does exactly the atomic pause |
| `SandboxLifecycle.SandboxManager.UnpauseSandbox` | crates/agent/src/sandbox.rs:191-213 | the method does exactly the atomic unpause |
| `SandboxLifecycle.SandboxManager.StopSandbox` | crates/agent/src/sandbox.rs:215-240 | the method does exactly the atomic stop, whose reply is true by `RepliesTellTheTruth`: a refused removal is an error that leaves entry and container as they were |
| `ExecRegistry.Registry.Remove` | crates/agent/src/exec_registry.rs:62-64 | the stream's record is returned and gone, and no other changes |
| `ExecRegistry.OnStreamClosed` | crates/agent/src/exec_registry.rs:93-146 | SIGTERM then SIGKILL to the removed record's process even when a delivery fails, nothing for an unknown stream |
| `ExecRegistry.RegisterUntilEnd` | crates/agent/src/io_stream.rs:217-425 | a record that goes in comes out again whichever way its exec ends, no other record is touched, and its process is signalled exactly when the end was not natural |
| `ExecSession.RunKeepsInv` | crates/agent/src/io_stream.rs:172-525 | the invariants of demux, pumps, trace, registry slot and signals hold after every run of a session |
| `ExecSession.TraceGrammar` | crates/agent/src/io_stream.rs:199-425 | a finished session sent Started, output and one Exited or error, or one error, cut short only by a receiver that left |
| `ExecSession.NaturalExitForwardsAll` | crates/agent/src/io_stream.rs:350-378 | after a natural exit every produced chunk was sent in order, and then as last frame the very exit info the runtime sent |
| `ExecSession.EndIsReported` | crates/agent/src/io_stream.rs:306-425 | in every run a finished session whose receiver stayed ends with the exit info the runtime sent if it ended by itself; a killed one ends with the cancellation exactly when a Close was taken, and with the runtime error exactly when the exit info it waited for was dropped |
| `ExecSession.OpeningIsAnswered` | crates/agent/src/io_stream.rs:79-101 | a session that never started a process is answered as its first frame calls for: an error stream by its text, any other frame as invalid, no frame at all by nothing |
| `ExecSession.RefusalIsReported` | crates/agent/src/io_stream.rs:199-205 | a start the runtime refuses is answered with the runtime's own words and nothing else |
| `ExecSession.ClosesHaveCause` | crates/agent/src/io_stream.rs:453-525 | a Close is posted only when the client left, asked for it, broke the protocol, or fed a stdin that was gone |
| `ExecSession.DemuxKeepsOk` | crates/agent/src/io_stream.rs:453-525 | every demux step passes on exactly what the frames taken so far call for |
| `ExecSession.DemuxDelivers` | crates/agent/src/io_stream.rs:276-288 | what the process read from stdin, and then what is queued for it, are the payloads before the first half-close; signals arrive in order before and after it; an ended demux posted one Close and never blocked on it |
| `ExecSession.DisconnectIsNoticed` | crates/agent/src/io_stream.rs:306-350 | when the demux has ended the loop has a Close to take |
| `ExecSession.FramesAreFifo` | crates/agent/src/io_stream.rs:80-100 | driver and demux take the client's frames in order, the Start first, none lost |
| `ExecSession.ConsumedAfterOpening` | crates/agent/src/io_stream.rs:80-100 | the demux sees nothing before the opening frame was taken |
| `ExecSession.NoDuplicateStart` | crates/agent/src/io_stream.rs:518-522 | the duplicate Start arm is not taken when no Start follows the first frame |
| `ExecSession.PidIsTheRuntimes` | crates/agent/src/io_stream.rs:207-226 | the pid a session announces and signals is the one the runtime reported |
| `ExecSession.SessionsAreIndependent` | crates/agent/src/io_stream.rs:58-110 | many sessions over one registry each behave as if alone |
| `ExecSession.KillAccounting` | crates/agent/src/io_stream.rs:218-425 | a finished stream has no record, and got SIGTERM then SIGKILL once each to its own pid exactly when it did not exit by itself |
| `ExecSession.RegistryIsExact` | crates/agent/src/io_stream.rs:218-238 | the shared registry holds exactly the streams between registration and end |
| `ExecProgress.SessionEnds` | crates/agent/src/io_stream.rs:306-425 | once the process has exited and its outputs are closed, a session, however far it has got, is led by its own steps and a reading receiver to its end, natural or killed, with its record gone; stdin plays no part |
| `ExecProgress.QuiescentIsFinished` | crates/agent/src/io_stream.rs:306-425 | every such run with no own step left is at that end |
| `ExecProgress.OwnStepsRunOut` | crates/agent/src/io_stream.rs:306-425 | own steps, in any order, never go on for ever |
| `Tunnel.ProxyConnection.HandleIoClientFrame` | crates/agent/src/proxy_client.rs:180-361 | refusals, acceptance and forwarding of one inbound frame, as the routing function says |
| `Tunnel.ProxyConnection.Run` | crates/agent/src/proxy_client.rs:110-178 | the inbound loop computes the routing of all its events |
| `Tunnel.RoutesOwnFrames` | crates/agent/src/proxy_client.rs:187-361 | a live session's queue is its accepted Start and then exactly its stream's later frames, in order |
| `Tunnel.LiveIffStarted` | crates/agent/src/proxy_client.rs:187-361 | a stream has a session exactly when an admitted Start found it free and its output has not ended since |
| `Tunnel.FreeStartIsDecided` | crates/agent/src/proxy_client.rs:187-285 | a Start for a free stream opens its session unanswered when its sandbox is in order, and otherwise opens none and is answered once with the sandbox's refusal |
| `Tunnel.SecondStartIsRefused` | crates/agent/src/proxy_client.rs:187-285 | any Start for a live stream is queued nowhere and answered once, as reused exactly when its sandbox is in order and with the sandbox's own refusal otherwise |
| `Tunnel.QueueHasOneStart` | crates/agent/src/proxy_client.rs:187-361 | a queue holds one Start, its first frame |
| `Tunnel.OnlyBadOpeningsAreInvalid` | crates/agent/src/io_stream.rs:80-100 | only a first frame that is no Start is answered as invalid |
| `Tunnel.TunnelSessionsStartOnce` | crates/agent/src/proxy_client.rs:187-361 | no session fed by the tunnel reaches the bad-opening or the duplicate-Start arm |
| `FileOps.DriveReadFile` | crates/agent/src/io_stream.rs:527-602 | optional meta, 64 KiB chunks, exit, or one error, up to the frame at which the receiver left |
| `FileOps.SendChunks` | crates/agent/src/io_stream.rs:574-583 | the chunk loop sends the chunks of the content in order until a send fails |
| `FileOps.DriveListDir` | crates/agent/src/io_stream.rs:611-689 | one listing and an exit, or one error of the right code |
| `FileOps.DriveDeleteFile` | crates/agent/src/io_stream.rs:697-750 | an exit, or one error of the right code |
| `FileOps.DriveWaitPortListening` | crates/agent/src/io_stream.rs:769-860 | one result with clamped times and an exit, or one error |
| `FileOps.WaitPortIsBounded` | crates/agent/src/io_stream.rs:783-841 | the reported time is one of the measured time and the caps in force, and exceeds none of them: for a failed wait its own timeout and the platform's are among them |
| `FileOps.CollectUpload` | crates/agent/src/io_stream.rs:975-1015 | the collecting loop computes the collected upload, its refusals included |
| `FileOps.CollectsWhatFits` | crates/agent/src/io_stream.rs:984-1000 | Stdin frames are taken whole exactly while their total fits 256 MiB, and refused as too large otherwise |
| `FileOps.FirstOtherFrameDecides` | crates/agent/src/io_stream.rs:975-1015 | the first frame that is not Stdin decides the upload whatever follows: a Close, an empty frame or a failed read ends it with what was sent, any other is refused as no upload, unless it was too large by then |
| `FileOps.DriveWriteFile` | crates/agent/src/io_stream.rs:882-1053 | the precondition decides before anything is read, the runtime is asked to write at most once and only by a session that is not refused, and the frames follow |
| `FileOps.DriveWriteFilesTargz` | crates/agent/src/io_stream.rs:1055-1133 | the tarball is unpacked at most once and only if it is not refused, and the frames follow |
| `FileOps.EveryTraceFollowsGrammar` | crates/agent/src/io_stream.rs:549-1133 | for every operation and every runtime answer the frames follow the operation's grammar |
| `FileOps.OnlyTheLastIsTerminal` | crates/agent/src/io_stream.rs:549-1133 | exactly the last frame of a complete trace is terminal |
| `Gateway.UnaryViaIoStream` | crates/api/src/handlers.rs:675-709 | the loop's result from the first terminal frame or transport error, with the last meta before it |
| `Gateway.StreamViaIoStream` | crates/api/src/handlers.rs:725-775 | the joined Stdout payloads and the last meta before a clean exit, else the error |
| `Gateway.ListDirViaIoStream` | crates/api/src/handlers.rs:780-848 | the last listing before a clean exit, else the error |
| `Gateway.WaitPortViaIoStream` | crates/api/src/handlers.rs:852-897 | the last result before a clean exit, else the error |
| `Gateway.CompleteStreamHasTerminal` | crates/api/src/handlers.rs:675-897 | on a complete trace no collector ends without a terminal frame, and it sees that trace's own error or a clean exit |
| `Gateway.BrokenStreamIsAnError` | crates/api/src/handlers.rs:675-897 | a trace that arrives only in part is an error to every collector, never a shorter success |
| `Gateway.BrokenStreamClosesSo` | crates/api/src/ws_read_file.rs:185-281 | a trace that arrives only in part closes the socket with the code of the failure, or with 4503 without one, and never with 1000 |
| `Gateway.ReadersFollowTheEnd` | crates/api/src/handlers.rs:675-939 | every unary reader fails as the first ending says, each error code by its own error; on a clean exit only a missing result fails it |
| `Gateway.NoEndIsAnError` | crates/api/src/ws_read_file.rs:269-281 | a stream without any ending closes the socket with 4503 and fails every unary reader for want of a terminal frame |
| `Gateway.ReadEndToEnd` | crates/api/src/handlers.rs:738-774 | the unary read returns exactly the file with the revision that was stat'd |
| `Gateway.ListEndToEnd` | crates/api/src/handlers.rs:797-848 | a listing reaches the client unchanged, kinds included, or its error does: unsupported, missing, or a stream failure, each exactly when the runtime says so |
| `Gateway.ListingRoundTrip` | crates/agent/src/io_stream.rs:862-880 | entry kinds survive the numeric encoding and its decoding |
| `Gateway.WaitPortEndToEnd` | crates/api/src/handlers.rs:868-897 | the probe's answer reaches the client, or its error does: unsupported or a stream failure, each exactly when the runtime says so |
| `Gateway.WriteEndToEnd` | crates/api/src/handlers.rs:675-709 | a write succeeds at the gateway exactly when the runtime was asked to write and did, with the new revision |
| `Gateway.ReadErrorEndToEnd` | crates/agent/src/io_stream.rs:593-601 | a missing file is reported as missing on the unary path and closes the socket with 4404, any other read error is a stream failure and 4500 |
| `Gateway.StaleWriteEndToEnd` | crates/api/src/handlers.rs:906-939 | a checked write to a file that has moved on or is gone is a conflict carrying the live revision, and nothing is written |
| `Gateway.UncheckableWriteEndToEnd` | crates/agent/src/io_stream.rs:914-973 | a precondition the runtime cannot check is answered as unsupported, or as a failed write, and nothing is written |
| `Gateway.WriteUploadEndToEnd` | crates/agent/src/io_stream.rs:975-1053 | for every upload without a precondition to fail: what is written, and what the client hears, refused, failed or written with its new revision |
| `Gateway.TargzEndToEnd` | crates/agent/src/io_stream.rs:1055-1133 | a tarball upload succeeds exactly when it was taken whole and unpacked; a refusal or a failed unpacking is answered with its own error |
| `Gateway.DeleteEndToEnd` | crates/agent/src/io_stream.rs:721-748 | a delete succeeds exactly when the runtime's does; a populated directory is a conflict of its own and any other error a stream failure |
| `Gateway.Pump` | crates/api/src/ws_read_file.rs:185-281 | the socket gets the body's messages and one Close, less only if its client leaves; what that Close means is in the two rows that follow |
| `Gateway.ClosesCleanlyIffExited` | crates/api/src/ws_read_file.rs:185-281 | the last message is Close 1000 if and only if the first ending delivery is an exit with code 0 |
| `Gateway.CloseTellsTheEnd` | crates/api/src/ws_read_file.rs:228-315 | every other ending has the close code of its kind: 4500 for a failed exit, 4404, 4409, 4501 or 4500 for exactly the error codes they stand for, and for a transport error 4503 exactly when the proxy is unavailable |
| `Gateway.SocketCarriesBytesAndOneClose` | crates/api/src/ws_read_file.rs:185-281 | whatever is delivered, Binary messages carry exactly the stream's bytes and the only Close is the last message |
| `Gateway.SocketReadEndToEnd` | crates/api/src/ws_read_file.rs:185-281 | a streamed read is the revision first, then chunks that join to the file, then Close 1000 |
| `Upload.ProduceBody` | crates/api/src/handlers.rs:643-673 | the producer's loop yields the 64 KiB chunks of the content and one half-close |
| `Upload.StepIsFifo` | crates/api/src/handlers.rs:643-709 | no step loses, duplicates or reorders a frame between gateway and agent |
| `Upload.WritesWhatArrived` | crates/agent/src/io_stream.rs:914-1053 | on every run the runtime is asked to write at most once, only what arrived of the content, and only if the precondition passes and the length fits |
| `Upload.SomeStep` | crates/api/src/handlers.rs:643-709 | an upload that may be written is never stuck before it is written, for any channel capacities |
| `Upload.EndedRunsHaveWritten` | crates/agent/src/io_stream.rs:914-1053 | every run of such an upload that has no step left has written exactly what arrived |
| `Upload.UploadCompletes` | crates/agent/src/io_stream.rs:914-1053 | wherever such a run has got to, it can go on to that write |
| `Upload.RunsAreFinite` | crates/agent/src/io_stream.rs:914-1053 | no run has more steps than the initial measure |
| `Upload.WrittenIffAllowed` | crates/agent/src/io_stream.rs:914-1053 | some write happens exactly when the revision test passes and what arrived is within the cap; the whole content is written exactly when, besides, every Stdin frame arrived |
| `Upload.BrokenUploadIsWritten` | crates/proxy/src/grpc.rs:500-518 | for every point at which the gateway breaks off, the write is the join of the chunks that arrived, and it is the content exactly when no Stdin frame is missing |
| `LiveEdit.NoSilentOverwrite` | ui/components/live-edit-panel.tsx:236-330 | with no write inside another session's window and no token given to two contents, a checked save replaces only content its own panel had loaded or written |
| `LiveEdit.ReadFillsTab` | ui/components/live-edit-panel.tsx:140-434 | in every run a delivered read that a panel adopts, one that opens a closed tab or reloads an open one, gives the tab the read's token and saved content and shows the bytes, or the stash it was opened with; any other changes no tab |
| `LiveEdit.WriteRenewsTab` | ui/components/live-edit-panel.tsx:251-266 | in every run a delivered write gives its tab the answered token, or leaves the old one if none was answered, makes what was sent the saved content, and leaves the buffer alone |
| `LiveEdit.OtherStepsKeepTabs` | ui/components/live-edit-panel.tsx:118-497 | no other step changes a tab, but for the text a user types and the tab a user closes |
| `LiveEdit.SavesAreGuarded` | ui/components/live-edit-panel.tsx:236-252 | in every run whose stats after reads all answered, an ordinary save sends the tab's current buffer with the tab's own token, to be checked |
| `LiveEdit.OrdinarySavesAreSafe` | ui/components/live-edit-panel.tsx:236-330 | in a quiet run of that kind only a forced overwrite can replace content its panel has never held |
| `LiveEdit.OverwritesSendTheBuffer` | ui/components/live-edit-panel.tsx:446-457 | an overwrite sends the tab's current buffer and asks for no check |
| `LiveEdit.CheckPassesIff` | crates/agent/src/io_stream.rs:914-973 | the check lets a write through unchanged exactly when none is asked for or the token is the live one, and otherwise answers with the live token |
| `LiveEdit.UncontestedSaveLands` | ui/components/live-edit-panel.tsx:236-497 | from every reachable state a save or overwrite that nobody contests puts the buffer on disk and leaves the tab clean with the new token, other tabs and sessions untouched |
| `LiveEdit.UnseenContentIsRefused` | crates/agent/src/io_stream.rs:914-973 | under the same conditions a checked save over content its panel never held is refused with the live token |
| `LiveEdit.DirtyMarkIsExact` | ui/components/live-edit-panel.tsx:208-234 | in every run the dirty mark says whether buffer and saved content differ |
| `LiveEdit.QuietRunsKeepInv` | ui/components/live-edit-panel.tsx:118-497 | the token invariant of panels and sessions holds after every run that keeps the four conditions |
| `LiveEdit.ReadWindowRace` | crates/agent/src/io_stream.rs:549-571 | a write between read and stat, the other three conditions kept, leads to a silent overwrite |
| `LiveEdit.CheckWindowRace` | crates/agent/src/io_stream.rs:914-1020 | so does a write between check and write alone |
| `LiveEdit.StatWindowRace` | crates/agent/src/io_stream.rs:1017-1036 | so does a write between a save's write and its stat alone |
| `LiveEdit.ReusedTokenRace` | crates/agent-docker/src/lib.rs:1228-1271 | so does a write alone that ends up with the token of the content it replaces, with no session under way |
| `LiveEdit.ProtectsIffAllConditions` | crates/agent/src/io_stream.rs:549-1036 | a set of the conditions rules out silent overwrites in every run exactly when it is all four |
| `MarkerPump.StderrPump.ConsumeInpidMarker` | crates/agent/src/container.rs:374-404 | one look at the buffered head: found and removed, wait, or give up |
| `MarkerPump.StderrPump.OnChunk` | crates/agent-docker/src/lib.rs:632-681 | one chunk updates buffer, pid and forwarded bytes as the specification says |
| `MarkerPump.StderrPump.Run` | crates/agent-youki/src/exec.rs:153-217 | the read loop computes the specification over all chunks, and drops what it still holds when the stream ends |
| `MarkerPump.ChunkingDoesNotMatter` | crates/agent/src/container.rs:359-404 | unless the marker line is late, every chunking gives the pid and bytes of the whole stream |
| `MarkerPump.LateMarkerDependsOnChunking` | crates/agent/src/container.rs:359-404 | a late marker is found in one piece and missed when cut after the window |
| `MarkerPump.ChunkingMattersIffLate` | crates/agent/src/container.rs:359-404 | all chunkings agree exactly when the marker is not late |
| `MarkerPump.BytesAreConserved` | crates/agent-docker/src/lib.rs:615-681 | at every moment removed marker, forwarded bytes and held bytes are the bytes received, with at most 256 held |
| `MarkerPump.LostAtEndIffUndecided` | crates/agent-docker/src/lib.rs:615-690 | a finished stream loses bytes exactly when it is not empty and nothing in it settled whether it has a marker, and then it loses all |
| `MarkerPump.LateMarkersExist` | crates/agent/src/container.rs:359-404 | a zero-padded pid is a marker at any length, and a late one exactly from 243 leading zeros on |
| `MarkerPump.InpidIsValid` | crates/agent/src/container.rs:342-372 | the marker's own prefix and window satisfy the format's conditions |
| `MarkerPump.PidRoundTrip` | crates/agent/src/container.rs:374-404 | every printed number, signed or not, is read back exactly while it fits 32 bits |
| `MarkerPump.MarkerIsStripped` | crates/agent/src/container.rs:359-404 | a marker line within the window is taken out and read, and the rest forwarded, wherever the stream is cut |
| `MarkerPump.EveryPidIsStripped` | crates/agent-docker/src/lib.rs:615-681 | in particular the wrapper's line for every 32-bit pid |
| `ExecDrain.DrainChannel` | crates/agent-docker/src/lib.rs:1152-1177 | one drain keeps what its limit admits and reads to the end |
| `ExecDrain.KeptWithinLimit` | crates/agent-docker/src/lib.rs:1076-1085 | a drain keeps at most its limit, and everything when everything fits |
| `ExecDrain.KeepsWholeChunks` | crates/agent-docker/src/lib.rs:1076-1085 | what a drain keeps is whole chunks: exactly those that fit beside the kept ones before them |
| `ExecDrain.RunKeepsInv` | crates/agent-docker/src/lib.rs:606-711 | in every run each stream's chunks are drained, queued or still to come, in order, within the channel capacity |
| `ExecDrain.ConcurrentDrainsNeverStick` | crates/agent-docker/src/lib.rs:1074-1090 | with concurrent drains no reachable state is stuck, for any order of chunks, and every run is bounded |
| `ExecDrain.RunLength` | crates/agent-docker/src/lib.rs:606-711 | every step lowers the measure by one |
| `ExecDrain.CanFinish` | crates/agent-docker/src/lib.rs:1152-1181 | every reachable state leads to both drains ended and the exit info read |
| `ExecDrain.FinalBuffers` | crates/agent-docker/src/lib.rs:1152-1181 | every finished schedule has collected the same bytes, and the exit code its process gave |
| `ExecDrain.SerialDrainStalls` | crates/agent-docker/src/lib.rs:1342-1352 | a serial drain never ends once stderr has more chunks than its channel holds |
| `ExecDrain.FinishesIffDrainsFit` | crates/agent-docker/src/lib.rs:834-850 | an exec's drains can finish exactly when they are concurrent or stderr fits its channel |
| `ImageCache.MarkerImpliesComplete` | crates/agent-youki/src/image.rs:66-190 | in every run that keeps the three rules the marker implies a complete rootfs, with pulls cut off anywhere and file operations that outlive them |
| `ImageCache.SufficeIffAllRules` | crates/agent-youki/src/image.rs:66-190 | a set of the rules makes the marker trustworthy in every run, for any number of layers, exactly when it is all three |
| `ImageCache.NonForcePullsAreSafe` | crates/agent-youki/src/image.rs:66-190 | any interleaving of non-force pulls, failures and crashes anywhere, keeps marker implies complete rootfs |
| `ImageCache.SerialPullsAreSafe` | crates/agent-youki/src/image.rs:157-190 | so does any sequence of forced and other pulls, each begun when the earlier ones and their file operations are over |
| `ImageCache.FailureBeforeSwapKeepsCache` | crates/agent-youki/src/image.rs:105-135 | a pull that ends before its swap leaves marker and rootfs as they were |
| `ImageCache.LostMarkerRemoval` | crates/agent-youki/src/image.rs:157-158 | keeping only the other two rules, a marker removal that fails unseen leaves a marker without rootfs |
| `ImageCache.TornRemoval` | crates/agent-youki/src/image.rs:159-175 | keeping only the other two rules, a rootfs removal that breaks off lets a later pull mark a damaged tree |
| `ImageCache.OverlappingInstalls` | crates/agent-youki/src/image.rs:157-190 | keeping only the other two rules, a forced install overlapping another leaves a marker without rootfs |
| `ImageCache.RemovalOutlivesItsPull` | crates/agent-youki/src/image.rs:159-190 | a forced pull dropped during its removal, with no other pull under way, still takes the rootfs from a pull begun later, which then marks a rootfs that is gone |
| `ImageCache.ImageManager.PullAndUnpackWith` | crates/agent-youki/src/image.rs:49-191 | a single pull, from any cache and with any faults, succeeds exactly when the marker answers it or no fault lies on its way; nothing changes before the swap, success means a marker on a complete rootfs unless a broken one was adopted, and the marker's promise breaks only by such an adoption or an unseen marker failure |
| `CreateLoop.PullImageWithRetry` | crates/agent-docker/src/lib.rs:68-110 | one to four pulls: success is one that worked, failure is four that did not |
| `CreateLoop.EnsureImage` | crates/agent-docker/src/lib.rs:178-229 | a pull is made exactly when the policy asks for one, and its outcome or the missing image decides; Never never pulls |
| `CreateLoop.CreateOnce` | crates/agent-docker/src/lib.rs:252-330 | the answer of each create decides: a missing image is pulled and a used name freed before exactly one more create, anything else gives up, and a final attempt never asks for another |
| `CreateLoop.StartOrRemove` | crates/agent-docker/src/lib.rs:332-385 | the daemon's answer is returned, and a container that does not start is removed |
| `CreateLoop.TryOnce` | crates/agent-docker/src/lib.rs:244-386 | one turn leaves nothing behind but a running container; a taken port is tried again unless it was the final attempt, a failed start is not, and a daemon that answers well gives a running container |
| `CreateLoop.CreateAndStart` | crates/agent-docker/src/lib.rs:157-390 | the loop returns within three attempts, six creates and sixteen pulls; every container it made is the one returned or was removed; the returned port is the one bound in that container; the first container that starts is returned, a taken port is given up on only after three attempts, and with the image at hand a daemon that answers well is asked once |
| `ListingParser.ParsePortableListOutput` | crates/agent-docker/src/lib.rs:1479-1549 | the loop counts every entry line and keeps the first 5000 |
| `ListingParser.LineRoundTrip` | crates/agent-docker/src/lib.rs:992-1001 | a printed entry line is read back as its entry |
| `ListingParser.KindRoundTrip` | crates/agent-docker/src/lib.rs:1505-1510 | files, empty files, directories, symbolic links and everything else are told apart by stat's descriptions |
| `ListingParser.NoiseIsSkipped` | crates/agent-docker/src/lib.rs:1484-1490 | a line without the prefix is skipped |
| `ListingParser.ListRoundTrip` | crates/agent-docker/src/lib.rs:1479-1549 | the script's output, other lines between, gives the first entries up to the cap, the total, and truncated exactly when the total exceeds the cap |
| `ListingParser.PaddedMode` | crates/agent-docker/src/lib.rs:1512-1522 | a mode in digits gets leading zeros up to four and nothing else |
| `Protobuf.EncVarint` | ui/lib/protobuf.ts:5-12 | the loop appends the varint of the number |
| `Protobuf.DecVarint` | ui/lib/protobuf.ts:14-24 | the loop reads seven bits a byte, and ends on every buffer |
| `Protobuf.VarintRoundTrip` | ui/lib/protobuf.ts:5-24 | decoding undoes encoding for every number, whatever stands before and after |
| `Protobuf.ParseFields` | ui/lib/protobuf.ts:83-109 | the loop groups the fields of any buffer by number in order, or names an unsupported wire type, and always ends |
| `Protobuf.FieldsRoundTrip` | ui/lib/protobuf.ts:30-109 | parsing recovers every encoded field in order |
| `Protobuf.UnsupportedTypeIsNamed` | ui/lib/protobuf.ts:83-109 | after any encoded fields, a field of a wire type other than varint and length-delimited fails the parse with that type |
| `Protobuf.CutFieldIsClamped` | ui/lib/protobuf.ts:83-109 | a last field cut short is read as far as it goes, and the fields before it are kept |
| `Protobuf.EncString` | ui/lib/protobuf.ts:30-35 | appends tag, length and bytes |
| `Protobuf.EncMessage` | ui/lib/protobuf.ts:37-41 | appends tag, length and the nested message |
| `Protobuf.EncodeIoStartExec` | ui/lib/protobuf.ts:51-70 | the loops encode exactly the fields of the start message |
| `Protobuf.StartRoundTrip` | ui/lib/protobuf.ts:51-109 | sandbox id, arguments, working directory and environment entries come back as they went in |
| `Protobuf.Int32RoundTrip` | ui/lib/protobuf.ts:119-133 | any int32 carried as a 64-bit two's complement number decodes to itself |
| `Protobuf.ExitedRoundTrip` | ui/lib/protobuf.ts:130-136 | any exit message comes back, negative codes and left-out defaults included |
| `Protobuf.StartedRoundTrip` | ui/lib/protobuf.ts:117-124 | any started message comes back |
| `Protobuf.ErrorRoundTrip` | ui/lib/protobuf.ts:142-148 | any error message comes back |
| `Argv.ParseCommand` | ui/lib/api.ts:367-395 | the loop computes the split, whose meaning the rows that follow give |
| `Argv.PlainAndQuotedJoin` | ui/lib/api.ts:379-393 | a word free of quotes and whitespace is itself, and a quoted part joins the bare parts beside it in one argument |
| `Argv.AWordIsOneArgument` | ui/lib/api.ts:379-393 | any adjacent pieces, bare or in quotes of either kind, make the one argument their texts join to |
| `Argv.WordsAreArguments` | ui/lib/api.ts:367-395 | a line of words with any whitespace after each is split into exactly those words |
| `Argv.MarginsAreIgnored` | ui/lib/api.ts:387-388 | whitespace before or after a line adds no argument |
| `Argv.AnOpenQuoteRunsOn` | ui/lib/api.ts:380-385 | a quote left open takes the rest of the line into its argument |
| `Argv.ParseApartIff` | ui/lib/api.ts:379-393 | splitting distributes over whitespace exactly when the first part ends outside a quote |
| `Argv.EveryListHasALine` | ui/lib/api.ts:365-395 | every list of strings, empty ones and ones with both quotes included, is the split of some line of adjacent quoted segments |

## Left out

- reconcile of the sandbox manager: it does not take the command lock, so it is not part of the interleaved commands.
- Tunnel loss: it aborts all sessions without cleanup, so kill and registry results are about sessions that are not aborted.
- ExecSession.TraceGrammar: aborting an output pump on the cancel path is taken as immediate.
- Draining the rest of an upload after a refusal: it waits for a sender that is dropped only after the driver returns, so no progress is stated for refused uploads.
- LiveEdit.NoSilentOverwrite: stated for runs that keep four conditions; ProtectsIffAllConditions shows that none of them can be dropped.
- LiveEdit's polling banner, the lossy decoding of file bytes, and draft storage beyond the draft a tab is opened with.
- ImageCache.MarkerImpliesComplete: stated for runs that keep the three rules; SufficeIffAllRules shows that none of them can be dropped.
- ImageCache.ImageManager.PullAndUnpackWith: a single pull on its own; overlapping pulls are in the state machine.
- ExecDrain: the size limit at which `read_file` gives up early, and the diagnosis of a missing command from buffered output.
- CreateLoop: the texts by which a port collision and a name conflict are recognised, delays between attempts, and whether a forced removal worked.
- ListingParser: decoding bytes as text, entries whose stat failed, and names with a separator or a newline.
- Protobuf: UTF-8 encoding of strings, so strings are their bytes; a JavaScript number holds any length below 2^53 exactly, and the round trips are stated for those.
- Protobuf.StartRoundTrip: stated for messages shorter than 2^53 bytes.
- Gateway: reason texts of a WebSocket Close, and the HTTP, gRPC and WebSocket transports.
- Elapsed time, timeouts and backoff delays: clocks are parameters or left out.
- The controller, the proxy's own routing, authentication, container networking and the user interface's rendering are not part of this model.

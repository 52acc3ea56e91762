/** The frames of an I/O session and the error codes they carry. */
module Wire {
  import opened Prelude

  /** `Malformed` is a frame without payload; `ReadFailed` a client stream that yields an error. */
  datatype ClientFrame =
    | StartFrame
    | Stdin(bytes: Bytes)
    | SignalFrame(signum: nat)
    | CloseFrame(stdinEof: bool)
    | Malformed
    | ReadFailed(text: string)

  datatype ErrorCode =
    | RuntimeError
    | SandboxGone
    | ExecFailed
    | ReadFileFailed
    | WriteFailed
    | FileNotFound
    | InvalidRequest
    | ExtractFailed
    | PayloadTooLarge
    | Cancelled
    | StreamIdReused
    | RevisionMismatch
    | NotImplemented
    | DirectoryNotEmpty
    | DeleteFailed
    | OtherCode(text: string)

  datatype ExitInfo = ExitInfo(code: int, commandNotFound: bool)

  datatype Revision = Revision(token: string, size: nat)

  datatype EntryKind = FileEntry | DirEntry | SymlinkEntry | OtherEntry

  datatype Entry<K> = Entry(name: string, kind: K, size: nat, revision: string, mode: string, target: string)

  datatype Listing<K> = Listing(path: string, entries: seq<Entry<K>>, truncated: bool, total: nat)

  datatype ServerFrame =
    | Started(pid: int)
    | Stdout(bytes: Bytes)
    | Stderr(bytes: Bytes)
    | Exited(info: ExitInfo)
    | Failure(code: ErrorCode, detail: string)
    | FileMeta(meta: Revision)
    | ListDirResult(listing: Listing<int>)
    | WaitPortResult(ready: bool, elapsedMs: nat)
}

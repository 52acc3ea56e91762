/**
 Stripping the in-container pid marker from the head of a stderr stream that
 arrives in chunks: `OPENSB_INPID=<pid>` and a newline.
 */
module MarkerPump {
  import opened Prelude

  const NEWLINE: byte := 10

  /** The index of the first newline, or the length when there is none. */
  function FirstNewline(s: Bytes): (n: nat)
    ensures n <= |s| && (n < |s| ==> s[n] == NEWLINE)
    ensures forall i :: 0 <= i < n ==> s[i] != NEWLINE
  {
    if s == [] || s[0] == NEWLINE then 0 else 1 + FirstNewline(s[1..])
  }

  // ---- parsing a signed 32-bit decimal ----

  predicate AllDigits(s: Bytes) {
    forall i :: 0 <= i < |s| ==> 48 <= s[i] <= 57
  }

  function Decimal(s: Bytes): nat
    requires AllDigits(s)
  {
    if s == [] then 0 else 10 * Decimal(s[..|s| - 1]) + (s[|s| - 1] - 48)
  }

  function ParseI32(s: Bytes): (r: Option<int>)
    ensures r.Some? ==> -0x8000_0000 <= r.value < 0x8000_0000
  {
    var signed := s != [] && (s[0] == 43 || s[0] == 45);
    var digits := if signed then s[1..] else s;
    if digits == [] || !AllDigits(digits) then None
    else
      var n: int := Decimal(digits);
      var v := if signed && s[0] == 45 then -n else n;
      if -0x8000_0000 <= v < 0x8000_0000 then Some(v) else None
  }

  // ---- the marker format ----

  /** A marker line: its prefix, how many bytes to wait for its end, and how its payload is read. */
  datatype Format = Format(prefix: Bytes, window: nat, parse: Bytes -> Option<int>) {
    predicate Valid() {
      NEWLINE !in prefix && |prefix| <= window
    }
  }

  /** "OPENSB_INPID=", then a decimal pid, within 256 bytes. */
  const INPID := Format([79, 80, 69, 78, 83, 66, 95, 73, 78, 80, 73, 68, 61], 256, ParseI32)

  // ---- one look at a buffered head ----

  datatype Look = Found(pid: int, rest: Bytes) | Wait | GiveUp

  function LookAt(f: Format, buf: Bytes): Look
    requires f.Valid()
  {
    if |buf| < |f.prefix| then (if buf <= f.prefix then Wait else GiveUp)
    else if !(f.prefix <= buf) then GiveUp
    else
      var nl := FirstNewline(buf);
      if nl == |buf| then (if |buf| > f.window then GiveUp else Wait)
      else
        var pid := f.parse(buf[|f.prefix|..nl]);
        if pid.Some? then Found(pid.value, buf[nl + 1..]) else GiveUp
  }

  // ---- the pump ----

  /** `removed` is a history: the marker line taken out. */
  datatype Pump = Pump(scan: Bytes, done: bool, pid: Option<int>, forwarded: Bytes, removed: Bytes)

  const IDLE := Pump([], false, None, [], [])

  function Push(f: Format, p: Pump, chunk: Bytes): Pump
    requires f.Valid()
  {
    if p.done then p.(forwarded := p.forwarded + chunk)
    else
      var buf := p.scan + chunk;
      match LookAt(f, buf)
      case Found(pid, rest) => Pump([], true, Some(pid), p.forwarded + rest, buf[..|buf| - |rest|])
      case Wait => p.(scan := buf)
      case GiveUp => Pump([], true, None, p.forwarded + buf, [])
  }

  function PushAll(f: Format, chunks: seq<Bytes>): Pump
    requires f.Valid()
  {
    if chunks == [] then IDLE else Push(f, PushAll(f, chunks[..|chunks| - 1]), chunks[|chunks| - 1])
  }

  class StderrPump {
    const f: Format
    var inpidScanBuf: Bytes
    var inpidDone: bool
    var inpid: Option<int>
    var sent: Bytes
    ghost var removed: Bytes

    constructor ()
      ensures f == INPID && View() == IDLE
    {
      f := INPID;
      inpidScanBuf, inpidDone, inpid, sent, removed := [], false, None, [], [];
    }

    ghost function View(): Pump
      reads this
    {
      Pump(inpidScanBuf, inpidDone, inpid, sent, removed)
    }

    /** Looks for the marker and, when it is there, drops it from the buffer in place. */
    method ConsumeInpidMarker() returns (r: Result<Option<int>, ()>)
      requires f.Valid()
      modifies this`inpidScanBuf
      ensures var look := LookAt(f, old(inpidScanBuf));
              && inpidScanBuf == (if look.Found? then look.rest else old(inpidScanBuf))
              && r == (match look case Found(pid, _) => Ok(Some(pid)) case Wait => Ok(None) case GiveUp => Err(()))
    {
      var buf := inpidScanBuf;
      if |buf| < |f.prefix| {
        if !(buf <= f.prefix) { return Err(()); }
        return Ok(None);
      }
      if buf[..|f.prefix|] != f.prefix { return Err(()); }
      var nl := 0;
      while nl < |buf| && buf[nl] != NEWLINE
        invariant nl <= |buf|
        invariant forall i :: 0 <= i < nl ==> buf[i] != NEWLINE
      {
        nl := nl + 1;
      }
      if nl == |buf| {
        if |buf| > f.window { return Err(()); }
        return Ok(None);
      }
      assert nl == FirstNewline(buf);
      PrefixHasNoNewline(f, buf);
      var pid := f.parse(buf[|f.prefix|..nl]);
      if pid.None? { return Err(()); }
      inpidScanBuf := buf[nl + 1..];
      return Ok(Some(pid.value));
    }

    method OnChunk(chunk: Bytes)
      requires f.Valid()
      modifies this
      ensures View() == Push(f, old(View()), chunk)
    {
      if !inpidDone {
        inpidScanBuf := inpidScanBuf + chunk;
        ghost var buf := inpidScanBuf;
        var r := ConsumeInpidMarker();
        match r
        case Ok(Some(pid)) =>
          inpid, inpidDone := Some(pid), true;
          removed := buf[..|buf| - |inpidScanBuf|];
          if inpidScanBuf != [] { sent := sent + inpidScanBuf; }
          inpidScanBuf := [];
        case Ok(None) =>
        case Err(_) =>
          inpid, inpidDone, removed := None, true, [];
          sent := sent + inpidScanBuf;
          inpidScanBuf := [];
      } else {
        sent := sent + chunk;
      }
    }

    /** The read loop. Bytes still held for the marker when the stream ends go with the pump: they are `lost`. */
    method Run(chunks: seq<Bytes>) returns (lost: Bytes)
      requires f.Valid() && View() == IDLE
      modifies this
      ensures View() == PushAll(f, chunks).(scan := []) && lost == PushAll(f, chunks).scan
    {
      for i := 0 to |chunks|
        invariant View() == PushAll(f, chunks[..i])
      {
        assert chunks[..i + 1][..i] == chunks[..i];
        OnChunk(chunks[i]);
      }
      assert chunks[..|chunks|] == chunks;
      lost := inpidScanBuf;
      inpidScanBuf := [];
    }
  }

  // ---- the whole-stream meaning ----

  /** The stream opens with a well-formed marker line. */
  predicate HasMarker(f: Format, stream: Bytes)
    requires f.Valid()
  {
    && f.prefix <= stream && |f.prefix| <= FirstNewline(stream) < |stream|
    && f.parse(stream[|f.prefix|..FirstNewline(stream)]).Some?
  }

  /** Nothing received so far rules a marker out. */
  predicate Undecided(f: Format, stream: Bytes)
    requires f.Valid()
  {
    || (|stream| < |f.prefix| && stream <= f.prefix)
    || (f.prefix <= stream && FirstNewline(stream) == |stream| <= f.window)
  }

  /** A marker that parses only because more than the patience window arrived at once. */
  predicate LateMarker(f: Format, stream: Bytes)
    requires f.Valid()
  {
    HasMarker(f, stream) && FirstNewline(stream) > f.window
  }

  /** What the pump should have made of a stream, however it was cut. */
  function Whole(f: Format, stream: Bytes): Pump
    requires f.Valid()
  {
    if HasMarker(f, stream) then
      var nl := FirstNewline(stream);
      Pump([], true, f.parse(stream[|f.prefix|..nl]), stream[nl + 1..], stream[..nl + 1])
    else if Undecided(f, stream) then Pump(stream, false, None, [], [])
    else Pump([], true, None, stream, [])
  }

  lemma PrefixHasNoNewline(f: Format, stream: Bytes)
    requires f.Valid()
    requires f.prefix <= stream
    ensures FirstNewline(stream) >= |f.prefix|
  {
    assert forall i :: 0 <= i < |f.prefix| ==> stream[i] == f.prefix[i];
  }

  lemma MarkerIsSeen(f: Format, stream: Bytes)
    requires f.Valid() && HasMarker(f, stream)
    ensures var nl := FirstNewline(stream);
            LookAt(f, stream) == Found(f.parse(stream[|f.prefix|..nl]).value, stream[nl + 1..])
  {
  }

  lemma LookIsWhole(f: Format, stream: Bytes)
    requires f.Valid()
    ensures Push(f, IDLE, stream) == Whole(f, stream)
  {
    assert [] + stream == stream;
    if HasMarker(f, stream) {
      MarkerIsSeen(f, stream);
      var rest := stream[FirstNewline(stream) + 1..];
      assert [] + rest == rest && |stream| - |rest| == FirstNewline(stream) + 1;
    } else if f.prefix <= stream {
      PrefixHasNoNewline(f, stream);
    }
  }

  lemma FirstNewlineStays(s: Bytes, more: Bytes)
    ensures FirstNewline(s) < |s| ==> FirstNewline(s + more) == FirstNewline(s)
    ensures FirstNewline(s) == |s| ==> FirstNewline(s + more) >= |s|
  {
    var n := FirstNewline(s + more);
    assert forall i :: 0 <= i < |s| ==> (s + more)[i] == s[i];
  }

  lemma PrefixStays(f: Format, s: Bytes, more: Bytes)
    requires f.Valid()
    ensures |s| >= |f.prefix| ==> (f.prefix <= s + more <==> f.prefix <= s)
    ensures |s| < |f.prefix| && (f.prefix <= s + more || s + more <= f.prefix) ==> s <= f.prefix
  {
    assert forall i :: 0 <= i < |s| ==> (s + more)[i] == s[i];
  }

  /** A decided head stays decided the same way, unless a late marker completes. */
  lemma DecidedStays(f: Format, s: Bytes, more: Bytes)
    requires f.Valid()
    requires !Undecided(f, s) && !LateMarker(f, s + more)
    ensures HasMarker(f, s + more) <==> HasMarker(f, s)
    ensures !Undecided(f, s + more)
  {
    PrefixStays(f, s, more);
    FirstNewlineStays(s, more);
    var nl := FirstNewline(s);
    if |f.prefix| <= nl < |s| {
      assert (s + more)[|f.prefix|..nl] == s[|f.prefix|..nl];
    }
  }

  lemma LateMarkerStays(f: Format, s: Bytes, more: Bytes)
    requires f.Valid()
    requires LateMarker(f, s)
    ensures LateMarker(f, s + more)
  {
    FirstNewlineStays(s, more);
    assert (s + more)[|f.prefix|..FirstNewline(s)] == s[|f.prefix|..FirstNewline(s)];
  }

  lemma SlicesStay(s: Bytes, more: Bytes, i: nat, j: nat)
    requires i <= j <= |s|
    ensures (s + more)[i..j] == s[i..j] && (s + more)[..j] == s[..j] && (s + more)[j..] == s[j..] + more
  {
  }

  lemma MarkedMore(f: Format, s: Bytes, more: Bytes)
    requires f.Valid()
    requires HasMarker(f, s) && HasMarker(f, s + more)
    ensures Push(f, Whole(f, s), more) == Whole(f, s + more)
  {
    var nl := FirstNewline(s);
    FirstNewlineStays(s, more);
    SlicesStay(s, more, |f.prefix|, nl);
    SlicesStay(s, more, 0, nl + 1);
  }

  lemma WholeMore(f: Format, s: Bytes, more: Bytes)
    requires f.Valid()
    requires !LateMarker(f, s + more)
    ensures Push(f, Whole(f, s), more) == Whole(f, s + more)
  {
    if Undecided(f, s) {
      assert Whole(f, s) == Pump(s, false, None, [], []);
      assert [] + (s + more) == s + more;
      LookIsWhole(f, s + more);
    } else {
      DecidedStays(f, s, more);
      if HasMarker(f, s) { MarkedMore(f, s, more); }
    }
  }

  /** Unless the marker is late, the pump makes the same of every chunking of a stream. */
  lemma {:induction false} ChunkingDoesNotMatter(f: Format, chunks: seq<Bytes>)
    requires f.Valid()
    requires !LateMarker(f, Join(chunks))
    ensures PushAll(f, chunks) == Whole(f, Join(chunks))
  {
    if chunks == [] {
      LookIsWhole(f, []);
    } else {
      var front, last := chunks[..|chunks| - 1], chunks[|chunks| - 1];
      if LateMarker(f, Join(front)) { LateMarkerStays(f, Join(front), last); }
      ChunkingDoesNotMatter(f, front);
      WholeMore(f, Join(front), last);
    }
  }

  /** A late marker is found when it arrives at once and missed when it is cut after the window. */
  lemma {:induction false} LateMarkerDependsOnChunking(f: Format, stream: Bytes) returns (cut: seq<Bytes>)
    requires f.Valid()
    requires LateMarker(f, stream)
    ensures Join([stream]) == Join(cut) == stream
    ensures PushAll(f, [stream]).pid.Some? && PushAll(f, cut).pid.None?
  {
    var head, tail := stream[..f.window + 1], stream[f.window + 1..];
    cut := [head, tail];
    TakeAndDrop(stream, f.window + 1);
    JoinFew(stream, []);
    JoinFew(head, tail);
    PushFew(f, stream, []);
    PushFew(f, head, tail);
    LookIsWhole(f, stream);
    LateHeadIsGivenUp(f, head, tail);
  }

  /** Cut after the window, a late marker is given up on and stays so. */
  lemma LateHeadIsGivenUp(f: Format, head: Bytes, tail: Bytes)
    requires f.Valid() && |head| == f.window + 1 && LateMarker(f, head + tail)
    ensures Push(f, Push(f, IDLE, head), tail).pid.None?
  {
    FirstNewlineStays(head, tail);
    LookIsWhole(f, head);
  }

  lemma PushFew(f: Format, a: Bytes, b: Bytes)
    requires f.Valid()
    ensures PushAll(f, [a]) == Push(f, IDLE, a) && PushAll(f, [a, b]) == Push(f, Push(f, IDLE, a), b)
  {
    var none: seq<Bytes> := [];
    assert [a][..0] == none && [a, b][..1] == [a];
  }

  /** Exactly when every chunking of a stream gives the same pid and the same bytes. */
  lemma ChunkingMattersIffLate(f: Format, stream: Bytes)
    requires f.Valid()
    ensures (forall chunks: seq<Bytes> :: Join(chunks) == stream ==> PushAll(f, chunks) == Whole(f, stream)) <==>
            !LateMarker(f, stream)
  {
    if LateMarker(f, stream) {
      var cut := LateMarkerDependsOnChunking(f, stream);
      assert Whole(f, stream).pid.Some?;
      assert Join(cut) == stream && PushAll(f, cut) != Whole(f, stream);
    } else {
      forall chunks: seq<Bytes> | Join(chunks) == stream
        ensures PushAll(f, chunks) == Whole(f, stream)
      {
        ChunkingDoesNotMatter(f, chunks);
      }
    }
  }

  /** Everything received is held, or it is a removed marker line (if one was found) and then forwarded. */
  predicate Conserved(f: Format, p: Pump, received: Bytes)
    requires f.Valid()
  {
    if !p.done then
      p.scan == received && |received| <= f.window && p.forwarded == [] && p.removed == [] && p.pid == None
    else
      && p.scan == [] && received == p.removed + p.forwarded
      && (if p.pid.None? then p.removed == []
          else HasMarker(f, p.removed) && p.pid == f.parse(p.removed[|f.prefix|..|p.removed| - 1]))
  }

  lemma FoundConserves(f: Format, p: Pump, chunk: Bytes, received: Bytes)
    requires f.Valid()
    requires Conserved(f, p, received) && !p.done && LookAt(f, received + chunk).Found?
    ensures Conserved(f, Push(f, p, chunk), received + chunk)
  {
    var buf := received + chunk;
    var look := LookAt(f, buf);
    var line := buf[..|buf| - |look.rest|];
    MarkerLine(f, buf);
    NilPlus(look.rest);
    assert Push(f, p, chunk) == Pump([], true, Some(look.pid), look.rest, line);
    TakeAndDrop(buf, |line|);
    assert buf[|line|..] == look.rest;
  }

  lemma PushConserves(f: Format, p: Pump, chunk: Bytes, received: Bytes)
    requires f.Valid()
    requires Conserved(f, p, received)
    ensures Conserved(f, Push(f, p, chunk), received + chunk)
  {
    if p.done {
      assert p.removed + p.forwarded + chunk == p.removed + (p.forwarded + chunk);
    } else if LookAt(f, received + chunk).Found? {
      FoundConserves(f, p, chunk, received);
    } else {
      assert [] + (received + chunk) == received + chunk;
    }
  }

  /** For every chunking, at every moment of the stream: no byte is dropped, duplicated or reordered. */
  lemma {:induction false} BytesAreConserved(f: Format, chunks: seq<Bytes>)
    requires f.Valid()
    ensures Conserved(f, PushAll(f, chunks), Join(chunks))
    ensures var p := PushAll(f, chunks);
            p.removed + p.forwarded + p.scan == Join(chunks) && |p.scan| <= f.window
  {
    if chunks != [] {
      BytesAreConserved(f, chunks[..|chunks| - 1]);
      PushConserves(f, PushAll(f, chunks[..|chunks| - 1]), chunks[|chunks| - 1], Join(chunks[..|chunks| - 1]));
    }
  }

  /** At the end of a stream the held bytes are lost: exactly when nothing in it settled whether it has a marker. */
  lemma {:induction false} LostAtEndIffUndecided(f: Format, chunks: seq<Bytes>)
    requires f.Valid()
    ensures PushAll(f, chunks).scan != [] <==> Join(chunks) != [] && Undecided(f, Join(chunks))
    ensures PushAll(f, chunks).scan != [] ==> PushAll(f, chunks).scan == Join(chunks)
  {
    BytesAreConserved(f, chunks);
    if !LateMarker(f, Join(chunks)) {
      ChunkingDoesNotMatter(f, chunks);
    }
  }

  lemma InpidIsValid()
    ensures INPID.Valid()
  {
  }

  lemma MarkerLine(f: Format, buf: Bytes)
    requires f.Valid()
    requires LookAt(f, buf).Found?
    ensures var line := buf[..|buf| - |LookAt(f, buf).rest|];
            HasMarker(f, line) && f.parse(line[|f.prefix|..|line| - 1]) == Some(LookAt(f, buf).pid)
  {
    var nl := FirstNewline(buf);
    var line, rest := buf[..nl + 1], buf[nl + 1..];
    PrefixHasNoNewline(f, buf);
    assert line + rest == buf;
    FirstNewlineStays(line, rest);
    PrefixStays(f, line, rest);
    SlicesStay(line, rest, |f.prefix|, nl);
  }

  // ---- late markers exist ----

  function Zeros(n: nat): Bytes {
    if n == 0 then [] else Zeros(n - 1) + [48]
  }

  lemma {:induction false} ZerosAreZero(n: nat)
    ensures |Zeros(n)| == n && AllDigits(Zeros(n)) && Decimal(Zeros(n)) == 0
  {
    if n > 0 {
      ZerosAreZero(n - 1);
      assert Zeros(n)[..|Zeros(n)| - 1] == Zeros(n - 1);
    }
  }

  lemma DecimalMore(s: Bytes, d: byte)
    requires AllDigits(s) && 48 <= d <= 57
    ensures AllDigits(s + [d]) && Decimal(s + [d]) == 10 * Decimal(s) + (d - 48)
  {
    assert (s + [d])[..|s + [d]| - 1] == s;
  }

  lemma UnsignedIsRead(digits: Bytes)
    requires digits != [] && AllDigits(digits)
    ensures ParseI32(digits) == if Decimal(digits) < 0x8000_0000 then Some(Decimal(digits)) else None
  {
    assert 48 <= digits[0] <= 57;
  }

  /** The payload "0...07": leading zeros are digits to the parser. */
  lemma PaddedSeven(n: nat)
    ensures ParseI32(Zeros(n) + [55]) == Some(7)
  {
    ZerosAreZero(n);
    DecimalMore(Zeros(n), 55);
    UnsignedIsRead(Zeros(n) + [55]);
  }

  /** The marker line of pid 7, written with `n` leading zeros. */
  function PaddedMarker(f: Format, n: nat): Bytes {
    f.prefix + (Zeros(n) + [55]) + [NEWLINE]
  }

  lemma {:induction false} NewlineEndsLine(line: Bytes)
    requires NEWLINE !in line
    ensures FirstNewline(line + [NEWLINE]) == |line|
    decreases |line|
  {
    if line != [] {
      NewlineEndsLine(line[1..]);
      assert (line + [NEWLINE])[1..] == line[1..] + [NEWLINE];
    }
  }

  /** A prefix and a payload on one line. */
  lemma LineHasMarker(f: Format, payload: Bytes)
    requires f.Valid() && NEWLINE !in payload && f.parse(payload).Some?
    ensures var line := f.prefix + payload + [NEWLINE];
            HasMarker(f, line) && FirstNewline(line) == |f.prefix| + |payload|
  {
    NewlineEndsLine(f.prefix + payload);
    assert (f.prefix + payload + [NEWLINE])[|f.prefix|..|f.prefix| + |payload|] == payload;
  }

  lemma PaddedMarkerShape(f: Format, n: nat)
    requires f.Valid() && f.parse(Zeros(n) + [55]).Some?
    ensures HasMarker(f, PaddedMarker(f, n)) && FirstNewline(PaddedMarker(f, n)) == |f.prefix| + n + 1
  {
    ZerosAreZero(n);
    LineHasMarker(f, Zeros(n) + [55]);
  }

  /** A zero-padded pid is a marker at any length, and a late one exactly when its line passes the 256-byte window. */
  lemma LateMarkersExist(n: nat)
    ensures INPID.Valid() && HasMarker(INPID, PaddedMarker(INPID, n))
    ensures LateMarker(INPID, PaddedMarker(INPID, n)) <==> n >= 243
  {
    InpidIsValid();
    PaddedSeven(n);
    PaddedMarkerShape(INPID, n);
  }

  // ---- every pid is read back ----

  /** A number in decimal, as the in-container wrapper prints its pid. */
  function Printed(n: nat): Bytes {
    if n < 10 then [48 + n] else Printed(n / 10) + [48 + n % 10]
  }

  lemma {:induction false} PrintedIsDecimal(n: nat)
    ensures Printed(n) != [] && AllDigits(Printed(n)) && Decimal(Printed(n)) == n
  {
    if n < 10 {
      assert Printed(n)[..0] == [];
    } else {
      PrintedIsDecimal(n / 10);
      DecimalMore(Printed(n / 10), 48 + n % 10);
    }
  }

  lemma {:induction false} PrintedIsShort(n: nat, digits: nat, bound: nat)
    requires n < bound && IsPower(digits, bound)
    ensures |Printed(n)| <= digits
    decreases digits
  {
    if n >= 10 { PrintedIsShort(n / 10, digits - 1, bound / 10); }
  }

  predicate IsPower(digits: nat, bound: nat) {
    digits > 0 && if digits == 1 then bound == 10 else bound % 10 == 0 && IsPower(digits - 1, bound / 10)
  }

  function Signed(sign: byte, digits: Bytes): Bytes {
    [sign] + digits
  }

  /** The number, if it fits 32 bits. */
  function I32(v: int): Option<int> {
    if -0x8000_0000 <= v < 0x8000_0000 then Some(v) else None
  }

  predicate IsSign(sign: byte) {
    sign == 43 || sign == 45
  }

  lemma SignedIsRead(sign: byte, digits: Bytes)
    requires IsSign(sign) && digits != [] && AllDigits(digits)
    ensures ParseI32(Signed(sign, digits)) == I32(if sign == 45 then 0 - Decimal(digits) else Decimal(digits))
  {
    assert Signed(sign, digits)[1..] == digits;
  }

  /** Every number is read back as it was printed, signed or not, exactly while it fits 32 bits. */
  lemma {:induction false} PidRoundTrip(n: nat, sign: byte)
    requires IsSign(sign)
    ensures ParseI32(Printed(n)) == I32(n)
    ensures ParseI32(Signed(sign, Printed(n))) == I32(if sign == 45 then 0 - n else n)
  {
    PrintedIsDecimal(n);
    UnsignedIsRead(Printed(n));
    SignedIsRead(sign, Printed(n));
  }

  /** A marker line at the head of a stream is taken out and read, wherever the stream is cut. */
  lemma {:induction false} MarkerIsStripped(f: Format, payload: Bytes, rest: Bytes, chunks: seq<Bytes>)
    requires f.Valid() && NEWLINE !in payload && f.parse(payload).Some? && |f.prefix| + |payload| <= f.window
    requires Join(chunks) == f.prefix + payload + [NEWLINE] + rest
    ensures PushAll(f, chunks) == Pump([], true, f.parse(payload), rest, f.prefix + payload + [NEWLINE])
  {
    var line := f.prefix + payload + [NEWLINE];
    LineHasMarker(f, payload);
    FirstNewlineStays(line, rest);
    SlicesStay(line, rest, |f.prefix|, |line| - 1);
    SlicesStay(line, rest, 0, |line|);
    assert line[|f.prefix|..|line| - 1] == payload;
    assert line[..|line|] == line && line[|line|..] + rest == rest;
    ChunkingDoesNotMatter(f, chunks);
  }

  /** In particular the pid of the wrapper's own line, for every pid there is. */
  lemma {:induction false} EveryPidIsStripped(pid: nat, rest: Bytes, chunks: seq<Bytes>)
    requires pid < 0x8000_0000
    requires Join(chunks) == INPID.prefix + Printed(pid) + [NEWLINE] + rest
    ensures INPID.Valid()
    ensures PushAll(INPID, chunks).pid == Some(pid) && PushAll(INPID, chunks).forwarded == rest
  {
    InpidIsValid();
    PidRoundTrip(pid, 43);
    PrintedIsDecimal(pid);
    TenDigits(pid);
    MarkerIsStripped(INPID, Printed(pid), rest, chunks);
  }

  lemma TenDigits(n: nat)
    requires n < 10_000_000_000
    ensures |Printed(n)| <= 10
  {
    assert IsPower(2, 100) && IsPower(3, 1_000) && IsPower(4, 10_000) && IsPower(5, 100_000);
    assert IsPower(6, 1_000_000) && IsPower(7, 10_000_000) && IsPower(8, 100_000_000) && IsPower(9, 1_000_000_000);
    PrintedIsShort(n, 10, 10_000_000_000);
  }
}

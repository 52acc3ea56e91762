/**
 The browser's minimal Protocol Buffers codec. Strings are their UTF-8 bytes.
 Reading past the end of a buffer gives an undefined byte, which counts as zero.
 */
module Protobuf {
  import opened Prelude

  // ---- JavaScript numbers ----

  const TWO_31: int := 0x8000_0000
  const TWO_32: int := 0x1_0000_0000
  const TWO_53: int := 0x20_0000_0000_0000
  const TWO_64: int := 0x1_0000_0000_0000_0000

  datatype Number = Finite(value: nat) | Infinite

  function Pow2(k: nat): (p: nat)
    ensures p >= 1
  {
    if k == 0 then 1 else 2 * Pow2(k - 1)
  }

  /** The smallest power of two, from `unit` up, that leaves `n` a 53-bit multiple. */
  function Unit(n: nat, unit: nat): (u: nat)
    requires unit > 0
    ensures u > 0
    decreases n - unit
  {
    if n < TWO_53 * unit then unit else Unit(n, 2 * unit)
  }

  /** `n / unit` to the nearest integer, ties to even. */
  function Nearest(n: nat, unit: nat): nat
    requires unit > 0
  {
    var q, r := n / unit, n % unit;
    if 2 * r > unit || (2 * r == unit && q % 2 == 1) then q + 1 else q
  }

  function Times(a: nat, b: nat): nat {
    a * b
  }

  function Rounded(n: nat): Number {
    var rounded := Times(Nearest(n, Unit(n, 1)), Unit(n, 1));
    if rounded >= Times(TWO_53, Pow2(971)) then Infinite else Finite(rounded)
  }

  /** Number(bigint): itself up to 2^53, then the nearest double. */
  function NumberOf(n: nat): Number {
    if n <= TWO_53 then Finite(n) else Rounded(n)
  }

  /** The conversion that `>>` and `&` make first. */
  function ToInt32(x: Number): int {
    if x.Infinite? then 0
    else
      var m := x.value % TWO_32;
      if m >= TWO_31 then m - TWO_32 else m
  }

  /** BigInt.asIntN(32, n). */
  function AsInt32(n: nat): int {
    var m := n % TWO_32;
    if m >= TWO_31 then m - TWO_32 else m
  }

  // ---- varints ----

  class ByteList {
    var bytes: Bytes

    constructor ()
      ensures bytes == []
    {
      bytes := [];
    }

    method Push(b: byte)
      modifies this
      ensures bytes == old(bytes) + [b]
    {
      bytes := bytes + [b];
    }

    method PushAll(more: Bytes)
      modifies this
      ensures bytes == old(bytes) + more
    {
      for i := 0 to |more|
        invariant bytes == old(bytes) + more[..i]
      {
        Push(more[i]);
      }
    }
  }

  function VarintOf(n: nat): Bytes {
    if n <= 127 then [n] else [n % 128 + 128] + VarintOf(n / 128)
  }

  method EncVarint(n: nat, out: ByteList)
    modifies out
    ensures out.bytes == old(out.bytes) + VarintOf(n)
  {
    var v := n;
    while v > 127
      invariant out.bytes + VarintOf(v) == old(out.bytes) + VarintOf(n)
    {
      assert out.bytes + VarintOf(v) == (out.bytes + [v % 128 + 128]) + VarintOf(v / 128);
      out.Push(v % 128 + 128);
      v := v / 128;
    }
    out.Push(v);
  }

  /** Seven bits a byte, least significant first; the end of the buffer ends the number. */
  function Varint(buf: Bytes, pos: nat): (r: (nat, nat))
    ensures r.1 > pos
    decreases |buf| - pos
  {
    if pos >= |buf| then (0, pos + 1)
    else if buf[pos] < 128 then (buf[pos], pos + 1)
    else
      var (high, end) := Varint(buf, pos + 1);
      (buf[pos] - 128 + 128 * high, end)
  }

  /** `rest` shifted left on top of `n`; `weight` is one shifted as far. */
  function Stacked(n: nat, weight: nat, rest: nat): nat {
    n + Times(weight, rest)
  }

  lemma StackedSplit(n: nat, weight: nat, low: nat, high: nat)
    ensures Stacked(n, weight, low + 128 * high) == Stacked(Stacked(n, weight, low), 128 * weight, high)
  {
    assert weight * (low + 128 * high) == weight * low + (128 * weight) * high;
  }

  method DecVarint(buf: Bytes, start: nat) returns (n: nat, pos: nat)
    ensures (n, pos) == Varint(buf, start)
  {
    n, pos := 0, start;
    var weight: nat := 1;
    while true
      invariant Varint(buf, start) == (Stacked(n, weight, Varint(buf, pos).0), Varint(buf, pos).1)
      decreases |buf| - pos
    {
      var b: nat := if pos < |buf| then buf[pos] else 0;
      if b < 128 {
        n, pos := Stacked(n, weight, b), pos + 1;
        return;
      }
      StackedSplit(n, weight, b - 128, Varint(buf, pos + 1).0);
      n, pos, weight := Stacked(n, weight, b - 128), pos + 1, 128 * weight;
    }
  }

  /** `part` stands in `buf` at `pos`. */
  predicate Holds<T(==)>(buf: seq<T>, pos: nat, part: seq<T>) {
    pos + |part| <= |buf| && buf[pos..pos + |part|] == part
  }

  lemma HoldsParts<T>(buf: seq<T>, pos: nat, a: seq<T>, b: seq<T>)
    requires Holds(buf, pos, a + b)
    ensures Holds(buf, pos, a) && Holds(buf, pos + |a|, b)
  {
    assert buf[pos..pos + |a|] == (a + b)[..|a|];
    assert buf[pos + |a|..pos + |a| + |b|] == (a + b)[|a|..];
  }

  /** Decoding undoes encoding, whatever stands before and after. */
  lemma {:induction false} VarintRoundTrip(buf: Bytes, pos: nat, n: nat)
    requires Holds(buf, pos, VarintOf(n))
    ensures Varint(buf, pos) == (n, pos + |VarintOf(n)|)
    decreases n
  {
    assert buf[pos] == buf[pos..pos + |VarintOf(n)|][0];
    if n > 127 {
      HoldsParts(buf, pos, [n % 128 + 128], VarintOf(n / 128));
      VarintRoundTrip(buf, pos + 1, n / 128);
    }
  }

  // ---- fields ----

  datatype Value = Int(n: nat) | Len(bytes: Bytes)

  datatype Field = Field(number: int, value: Value)

  type UnsupportedWireType = int

  /** Uint8Array.subarray, which clamps both ends. */
  function Subarray(buf: Bytes, from: nat, length: Number): Bytes {
    var begin := if from < |buf| then from else |buf|;
    if length.Infinite? || from + length.value >= |buf| then buf[begin..] else buf[from..from + length.value]
  }

  function Past(pos: nat, buf: Bytes, length: Number): nat {
    if length.Finite? then pos + length.value else pos + |buf|
  }

  /** One field: its number and value, and where the next one begins. */
  function FieldAt(buf: Bytes, pos: nat): (r: Result<(Field, nat), UnsupportedWireType>)
    ensures r.Ok? ==> r.value.1 > pos
  {
    var (tag, afterTag) := Varint(buf, pos);
    var t := ToInt32(NumberOf(tag));
    var (n, afterInt) := Varint(buf, afterTag);
    if t % 8 == 0 then Ok((Field(t / 8, Int(n)), afterInt))
    else if t % 8 == 2 then
      Ok((Field(t / 8, Len(Subarray(buf, afterInt, NumberOf(n)))), Past(afterInt, buf, NumberOf(n))))
    else Err(t % 8)
  }

  function Fields(buf: Bytes, pos: nat): Result<seq<Field>, UnsupportedWireType>
    decreases |buf| - pos
  {
    if pos >= |buf| then Ok([])
    else
      var first := FieldAt(buf, pos);
      if first.Err? then Err(first.error)
      else
        var rest := Fields(buf, first.value.1);
        if rest.Err? then rest else Ok([first.value.0] + rest.value)
  }

  /** Values by field number, each list in order. */
  function Grouped(fields: seq<Field>): map<int, seq<Value>> {
    if fields == [] then map[]
    else
      var front, f := Grouped(fields[..|fields| - 1]), fields[|fields| - 1];
      front[f.number := (if f.number in front then front[f.number] else []) + [f.value]]
  }

  type Fieldwise = Result<seq<Field>, UnsupportedWireType>

  function Added(before: seq<Field>, rest: Fieldwise): Fieldwise {
    if rest.Err? then rest else Ok(before + rest.value)
  }

  lemma AddedTwice(a: seq<Field>, b: seq<Field>, rest: Result<seq<Field>, UnsupportedWireType>)
    ensures Added(a, Added(b, rest)) == Added(a + b, rest)
    ensures Added([], rest) == rest
  {
    if rest.Ok? { assert a + (b + rest.value) == (a + b) + rest.value && [] + rest.value == rest.value; }
  }

  lemma GroupedMore(fields: seq<Field>, f: Field)
    ensures var front := Grouped(fields);
            Grouped(fields + [f]) == front[f.number := (if f.number in front then front[f.number] else []) + [f.value]]
  {
    assert (fields + [f])[..|fields + [f]| - 1] == fields;
  }

  lemma FieldsUnfold(buf: Bytes, pos: nat, f: Field, next: nat)
    requires pos < |buf| && FieldAt(buf, pos) == Ok((f, next))
    ensures Fields(buf, pos) == Added([f], Fields(buf, next))
  {
  }

  method ParseField(buf: Bytes, start: nat) returns (r: Result<(Field, nat), UnsupportedWireType>)
    ensures r == FieldAt(buf, start)
  {
    var tag, pos := DecVarint(buf, start);
    var t := ToInt32(NumberOf(tag));
    if t % 8 == 0 {
      var n, end := DecVarint(buf, pos);
      return Ok((Field(t / 8, Int(n)), end));
    } else if t % 8 == 2 {
      var n, begin := DecVarint(buf, pos);
      return Ok((Field(t / 8, Len(Subarray(buf, begin, NumberOf(n)))), Past(begin, buf, NumberOf(n))));
    } else {
      return Err(t % 8);
    }
  }

  /** Ends on every buffer, truncated ones included. */
  method ParseFields(buf: Bytes) returns (r: Result<map<int, seq<Value>>, UnsupportedWireType>)
    ensures var fields := Fields(buf, 0);
            r == if fields.Err? then Err(fields.error) else Ok(Grouped(fields.value))
  {
    var out: map<int, seq<Value>> := map[];
    var pos := 0;
    ghost var seen: seq<Field> := [];
    AddedTwice([], [], Fields(buf, 0));
    while pos < |buf|
      invariant Fields(buf, 0) == Added(seen, Fields(buf, pos)) && out == Grouped(seen)
      decreases |buf| - pos
    {
      var first := ParseField(buf, pos);
      if first.Err? { return Err(first.error); }
      var (f, next) := first.value;
      FieldsUnfold(buf, pos, f, next);
      AddedTwice(seen, [f], Fields(buf, next));
      GroupedMore(seen, f);
      out := out[f.number := (if f.number in out then out[f.number] else []) + [f.value]];
      pos, seen := next, seen + [f];
    }
    assert seen + [] == seen;
    r := Ok(out);
  }

  // ---- encoding ----

  /** A tag is pushed as it is; the byte array keeps its low eight bits. */
  function TagByte(number: int, wire: int): byte {
    (number * 8 + wire) % 256
  }

  function FieldBytes(f: Field): Bytes {
    match f.value
    case Int(n) => [TagByte(f.number, 0)] + VarintOf(n)
    case Len(bytes) => [TagByte(f.number, 2)] + (VarintOf(|bytes|) + bytes)
  }

  /** The fields the encoders write: a one-byte tag, and a length that a JavaScript number holds exactly. */
  predicate Writable(f: Field) {
    1 <= f.number <= 15 && (f.value.Len? ==> |f.value.bytes| < TWO_53)
  }

  function Encoded(fields: seq<Field>): Bytes {
    Flat(fields, FieldBytes)
  }

  lemma SmallTag(tag: byte)
    ensures ToInt32(NumberOf(tag)) == tag
  {
  }

  lemma SubarrayInside(buf: Bytes, begin: nat, n: nat)
    requires begin + n <= |buf| && n <= TWO_53
    ensures Subarray(buf, begin, NumberOf(n)) == buf[begin..begin + n] && Past(begin, buf, NumberOf(n)) == begin + n
  {
    if begin + n == |buf| { assert buf[begin..] == buf[begin..begin + n]; }
  }

  /** What a field is, from its tag and the varint after it. */
  lemma FieldAtIs(buf: Bytes, pos: nat, tag: byte, n: nat, begin: nat)
    requires pos < |buf| && buf[pos] == tag < 128 && Varint(buf, pos + 1) == (n, begin)
    ensures tag % 8 == 0 ==> FieldAt(buf, pos) == Ok((Field(tag / 8, Int(n)), begin))
    ensures tag % 8 == 2 && n < TWO_53 && begin + n <= |buf| ==>
              FieldAt(buf, pos) == Ok((Field(tag / 8, Len(buf[begin..begin + n])), begin + n))
  {
    assert Varint(buf, pos) == (tag, pos + 1);
    SmallTag(tag);
    if n < TWO_53 && begin + n <= |buf| { SubarrayInside(buf, begin, n); }
  }

  lemma HoldsTagged<T>(buf: seq<T>, pos: nat, tag: T, rest: seq<T>)
    requires Holds(buf, pos, [tag] + rest)
    ensures buf[pos] == tag && Holds(buf, pos + 1, rest) && |[tag] + rest| == 1 + |rest|
  {
    HoldsParts(buf, pos, [tag], rest);
    assert buf[pos..pos + 1][0] == tag;
  }

  lemma TagParts(number: int, wire: int)
    requires 1 <= number <= 15 && 0 <= wire < 8
    ensures TagByte(number, wire) < 128 && TagByte(number, wire) / 8 == number && TagByte(number, wire) % 8 == wire
  {
  }

  lemma {:induction false} IntRoundTrip(buf: Bytes, pos: nat, number: int, n: nat)
    requires 1 <= number <= 15 && Holds(buf, pos, [TagByte(number, 0)] + VarintOf(n))
    ensures FieldAt(buf, pos) == Ok((Field(number, Int(n)), pos + |[TagByte(number, 0)] + VarintOf(n)|))
  {
    var tag := TagByte(number, 0);
    TagParts(number, 0);
    HoldsTagged(buf, pos, tag, VarintOf(n));
    VarintRoundTrip(buf, pos + 1, n);
    FieldAtIs(buf, pos, tag, n, pos + 1 + |VarintOf(n)|);
  }

  lemma {:induction false} LenRoundTrip(buf: Bytes, pos: nat, number: int, bytes: Bytes)
    requires 1 <= number <= 15 && |bytes| < TWO_53
    requires Holds(buf, pos, [TagByte(number, 2)] + (VarintOf(|bytes|) + bytes))
    ensures FieldAt(buf, pos) ==
            Ok((Field(number, Len(bytes)), pos + |[TagByte(number, 2)] + (VarintOf(|bytes|) + bytes)|))
  {
    var tag := TagByte(number, 2);
    TagParts(number, 2);
    var n := VarintOf(|bytes|);
    HoldsTagged(buf, pos, tag, n + bytes);
    HoldsParts(buf, pos + 1, n, bytes);
    VarintRoundTrip(buf, pos + 1, |bytes|);
    FieldAtIs(buf, pos, tag, |bytes|, pos + 1 + |n|);
  }

  predicate ReadAt(buf: Bytes, pos: nat, f: Field) {
    FieldAt(buf, pos) == Ok((f, pos + |FieldBytes(f)|))
  }

  lemma {:induction false} IntFieldRoundTrip(buf: Bytes, pos: nat, number: int, n: nat)
    requires 1 <= number <= 15 && Holds(buf, pos, FieldBytes(Field(number, Int(n))))
    ensures ReadAt(buf, pos, Field(number, Int(n)))
  {
    IntRoundTrip(buf, pos, number, n);
  }

  lemma {:induction false} LenFieldRoundTrip(buf: Bytes, pos: nat, number: int, bytes: Bytes)
    requires 1 <= number <= 15 && |bytes| < TWO_53 && Holds(buf, pos, FieldBytes(Field(number, Len(bytes))))
    ensures ReadAt(buf, pos, Field(number, Len(bytes)))
  {
    LenRoundTrip(buf, pos, number, bytes);
  }

  lemma FieldRoundTrip(buf: Bytes, pos: nat, f: Field)
    requires Writable(f) && Holds(buf, pos, FieldBytes(f))
    ensures ReadAt(buf, pos, f)
  {
    match f
    case Field(number, Int(n)) => IntFieldRoundTrip(buf, pos, number, n);
    case Field(number, Len(bytes)) => LenFieldRoundTrip(buf, pos, number, bytes);
  }

  lemma HoldsRest<T>(buf: seq<T>, pos: nat, a: seq<T>, b: seq<T>)
    requires pos <= |buf| && buf[pos..] == a + b
    ensures Holds(buf, pos, a) && buf[pos + |a|..] == b
  {
    assert |buf| == pos + |a + b|;
    assert buf[pos..pos + |a|] == (a + b)[..|a|] && buf[pos + |a|..] == (a + b)[|a|..];
  }

  lemma HoldsAtEnd<T>(a: seq<T>, b: seq<T>)
    ensures Holds(a + b, |a|, b)
  {
  }

  lemma OneField(buf: Bytes, pos: nat, f: Field)
    requires Writable(f) && Holds(buf, pos, FieldBytes(f))
    ensures Fields(buf, pos) == Added([f], Fields(buf, pos + |FieldBytes(f)|))
  {
    FieldRoundTrip(buf, pos, f);
    FieldsUnfold(buf, pos, f, pos + |FieldBytes(f)|);
  }

  /** Wherever one of the fields is printed in the buffer, it is read back there. */
  ghost predicate ReadsBack(buf: Bytes, fields: seq<Field>, show: Field -> Bytes) {
    forall f, p: nat :: f in fields && Holds(buf, p, show(f)) ==>
      Fields(buf, p) == Added([f], Fields(buf, p + |show(f)|))
  }

  lemma WritableReadsBack(buf: Bytes, fields: seq<Field>)
    requires forall f <- fields :: Writable(f)
    ensures ReadsBack(buf, fields, FieldBytes)
  {
    forall f, p: nat | f in fields && Holds(buf, p, FieldBytes(f))
      ensures Fields(buf, p) == Added([f], Fields(buf, p + |FieldBytes(f)|))
    {
      OneField(buf, p, f);
    }
  }

  /** Encoded fields are read back one by one, up to whatever follows them. */
  lemma {:induction false} FieldsFrom(buf: Bytes, pos: nat, fields: seq<Field>, show: Field -> Bytes, tail: Bytes)
    requires ReadsBack(buf, fields, show) && pos <= |buf| && buf[pos..] == Flat(fields, show) + tail
    ensures Fields(buf, pos) == Added(fields, Fields(buf, |buf| - |tail|))
    decreases |fields|
  {
    if fields == [] {
      NilPlus(tail);
      AddedTwice([], [], Fields(buf, pos));
    } else {
      var first, rest := show(fields[0]), Flat(fields[1..], show);
      PlusPlus(first, rest, tail);
      HoldsRest(buf, pos, first, rest + tail);
      assert forall f <- fields[1..] :: f in fields;
      FieldsFrom(buf, pos + |first|, fields[1..], show, tail);
      AddedTwice([fields[0]], fields[1..], Fields(buf, |buf| - |tail|));
      HeadAndTail(fields);
    }
  }

  lemma {:induction false} FieldsThen(fields: seq<Field>, tail: Bytes)
    requires forall f <- fields :: Writable(f)
    ensures var buf := Encoded(fields) + tail; Fields(buf, 0) == Added(fields, Fields(buf, |buf| - |tail|))
  {
    var buf := Encoded(fields) + tail;
    WritableReadsBack(buf, fields);
    assert buf[0..] == buf;
    FieldsFrom(buf, 0, fields, FieldBytes, tail);
  }

  /** Parsing recovers every encoded field, in order. */
  lemma {:induction false} FieldsRoundTrip(fields: seq<Field>)
    requires forall f <- fields :: Writable(f)
    ensures Fields(Encoded(fields), 0) == Ok(fields)
  {
    FieldsThen(fields, []);
    NilPlus(Encoded(fields));
    NilPlus(fields);
  }

  /** A field of any other wire type ends the parse, and the error names the type. */
  lemma {:induction false} UnsupportedTypeIsNamed(fields: seq<Field>, number: int, wire: int, rest: Bytes)
    requires forall f <- fields :: Writable(f)
    requires 1 <= number <= 15 && 0 <= wire < 8 && wire != 0 && wire != 2
    ensures Fields(Encoded(fields) + ([TagByte(number, wire)] + rest), 0) == Err(wire)
  {
    var tag := TagByte(number, wire);
    var tail := [tag] + rest;
    var buf, pos := Encoded(fields) + tail, |Encoded(fields)|;
    FieldsThen(fields, tail);
    TagParts(number, wire);
    assert buf[pos] == tag;
    assert Varint(buf, pos) == (tag, pos + 1);
    SmallTag(tag);
  }

  /** A last field cut short is read as far as it goes; nothing is refused and nothing before it is lost. */
  lemma {:induction false} CutFieldIsClamped(fields: seq<Field>, number: int, n: nat, bytes: Bytes)
    requires forall f <- fields :: Writable(f)
    requires 1 <= number <= 15 && |bytes| <= n < TWO_53
    ensures Fields(Encoded(fields) + ([TagByte(number, 2)] + (VarintOf(n) + bytes)), 0) ==
            Ok(fields + [Field(number, Len(bytes))])
  {
    var tail := [TagByte(number, 2)] + (VarintOf(n) + bytes);
    var buf, pos := Encoded(fields) + tail, |Encoded(fields)|;
    FieldsThen(fields, tail);
    HoldsAtEnd(Encoded(fields), tail);
    CutFieldAt(buf, pos, number, n, bytes);
  }

  /** The cut field itself, at the end of a buffer. */
  lemma {:induction false} CutFieldAt(buf: Bytes, pos: nat, number: int, n: nat, bytes: Bytes)
    requires 1 <= number <= 15 && |bytes| <= n < TWO_53
    requires var tail := [TagByte(number, 2)] + (VarintOf(n) + bytes);
             Holds(buf, pos, tail) && |buf| == pos + |tail|
    ensures Fields(buf, pos) == Ok([Field(number, Len(bytes))])
  {
    var tag, begin := TagByte(number, 2), pos + 1 + |VarintOf(n)|;
    TagParts(number, 2);
    HoldsTagged(buf, pos, tag, VarintOf(n) + bytes);
    HoldsParts(buf, pos + 1, VarintOf(n), bytes);
    VarintRoundTrip(buf, pos + 1, n);
    CutFieldIs(buf, pos, tag, n, begin);
    assert buf[begin..] == bytes;
  }

  lemma {:induction false} CutFieldIs(buf: Bytes, pos: nat, tag: byte, n: nat, begin: nat)
    requires pos < |buf| && buf[pos] == tag < 128 && tag % 8 == 2 && Varint(buf, pos + 1) == (n, begin)
    requires begin <= |buf| <= begin + n && n < TWO_53
    ensures Fields(buf, pos) == Ok([Field(tag / 8, Len(buf[begin..]))])
  {
    assert Varint(buf, pos) == (tag, pos + 1);
    SmallTag(tag);
    var f := Field(tag / 8, Len(buf[begin..]));
    FieldsUnfold(buf, pos, f, begin + n);
    NilPlus([f]);
  }

  // ---- the start message ----

  datatype StartExec = StartExec(sandboxId: Bytes, command: seq<Bytes>, cwd: Bytes, env: seq<(Bytes, Bytes)>)

  function LenFields(number: int, payloads: seq<Bytes>): seq<Field> {
    seq(|payloads|, i requires 0 <= i < |payloads| => Field(number, Len(payloads[i])))
  }

  function EntryFields(entry: (Bytes, Bytes)): seq<Field> {
    [Field(1, Len(entry.0)), Field(2, Len(entry.1))]
  }

  function EntryBytes(env: seq<(Bytes, Bytes)>): seq<Bytes> {
    seq(|env|, i requires 0 <= i < |env| => Encoded(EntryFields(env[i])))
  }

  function ExecFields(x: StartExec): seq<Field> {
    LenFields(1, x.command) + (LenFields(2, if x.cwd == [] then [] else [x.cwd]) + LenFields(3, EntryBytes(x.env)))
  }

  function StartFields(x: StartExec): seq<Field> {
    [Field(1, Len(x.sandboxId)), Field(2, Len(Encoded(ExecFields(x))))]
  }

  method EncString(number: int, s: Bytes, out: ByteList)
    modifies out
    ensures out.bytes == old(out.bytes) + FieldBytes(Field(number, Len(s)))
  {
    out.Push(TagByte(number, 2));
    EncVarint(|s|, out);
    out.PushAll(s);
  }

  /** As the source has it, the same bytes as a string field. */
  method EncMessage(number: int, inner: ByteList, out: ByteList)
    requires inner != out
    modifies out
    ensures out.bytes == old(out.bytes) + FieldBytes(Field(number, Len(inner.bytes)))
  {
    out.Push(TagByte(number, 2));
    EncVarint(|inner.bytes|, out);
    out.PushAll(inner.bytes);
  }

  method EncodeCommand(command: seq<Bytes>, out: ByteList)
    requires out.bytes == []
    modifies out
    ensures out.bytes == Encoded(LenFields(1, command))
  {
    ghost var fields := LenFields(1, command);
    for i := 0 to |command|
      invariant out.bytes == Encoded(fields[..i])
    {
      EncString(1, command[i], out);
      FlatMore(fields, i, FieldBytes);
    }
    assert fields[..|command|] == fields;
  }

  method EncodeEntry(entry: (Bytes, Bytes)) returns (out: ByteList)
    ensures fresh(out) && out.bytes == Encoded(EntryFields(entry))
  {
    out := new ByteList();
    EncString(1, entry.0, out);
    EncString(2, entry.1, out);
    FlatFew(Field(1, Len(entry.0)), Field(2, Len(entry.1)), FieldBytes);
  }

  method EncodeEnv(env: seq<(Bytes, Bytes)>, out: ByteList)
    modifies out
    ensures out.bytes == old(out.bytes) + Encoded(LenFields(3, EntryBytes(env)))
  {
    ghost var fields := LenFields(3, EntryBytes(env));
    for i := 0 to |env|
      invariant out.bytes == old(out.bytes) + Encoded(fields[..i])
    {
      var entry := EncodeEntry(env[i]);
      ghost var before, f := Encoded(fields[..i]), fields[i];
      assert f == Field(3, Len(entry.bytes));
      EncMessage(3, entry, out);
      FlatMore(fields, i, FieldBytes);
      PlusPlus(old(out.bytes), before, FieldBytes(f));
    }
    assert fields[..|env|] == fields;
  }

  lemma ExecParts(x: StartExec)
    ensures Encoded(ExecFields(x)) ==
            (Encoded(LenFields(1, x.command)) + (if x.cwd == [] then [] else FieldBytes(Field(2, Len(x.cwd)))))
            + Encoded(LenFields(3, EntryBytes(x.env)))
  {
    var cwd, env := LenFields(2, if x.cwd == [] then [] else [x.cwd]), LenFields(3, EntryBytes(x.env));
    FlatPlus(LenFields(1, x.command), cwd + env, FieldBytes);
    FlatPlus(cwd, env, FieldBytes);
    PlusPlus(Encoded(LenFields(1, x.command)), Encoded(cwd), Encoded(env));
    if x.cwd != [] {
      HeadAndTail(cwd);
      FlatFew(Field(2, Len(x.cwd)), Field(2, Len(x.cwd)), FieldBytes);
    }
  }

  /** The nested exec parameters; an empty working directory is left out. */
  method EncodeExec(command: seq<Bytes>, cwd: Bytes, env: seq<(Bytes, Bytes)>, ghost x: StartExec)
    returns (exec: ByteList)
    requires x == StartExec(x.sandboxId, command, cwd, env)
    ensures fresh(exec) && exec.bytes == Encoded(ExecFields(x))
  {
    exec := new ByteList();
    EncodeCommand(command, exec);
    if cwd != [] { EncString(2, cwd, exec); }
    EncodeEnv(env, exec);
    ExecParts(x);
  }

  method EncodeIoStartExec(sandboxId: Bytes, command: seq<Bytes>, cwd: Bytes, env: seq<(Bytes, Bytes)>)
    returns (bytes: Bytes)
    ensures bytes == Encoded(StartFields(StartExec(sandboxId, command, cwd, env)))
  {
    ghost var x := StartExec(sandboxId, command, cwd, env);
    var exec := EncodeExec(command, cwd, env, x);
    var start := new ByteList();
    EncString(1, sandboxId, start);
    EncMessage(2, exec, start);
    FlatFew(Field(1, Len(sandboxId)), Field(2, Len(exec.bytes)), FieldBytes);
    bytes := start.bytes;
  }

  // ---- decoding, by the message definitions ----

  /** All payloads of a repeated field. */
  function Lens(fields: seq<Field>, number: int): seq<Bytes> {
    if fields == [] then []
    else
      var f := fields[|fields| - 1];
      Lens(fields[..|fields| - 1], number) + if f.number == number && f.value.Len? then [f.value.bytes] else []
  }

  /** A singular field: the last one wins, and a missing one is empty. */
  function LastLen(fields: seq<Field>, number: int): Bytes {
    var all := Lens(fields, number);
    if all == [] then [] else all[|all| - 1]
  }

  function DecodeEntry(bytes: Bytes): Option<(Bytes, Bytes)> {
    var fields := Fields(bytes, 0);
    if fields.Err? then None else Some((LastLen(fields.value, 1), LastLen(fields.value, 2)))
  }

  function DecodeEntries(entries: seq<Bytes>): Option<seq<(Bytes, Bytes)>> {
    if entries == [] then Some([])
    else
      var front, last := DecodeEntries(entries[..|entries| - 1]), DecodeEntry(entries[|entries| - 1]);
      if front.Some? && last.Some? then Some(front.value + [last.value]) else None
  }

  /** The start message as the other end reads it. */
  function DecodeStart(bytes: Bytes): Option<StartExec> {
    var outer := Fields(bytes, 0);
    if outer.Err? then None
    else
      var inner := Fields(LastLen(outer.value, 2), 0);
      if inner.Err? then None
      else
        var env := DecodeEntries(Lens(inner.value, 3));
        if env.None? then None
        else Some(StartExec(LastLen(outer.value, 1), Lens(inner.value, 1), LastLen(inner.value, 2), env.value))
  }

  lemma {:induction false} LensPlus(a: seq<Field>, b: seq<Field>, number: int)
    ensures Lens(a + b, number) == Lens(a, number) + Lens(b, number)
  {
    if b == [] {
      assert a + b == a;
    } else {
      LensPlus(a, b[..|b| - 1], number);
      assert (a + b)[..|a + b| - 1] == a + b[..|b| - 1];
    }
  }

  lemma {:induction false} LensOfAll(number: int, payloads: seq<Bytes>, wanted: int)
    ensures Lens(LenFields(number, payloads), wanted) == if number == wanted then payloads else []
  {
    if payloads != [] {
      var n := |payloads| - 1;
      LensOfAll(number, payloads[..n], wanted);
      assert LenFields(number, payloads)[..n] == LenFields(number, payloads[..n]);
    }
  }

  lemma LensOfTwo(a: Bytes, b: Bytes)
    ensures var two := [Field(1, Len(a)), Field(2, Len(b))]; Lens(two, 1) == [a] && Lens(two, 2) == [b]
  {
    var two := [Field(1, Len(a)), Field(2, Len(b))];
    assert two == LenFields(1, [a]) + LenFields(2, [b]);
    LensPlus(LenFields(1, [a]), LenFields(2, [b]), 1);
    LensPlus(LenFields(1, [a]), LenFields(2, [b]), 2);
    LensOfAll(1, [a], 1);
    LensOfAll(1, [a], 2);
    LensOfAll(2, [b], 1);
    LensOfAll(2, [b], 2);
  }

  lemma EntryRoundTrip(entry: (Bytes, Bytes))
    requires |entry.0| < TWO_53 && |entry.1| < TWO_53
    ensures DecodeEntry(Encoded(EntryFields(entry))) == Some(entry)
  {
    FieldsRoundTrip(EntryFields(entry));
    LensOfTwo(entry.0, entry.1);
  }

  lemma {:induction false} DecodeEntriesIs(entries: seq<Bytes>, env: seq<(Bytes, Bytes)>)
    requires |entries| == |env| && forall i :: 0 <= i < |env| ==> DecodeEntry(entries[i]) == Some(env[i])
    ensures DecodeEntries(entries) == Some(env)
  {
    if env != [] {
      var n := |env| - 1;
      DecodeEntriesIs(entries[..n], env[..n]);
      FrontAndLast(env);
    }
  }

  lemma LensOfThree(a: seq<Bytes>, b: seq<Bytes>, c: seq<Bytes>, number: int)
    requires 1 <= number <= 3
    ensures Lens(LenFields(1, a) + (LenFields(2, b) + LenFields(3, c)), number) ==
            if number == 1 then a else if number == 2 then b else c
  {
    LensPlus(LenFields(1, a), LenFields(2, b) + LenFields(3, c), number);
    LensPlus(LenFields(2, b), LenFields(3, c), number);
    LensOfAll(1, a, number);
    LensOfAll(2, b, number);
    LensOfAll(3, c, number);
    NilPlus(a);
    NilPlus(b);
    NilPlus(c);
  }

  lemma ExecLens(x: StartExec)
    ensures Lens(ExecFields(x), 1) == x.command && Lens(ExecFields(x), 3) == EntryBytes(x.env)
    ensures LastLen(ExecFields(x), 2) == x.cwd
  {
    var cwds := if x.cwd == [] then [] else [x.cwd];
    LensOfThree(x.command, cwds, EntryBytes(x.env), 1);
    LensOfThree(x.command, cwds, EntryBytes(x.env), 2);
    LensOfThree(x.command, cwds, EntryBytes(x.env), 3);
  }

  /** A payload is shorter than the message it is part of. */
  lemma {:induction false} PartIsShorter(fields: seq<Field>, i: nat)
    requires i < |fields| && fields[i].value.Len?
    ensures |fields[i].value.bytes| < |Encoded(fields)|
    decreases |fields|
  {
    if i > 0 { PartIsShorter(fields[1..], i - 1); }
  }

  lemma {:induction false} EnvRoundTrip(x: StartExec)
    requires |Encoded(ExecFields(x))| < TWO_53
    ensures DecodeEntries(EntryBytes(x.env)) == Some(x.env)
  {
    forall i | 0 <= i < |x.env|
      ensures DecodeEntry(EntryBytes(x.env)[i]) == Some(x.env[i])
    {
      var k := |ExecFields(x)| - |x.env| + i;
      assert ExecFields(x)[k] == Field(3, Len(EntryBytes(x.env)[i]));
      PartIsShorter(ExecFields(x), k);
      PartIsShorter(EntryFields(x.env[i]), 0);
      PartIsShorter(EntryFields(x.env[i]), 1);
      EntryRoundTrip(x.env[i]);
    }
    DecodeEntriesIs(EntryBytes(x.env), x.env);
  }

  lemma ExecIsWritable(x: StartExec)
    requires |Encoded(ExecFields(x))| < TWO_53
    ensures forall f <- ExecFields(x) :: Writable(f)
  {
    forall i | 0 <= i < |ExecFields(x)|
      ensures Writable(ExecFields(x)[i])
    {
      assert 1 <= ExecFields(x)[i].number <= 3 && ExecFields(x)[i].value.Len?;
      PartIsShorter(ExecFields(x), i);
    }
  }

  lemma DecodeStartIs(x: StartExec, bytes: Bytes, exec: Bytes)
    requires Fields(bytes, 0) == Ok([Field(1, Len(x.sandboxId)), Field(2, Len(exec))])
    requires Fields(exec, 0) == Ok(ExecFields(x)) && DecodeEntries(EntryBytes(x.env)) == Some(x.env)
    ensures DecodeStart(bytes) == Some(x)
  {
    LensOfTwo(x.sandboxId, exec);
    ExecLens(x);
  }

  /** Arguments, working directory and environment come back as they went in. */
  lemma {:induction false} StartRoundTrip(x: StartExec)
    requires |Encoded(StartFields(x))| < TWO_53
    ensures DecodeStart(Encoded(StartFields(x))) == Some(x)
  {
    var exec := Encoded(ExecFields(x));
    PartIsShorter(StartFields(x), 0);
    PartIsShorter(StartFields(x), 1);
    FieldsRoundTrip(StartFields(x));
    ExecIsWritable(x);
    FieldsRoundTrip(ExecFields(x));
    EnvRoundTrip(x);
    DecodeStartIs(x, Encoded(StartFields(x)), exec);
  }

  // ---- the messages the browser decodes ----

  function Parsed(buf: Bytes): Result<map<int, seq<Value>>, UnsupportedWireType> {
    var fields := Fields(buf, 0);
    if fields.Err? then Err(fields.error) else Ok(Grouped(fields.value))
  }

  /** The first value of a field, as an int32, if it is there and is a varint. */
  function FirstInt32(m: map<int, seq<Value>>, number: int): int {
    if number in m && m[number] != [] && m[number][0].Int? then AsInt32(m[number][0].n) else 0
  }

  function FirstBytes(m: map<int, seq<Value>>, number: int): Bytes {
    if number in m && m[number] != [] && m[number][0].Len? then m[number][0].bytes else []
  }

  predicate FirstBool(m: map<int, seq<Value>>, number: int) {
    number in m && m[number] != [] && m[number][0].Int? && m[number][0].n != 0
  }

  datatype IoExited = IoExited(exitCode: int, commandNotFound: bool)

  function DecodeIoExited(buf: Bytes): Result<IoExited, UnsupportedWireType> {
    var m := Parsed(buf);
    if m.Err? then Err(m.error) else Ok(IoExited(FirstInt32(m.value, 1), FirstBool(m.value, 2)))
  }

  datatype IoStarted = IoStarted(execId: Bytes, inContainerPid: int)

  function DecodeIoStarted(buf: Bytes): Result<IoStarted, UnsupportedWireType> {
    var m := Parsed(buf);
    if m.Err? then Err(m.error) else Ok(IoStarted(FirstBytes(m.value, 1), FirstInt32(m.value, 2)))
  }

  datatype IoError = IoError(code: Bytes, detail: Bytes)

  function DecodeIoError(buf: Bytes): Result<IoError, UnsupportedWireType> {
    var m := Parsed(buf);
    if m.Err? then Err(m.error) else Ok(IoError(FirstBytes(m.value, 1), FirstBytes(m.value, 2)))
  }

  /** An int32 on the wire: the varint of its 64-bit two's complement; zero is left out. */
  function Int32Field(number: int, n: int): seq<Field> {
    if n == 0 then [] else [Field(number, Int(n % TWO_64))]
  }

  function StringField(number: int, s: Bytes): seq<Field> {
    if s == [] then [] else [Field(number, Len(s))]
  }

  lemma Int32RoundTrip(n: int)
    requires -TWO_31 <= n < TWO_31
    ensures AsInt32(n % TWO_64) == n
  {
  }

  lemma GroupedOne(f: Field)
    ensures Grouped([f]) == map[f.number := [f.value]]
  {
    var none: seq<Field> := [];
    GroupedMore(none, f);
    NilPlus([f]);
    NilPlus([f.value]);
  }

  lemma GroupedTwo(f: Field, g: Field)
    requires f.number != g.number
    ensures Grouped([f] + [g]) == map[f.number := [f.value], g.number := [g.value]]
  {
    GroupedOne(f);
    GroupedMore([f], g);
    NilPlus([g.value]);
  }

  lemma GroupedPair(a: seq<Field>, b: seq<Field>, p: int, q: int)
    requires |a| <= 1 && |b| <= 1 && p != q && (forall f <- a :: f.number == p) && (forall f <- b :: f.number == q)
    ensures var m := Grouped(a + b);
            && (if a == [] then p !in m else p in m && m[p] == [a[0].value])
            && (if b == [] then q !in m else q in m && m[q] == [b[0].value])
  {
    NilPlus(a);
    NilPlus(b);
    if a != [] { HeadAndTail(a); }
    if b != [] { HeadAndTail(b); }
    if a != [] && b != [] {
      GroupedTwo(a[0], b[0]);
    } else if a != [] {
      GroupedOne(a[0]);
    } else if b != [] {
      GroupedOne(b[0]);
    }
  }

  /** A message of at most one field of each number, parsed back. */
  lemma ParsedPair(a: seq<Field>, b: seq<Field>)
    requires |a| <= 1 && |b| <= 1 && (forall f <- a :: f.number == 1) && (forall f <- b :: f.number == 2)
    requires (forall f <- a :: Writable(f)) && (forall f <- b :: Writable(f))
    ensures var m := Parsed(Encoded(a + b));
            && m.Ok?
            && (if a == [] then 1 !in m.value else 1 in m.value && m.value[1] == [a[0].value])
            && (if b == [] then 2 !in m.value else 2 in m.value && m.value[2] == [b[0].value])
  {
    FieldsRoundTrip(a + b);
    GroupedPair(a, b, 1, 2);
  }

  /** Any exit code comes back, negative ones included. */
  lemma {:induction false} ExitedRoundTrip(x: IoExited)
    requires -TWO_31 <= x.exitCode < TWO_31
    ensures var notFound: seq<Field> := if x.commandNotFound then [Field(2, Int(1))] else [];
            DecodeIoExited(Encoded(Int32Field(1, x.exitCode) + notFound)) == Ok(x)
  {
    ParsedPair(Int32Field(1, x.exitCode), if x.commandNotFound then [Field(2, Int(1))] else []);
    Int32RoundTrip(x.exitCode);
  }

  lemma {:induction false} StartedRoundTrip(x: IoStarted)
    requires -TWO_31 <= x.inContainerPid < TWO_31 && |x.execId| < TWO_53
    ensures DecodeIoStarted(Encoded(StringField(1, x.execId) + Int32Field(2, x.inContainerPid))) == Ok(x)
  {
    ParsedPair(StringField(1, x.execId), Int32Field(2, x.inContainerPid));
    Int32RoundTrip(x.inContainerPid);
  }

  lemma {:induction false} ErrorRoundTrip(x: IoError)
    requires |x.code| < TWO_53 && |x.detail| < TWO_53
    ensures DecodeIoError(Encoded(StringField(1, x.code) + StringField(2, x.detail))) == Ok(x)
  {
    ParsedPair(StringField(1, x.code), StringField(2, x.detail));
  }
}

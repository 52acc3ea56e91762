/**
 The docker runtime's directory listing: a shell script prints one line per
 entry, and a parser reads the lines back. Text is taken as already decoded.
 */
module ListingParser {
  import opened Prelude
  import opened Wire

  const LIST_DIR_MAX_ENTRIES: nat := 5000
  const PREFIX := "OSB:"
  const U64_LIMIT: nat := 0x1_0000_0000_0000_0000

  // ---- text ----

  /** The position of the first `c`, or the length. */
  function Find(s: string, c: char): (i: nat)
    ensures i <= |s| && (i < |s| ==> s[i] == c) && c !in s[..i]
  {
    if s == "" || s[0] == c then 0 else 1 + Find(s[1..], c)
  }

  function StripCr(line: string): string {
    if line != "" && line[|line| - 1] == '\r' then line[..|line| - 1] else line
  }

  /** str::lines: a line ends at LF or CR LF, and the last one need not end. */
  function Lines(text: string): seq<string>
    decreases |text|
  {
    var i := Find(text, '\n');
    if text == "" then [] else if i == |text| then [text] else [StripCr(text[..i])] + Lines(text[i + 1..])
  }

  /** str::splitn(n, '|'). */
  function SplitN(s: string, n: nat): (cols: seq<string>)
    requires n > 0
    ensures 1 <= |cols| <= n
    decreases n
  {
    var i := Find(s, '|');
    if n == 1 || i == |s| then [s] else [s[..i]] + SplitN(s[i + 1..], n - 1)
  }

  function Column(cols: seq<string>, i: nat, missing: string): string {
    if i < |cols| then cols[i] else missing
  }

  predicate IsDigit(c: char) {
    '0' <= c <= '9'
  }

  function DigitsValue(s: string): nat
    requires forall c <- s :: IsDigit(c)
  {
    if s == "" then 0
    else
      assert IsDigit(s[|s| - 1]);
      10 * DigitsValue(s[..|s| - 1]) + (s[|s| - 1] as nat - '0' as nat)
  }

  /** str::parse::<u64>: an optional plus sign and digits, within range. */
  function ParseU64(s: string): Option<nat> {
    var digits := if s != "" && s[0] == '+' then s[1..] else s;
    if digits == "" || exists c <- digits :: !IsDigit(c) then None
    else if DigitsValue(digits) < U64_LIMIT then Some(DigitsValue(digits)) else None
  }

  function U64Or0(s: string): nat {
    var n := ParseU64(s);
    if n.Some? then n.value else 0
  }

  function Digit(d: nat): char
    requires d < 10
  {
    '0' + d as char
  }

  function Decimal(n: nat): (s: string)
    ensures s != "" && forall c <- s :: IsDigit(c)
  {
    if n < 10 then [Digit(n)] else Decimal(n / 10) + [Digit(n % 10)]
  }

  function Utf8Length(s: string): nat {
    if s == "" then 0
    else
      var c := s[|s| - 1] as int;
      Utf8Length(s[..|s| - 1]) + if c < 0x80 then 1 else if c < 0x800 then 2 else if c < 0x1_0000 then 3 else 4
  }

  /** Zeros on the left up to four characters. */
  function Padded(mode: string): string {
    if mode == "" || Utf8Length(mode) >= 4 then mode else Zeros(4 - |mode|) + mode
  }

  function Zeros(n: int): string {
    if n <= 0 then "" else "0" + Zeros(n - 1)
  }

  // ---- one line ----

  function KindOf(text: string): EntryKind {
    if text == "regular file" || text == "regular empty file" then FileEntry
    else if text == "directory" then DirEntry
    else if text == "symbolic link" then SymlinkEntry
    else OtherEntry
  }

  function EntryOf(cols: seq<string>): Entry<EntryKind> {
    var kind := KindOf(Column(cols, 1, ""));
    var size, mtime := U64Or0(Column(cols, 2, "0")), U64Or0(Column(cols, 3, "0"));
    Entry(
      Column(cols, 0, ""), kind, size, Decimal(mtime) + ":" + Decimal(size), Padded(Column(cols, 4, "")),
      if kind.SymlinkEntry? then Column(cols, 5, "") else "")
  }

  /** Nothing for a line without the prefix or with an empty name. */
  function LineEntry(prefix: string, line: string): Option<Entry<EntryKind>> {
    if !(prefix <= line) then None
    else
      var cols := SplitN(line[|prefix|..], 6);
      if cols[0] == "" then None else Some(EntryOf(cols))
  }

  function Reader(prefix: string): string -> seq<Entry<EntryKind>> {
    line => if LineEntry(prefix, line).Some? then [LineEntry(prefix, line).value] else []
  }

  function Entries(prefix: string, lines: seq<string>): seq<Entry<EntryKind>> {
    Flat(lines, Reader(prefix))
  }

  /** Every entry line counts, and the first ones are kept. */
  function Parsed(text: string, dirPath: string): Listing<EntryKind> {
    var all := Entries(PREFIX, Lines(text));
    Listing(dirPath, if |all| <= LIST_DIR_MAX_ENTRIES then all else all[..LIST_DIR_MAX_ENTRIES],
               |all| > LIST_DIR_MAX_ENTRIES, |all|)
  }

  method ParsePortableListOutput(text: string, dirPath: string) returns (listing: Listing<EntryKind>)
    ensures listing == Parsed(text, dirPath)
  {
    var lines := Lines(text);
    var entries: seq<Entry<EntryKind>> := [];
    var total := 0;
    for i := 0 to |lines|
      invariant var seen := Entries(PREFIX, lines[..i]);
                && total == |seen|
                && entries == if total <= LIST_DIR_MAX_ENTRIES then seen else seen[..LIST_DIR_MAX_ENTRIES]
    {
      FlatMore(lines, i, Reader(PREFIX));
      var entry := LineEntry(PREFIX, lines[i]);
      if entry.None? { continue; }
      total := total + 1;
      if |entries| < LIST_DIR_MAX_ENTRIES {
        entries := entries + [entry.value];
      }
    }
    assert lines[..|lines|] == lines;
    listing := Listing(dirPath, entries, total > |entries|, total);
  }

  // ---- what the script prints ----

  /** What stat says an entry is; `Special` is any other description. */
  datatype StatKind = RegularFile | EmptyFile | Directory | SymbolicLink | Special(text: string)

  function Description(kind: StatKind): string {
    match kind
    case RegularFile => "regular file"
    case EmptyFile => "regular empty file"
    case Directory => "directory"
    case SymbolicLink => "symbolic link"
    case Special(text) => text
  }

  /** One entry as the script sees it. */
  datatype Raw = Raw(name: string, kind: StatKind, size: nat, mtime: nat, mode: string, target: string)

  datatype Item = Noise(text: string) | Listed(raw: Raw)

  predicate Plain(s: string) {
    '|' !in s && '\n' !in s
  }

  const USUAL_KINDS := [RegularFile, EmptyFile, Directory, SymbolicLink]

  predicate KindOk(kind: StatKind) {
    kind.Special? ==> Plain(kind.text) && forall k <- USUAL_KINDS :: Description(k) != kind.text
  }

  /** The entries a listing can carry: columns free of the separators, and a target that a line keeps whole. */
  predicate Printable(r: Raw) {
    && r.name != "" && Plain(r.name) && KindOk(r.kind) && Plain(r.mode)
    && r.size < U64_LIMIT && r.mtime < U64_LIMIT
    && '\n' !in r.target && StripCr(r.target) == r.target
  }

  predicate ItemOk(prefix: string, item: Item) {
    if item.Noise? then '\n' !in item.text && !(prefix <= item.text) else Printable(item.raw)
  }

  function Columns(r: Raw): seq<string> {
    [r.name, Description(r.kind), Decimal(r.size), Decimal(r.mtime), r.mode, r.target]
  }

  function JoinColumns(cols: seq<string>): string
    requires cols != []
  {
    if |cols| == 1 then cols[0] else cols[0] + "|" + JoinColumns(cols[1..])
  }

  function ItemLine(prefix: string, item: Item): string {
    if item.Noise? then item.text else prefix + JoinColumns(Columns(item.raw))
  }

  function Printer(prefix: string): Item -> string {
    item => ItemLine(prefix, item) + "\n"
  }

  function Output(prefix: string, items: seq<Item>): string {
    Flat(items, Printer(prefix))
  }

  function Raws(items: seq<Item>): seq<Raw> {
    if items == [] then [] else (if items[0].Listed? then [items[0].raw] else []) + Raws(items[1..])
  }

  function ExpectedKind(kind: StatKind): EntryKind {
    match kind
    case RegularFile => FileEntry
    case EmptyFile => FileEntry
    case Directory => DirEntry
    case SymbolicLink => SymlinkEntry
    case Special(_) => OtherEntry
  }

  /** The entry a client should see. */
  function Expected(r: Raw): Entry<EntryKind> {
    Entry(r.name, ExpectedKind(r.kind), r.size, Decimal(r.mtime) + ":" + Decimal(r.size), Padded(r.mode),
             if r.kind.SymbolicLink? then r.target else "")
  }

  function ExpectedAll(raws: seq<Raw>): seq<Entry<EntryKind>> {
    seq(|raws|, i requires 0 <= i < |raws| => Expected(raws[i]))
  }

  // ---- reading back ----

  lemma {:induction false} FindAt(a: string, c: char, b: string)
    requires c !in a
    ensures Find(a + [c] + b, c) == |a|
    decreases |a|
  {
    if a != "" {
      FindAt(a[1..], c, b);
      assert (a + [c] + b)[1..] == a[1..] + [c] + b;
    }
  }

  lemma LinesMore(line: string, rest: string)
    requires '\n' !in line
    ensures Lines(line + "\n" + rest) == [StripCr(line)] + Lines(rest)
  {
    var text := line + "\n" + rest;
    FindAt(line, '\n', rest);
    assert text[..|line|] == line && text[|line| + 1..] == rest;
  }

  lemma SplitMore(col: string, rest: string, n: nat)
    requires '|' !in col && n > 1
    ensures SplitN(col + "|" + rest, n) == [col] + SplitN(rest, n - 1)
  {
    var s := col + "|" + rest;
    FindAt(col, '|', rest);
    assert s[..|col|] == col && s[|col| + 1..] == rest;
  }

  lemma {:induction false} SplitJoined(cols: seq<string>)
    requires cols != [] && forall i :: 0 <= i < |cols| - 1 ==> '|' !in cols[i]
    ensures SplitN(JoinColumns(cols), |cols|) == cols
    decreases |cols|
  {
    HeadAndTail(cols);
    if |cols| > 1 {
      SplitMore(cols[0], JoinColumns(cols[1..]), |cols|);
      SplitJoined(cols[1..]);
    }
  }

  lemma {:induction false} DecimalValue(n: nat)
    ensures DigitsValue(Decimal(n)) == n
  {
    var s := Decimal(n);
    if n < 10 {
      assert s[..|s| - 1] == "";
    } else {
      DecimalValue(n / 10);
      assert s[..|s| - 1] == Decimal(n / 10);
    }
  }

  lemma DecimalRoundTrip(n: nat)
    requires n < U64_LIMIT
    ensures U64Or0(Decimal(n)) == n
  {
    DecimalValue(n);
    assert IsDigit(Decimal(n)[0]);
  }

  lemma KindRoundTrip(kind: StatKind)
    requires KindOk(kind)
    ensures KindOf(Description(kind)) == ExpectedKind(kind) && Plain(Description(kind))
  {
    if kind.Special? {
      assert RegularFile in USUAL_KINDS && EmptyFile in USUAL_KINDS;
      assert Directory in USUAL_KINDS && SymbolicLink in USUAL_KINDS;
    }
  }

  lemma EntryRoundTrip(r: Raw)
    requires Printable(r)
    ensures EntryOf(Columns(r)) == Expected(r)
  {
    KindRoundTrip(r.kind);
    DecimalRoundTrip(r.size);
    DecimalRoundTrip(r.mtime);
  }

  lemma ColumnsAreSeparate(r: Raw, i: nat)
    requires Printable(r) && i < 5
    ensures '|' !in Columns(r)[i] && '\n' !in Columns(r)[i]
  {
    assert !IsDigit('|') && !IsDigit('\n');
    KindRoundTrip(r.kind);
  }

  lemma {:induction false} JoinedIsOneLine(cols: seq<string>)
    requires cols != [] && forall i :: 0 <= i < |cols| ==> '\n' !in cols[i]
    ensures '\n' !in JoinColumns(cols)
    ensures |JoinColumns(cols)| >= |cols[|cols| - 1]|
    ensures |cols| > 1 ==> |JoinColumns(cols)| > |cols[|cols| - 1]|
    ensures |cols| > 1 ==> JoinColumns(cols)[|JoinColumns(cols)| - |cols[|cols| - 1]| - 1] == '|'
    ensures JoinColumns(cols)[|JoinColumns(cols)| - |cols[|cols| - 1]|..] == cols[|cols| - 1]
  {
    if |cols| > 1 {
      JoinedIsOneLine(cols[1..]);
    }
  }

  /** Six columns, the first of them not empty, are one entry. */
  lemma ColumnsAreRead(prefix: string, cols: seq<string>)
    requires |cols| == 6 && cols[0] != "" && forall i :: 0 <= i < 5 ==> '|' !in cols[i]
    ensures LineEntry(prefix, prefix + JoinColumns(cols)) == Some(EntryOf(cols))
  {
    SplitJoined(cols);
    assert (prefix + JoinColumns(cols))[|prefix|..] == JoinColumns(cols);
  }

  lemma LineIsWhole(prefix: string, cols: seq<string>)
    requires |cols| == 6 && '\n' !in prefix && forall i :: 0 <= i < 6 ==> '\n' !in cols[i]
    requires StripCr(cols[5]) == cols[5]
    ensures var line := prefix + JoinColumns(cols); '\n' !in line && StripCr(line) == line
  {
    JoinedIsOneLine(cols);
    var joined := JoinColumns(cols);
    assert joined[|joined| - |cols[5]|..] == cols[5];
  }

  lemma LineRoundTrip(prefix: string, r: Raw)
    requires Printable(r) && '\n' !in prefix
    ensures var line := ItemLine(prefix, Listed(r));
            '\n' !in line && StripCr(line) == line && LineEntry(prefix, line) == Some(Expected(r))
  {
    forall i | 0 <= i < 5
      ensures '|' !in Columns(r)[i] && '\n' !in Columns(r)[i]
    {
      ColumnsAreSeparate(r, i);
    }
    ColumnsAreRead(prefix, Columns(r));
    LineIsWhole(prefix, Columns(r));
    EntryRoundTrip(r);
  }

  lemma NoiseIsSkipped(prefix: string, text: string)
    requires !(prefix <= text)
    ensures LineEntry(prefix, StripCr(text)) == None
  {
    assert StripCr(text) <= text;
    assert prefix <= StripCr(text) ==> prefix <= text;
  }

  /** One line in front of the others. */
  lemma OneLine(prefix: string, line: string, rest: string)
    requires '\n' !in line
    ensures var entry := LineEntry(prefix, StripCr(line));
            Entries(prefix, Lines(line + "\n" + rest)) ==
            (if entry.Some? then [entry.value] else []) + Entries(prefix, Lines(rest))
  {
    LinesMore(line, rest);
    var lines := Lines(line + "\n" + rest);
    assert lines[0] == StripCr(line) && lines[1..] == Lines(rest);
  }

  function ItemEntries(item: Item): seq<Entry<EntryKind>> {
    if item.Listed? then [Expected(item.raw)] else []
  }

  lemma OneItem(prefix: string, item: Item, rest: string)
    requires '\n' !in prefix && ItemOk(prefix, item)
    ensures Entries(prefix, Lines(Printer(prefix)(item) + rest)) == ItemEntries(item) + Entries(prefix, Lines(rest))
  {
    if item.Listed? { LineRoundTrip(prefix, item.raw); } else { NoiseIsSkipped(prefix, item.text); }
    OneLine(prefix, ItemLine(prefix, item), rest);
  }

  /** A parser that reads one printed item at a time reads them all. */
  lemma {:induction false} FlatParses(parse: string -> seq<Entry<EntryKind>>, show: Item -> string, items: seq<Item>)
    requires parse("") == []
    requires forall item, rest :: item in items ==> parse(show(item) + rest) == ItemEntries(item) + parse(rest)
    ensures parse(Flat(items, show)) == Flat(items, ItemEntries)
    decreases |items|
  {
    if items != [] {
      assert forall item <- items[1..] :: item in items;
      FlatParses(parse, show, items[1..]);
    }
  }

  lemma ExpectedMore(r: Raw, rest: seq<Raw>)
    ensures ExpectedAll([r] + rest) == [Expected(r)] + ExpectedAll(rest)
  {
  }

  lemma {:induction false} FlatEntries(items: seq<Item>)
    ensures Flat(items, ItemEntries) == ExpectedAll(Raws(items))
    decreases |items|
  {
    if items != [] {
      FlatEntries(items[1..]);
      if items[0].Listed? {
        ExpectedMore(items[0].raw, Raws(items[1..]));
      } else {
        NilPlus(Raws(items[1..]));
        NilPlus(Flat(items[1..], ItemEntries));
      }
    }
  }

  function Parser(prefix: string): string -> seq<Entry<EntryKind>> {
    text => Entries(prefix, Lines(text))
  }

  lemma {:induction false} EntriesRoundTrip(prefix: string, items: seq<Item>)
    requires '\n' !in prefix && forall item <- items :: ItemOk(prefix, item)
    ensures Entries(prefix, Lines(Output(prefix, items))) == ExpectedAll(Raws(items))
  {
    forall item, rest | item in items
      ensures Parser(prefix)(Printer(prefix)(item) + rest) == ItemEntries(item) + Parser(prefix)(rest)
    {
      OneItem(prefix, item, rest);
    }
    FlatParses(Parser(prefix), Printer(prefix), items);
    FlatEntries(items);
  }

  /** The script's output, with any other lines between, gives its entries back, the first ones up to the cap. */
  lemma ListRoundTrip(items: seq<Item>, dirPath: string)
    requires forall item <- items :: ItemOk(PREFIX, item)
    ensures var listing, raws := Parsed(Output(PREFIX, items), dirPath), Raws(items);
            && listing.path == dirPath
            && listing.total == |raws|
            && listing.truncated == (|raws| > LIST_DIR_MAX_ENTRIES)
            && listing.entries ==
               ExpectedAll(raws)[..if |raws| <= LIST_DIR_MAX_ENTRIES then |raws| else LIST_DIR_MAX_ENTRIES]
  {
    EntriesRoundTrip(PREFIX, items);
  }

  lemma {:induction false} AsciiLength(s: string)
    requires forall c <- s :: IsDigit(c)
    ensures Utf8Length(s) == |s|
  {
    if s != "" {
      assert IsDigit(s[|s| - 1]);
      AsciiLength(s[..|s| - 1]);
    }
  }

  lemma {:induction false} ZerosAreZeros(n: nat)
    ensures |Zeros(n)| == n && forall c <- Zeros(n) :: c == '0'
  {
    if n > 0 { ZerosAreZeros(n - 1); }
  }

  /** A mode in digits is padded to at least four, and leading zeros are all that is added. */
  lemma PaddedMode(mode: string)
    requires mode != "" && forall c <- mode :: IsDigit(c)
    ensures |Padded(mode)| == if |mode| < 4 then 4 else |mode|
    ensures Padded(mode) == Zeros(|Padded(mode)| - |mode|) + mode
  {
    AsciiLength(mode);
    if |mode| < 4 { ZerosAreZeros(4 - |mode|); }
  }
}

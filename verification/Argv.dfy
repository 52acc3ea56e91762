/** The command line splitter of the exec panel: whitespace separates, quotes of either kind group. */
module Argv {
  import opened Prelude

  /** `args` so far, the argument under way, whether there is one, and the quote it is in. */
  datatype Splitter = Splitter(args: seq<string>, cur: string, started: bool, quote: Option<char>)

  const IDLE := Splitter([], "", false, None)

  predicate IsQuote(c: char) {
    c == '"' || c == '\''
  }

  /** What the regular expression class `\s` matches. */
  predicate IsSpace(c: char) {
    || '\t' <= c <= '\r' || c == ' ' || c == '\U{A0}' || c == '\U{1680}' || '\U{2000}' <= c <= '\U{200A}'
    || c == '\U{2028}' || c == '\U{2029}' || c == '\U{202F}' || c == '\U{205F}' || c == '\U{3000}' || c == '\U{FEFF}'
  }

  function Flushed(s: Splitter): Splitter {
    if s.started then s.(args := s.args + [s.cur], cur := "", started := false) else s
  }

  function Next(s: Splitter, c: char): Splitter {
    if s.quote.Some? then
      if c == s.quote.value then s.(quote := None) else s.(cur := s.cur + [c])
    else if IsQuote(c) then s.(quote := Some(c), started := true)
    else if IsSpace(c) then Flushed(s)
    else s.(cur := s.cur + [c], started := true)
  }

  function Feed(s: Splitter, line: string): Splitter
    decreases |line|
  {
    if line == "" then s else Feed(Next(s, line[0]), line[1..])
  }

  function Parse(line: string): seq<string> {
    Flushed(Feed(IDLE, line)).args
  }

  method ParseCommand(line: string) returns (args: seq<string>)
    ensures args == Parse(line)
  {
    args := [];
    var cur, started := "", false;
    var quote: Option<char> := None;
    for i := 0 to |line|
      invariant Feed(Splitter(args, cur, started, quote), line[i..]) == Feed(IDLE, line)
      invariant quote.Some? ==> started
    {
      var c := line[i];
      assert line[i..][1..] == line[i + 1..];
      if quote.Some? {
        if c == quote.value { quote := None; } else { cur := cur + [c]; }
      } else if c == '"' || c == '\'' {
        quote, started := Some(c), true;
      } else if IsSpace(c) {
        if started { args, cur, started := args + [cur], "", false; }
      } else {
        cur, started := cur + [c], true;
      }
    }
    if started { args := args + [cur]; }
  }

  // ---- feeding in parts ----

  lemma {:induction false} FeedPlus(s: Splitter, a: string, b: string)
    ensures Feed(s, a + b) == Feed(Feed(s, a), b)
    decreases |a|
  {
    if a == "" {
      assert a + b == b;
    } else {
      FeedPlus(Next(s, a[0]), a[1..], b);
      assert (a + b)[1..] == a[1..] + b;
    }
  }

  /** Arguments already split off do not influence the rest. */
  function Behind(args: seq<string>, s: Splitter): Splitter {
    s.(args := args + s.args)
  }

  lemma {:induction false} FeedBehind(args: seq<string>, s: Splitter, line: string)
    ensures Feed(Behind(args, s), line) == Behind(args, Feed(s, line))
    decreases |line|
  {
    if line != "" {
      assert args + (s.args + [s.cur]) == (args + s.args) + [s.cur];
      assert Next(Behind(args, s), line[0]) == Behind(args, Next(s, line[0]));
      FeedBehind(args, Next(s, line[0]), line[1..]);
    }
  }

  /** An argument is never under way without being started, so nothing is lost or left over. */
  lemma {:induction false} CurIsStarted(s: Splitter, line: string)
    requires !s.started ==> s.cur == "" && s.quote.None?
    ensures !Feed(s, line).started ==> Feed(s, line).cur == "" && Feed(s, line).quote.None?
    decreases |line|
  {
    if line != "" { CurIsStarted(Next(s, line[0]), line[1..]); }
  }

  lemma {:induction false} FeedSpaces(s: Splitter, spaces: string)
    requires s.quote.None? && spaces != "" && forall c <- spaces :: IsSpace(c)
    ensures Feed(s, spaces) == Flushed(s)
    decreases |spaces|
  {
    assert IsSpace(spaces[0]) && !IsQuote(spaces[0]);
    if |spaces| > 1 {
      assert forall c <- spaces[1..] :: c in spaces;
      FeedSpaces(Flushed(s), spaces[1..]);
    }
  }

  predicate EndsOutsideQuote(a: string) {
    Feed(IDLE, a).quote.None?
  }

  /** Splitting distributes over whitespace outside quotes. */
  lemma ParseApart(a: string, spaces: string, b: string)
    requires EndsOutsideQuote(a) && spaces != "" && forall c <- spaces :: IsSpace(c)
    ensures Parse(a + spaces + b) == Parse(a) + Parse(b)
  {
    FeedPlus(IDLE, a + spaces, b);
    FeedPlus(IDLE, a, spaces);
    FeedSpaces(Feed(IDLE, a), spaces);
    CurIsStarted(IDLE, a);
    assert Parse(a) + [] == Parse(a);
    assert Flushed(Feed(IDLE, a)) == Behind(Parse(a), IDLE);
    FeedBehind(Parse(a), IDLE, b);
    var s := Feed(IDLE, b);
    assert Parse(a) + (s.args + [s.cur]) == (Parse(a) + s.args) + [s.cur];
  }

  /** Argument `k`, finished or under way, has more than `n` characters. */
  predicate LongerAt(s: Splitter, k: nat, n: nat) {
    k <= |s.args| && if k == |s.args| then s.started && |s.cur| > n else |s.args[k]| > n
  }

  lemma {:induction false} StaysLonger(s: Splitter, line: string, k: nat, n: nat)
    requires LongerAt(s, k, n)
    ensures LongerAt(Feed(s, line), k, n)
    decreases |line|
  {
    if line != "" { StaysLonger(Next(s, line[0]), line[1..], k, n); }
  }

  lemma {:induction false} QuotedSpacesAreKept(s: Splitter, spaces: string)
    requires s.quote.Some? && IsQuote(s.quote.value) && forall c <- spaces :: IsSpace(c)
    ensures Feed(s, spaces) == s.(cur := s.cur + spaces)
    decreases |spaces|
  {
    if spaces == "" {
      assert s.cur + spaces == s.cur;
    } else {
      assert IsSpace(spaces[0]) && forall c <- spaces[1..] :: c in spaces;
      QuotedSpacesAreKept(s.(cur := s.cur + [spaces[0]]), spaces[1..]);
      assert (s.cur + [spaces[0]]) + spaces[1..] == s.cur + spaces;
    }
  }

  lemma {:induction false} QuotesAreQuotes(s: Splitter, line: string)
    requires s.quote.Some? ==> IsQuote(s.quote.value)
    ensures Feed(s, line).quote.Some? ==> IsQuote(Feed(s, line).quote.value)
    decreases |line|
  {
    if line != "" { QuotesAreQuotes(Next(s, line[0]), line[1..]); }
  }

  /** Splitting distributes over whitespace exactly when the first part ends outside a quote. */
  lemma ParseApartIff(a: string, spaces: string, b: string)
    requires spaces != "" && forall c <- spaces :: IsSpace(c)
    ensures Parse(a + spaces + b) == Parse(a) + Parse(b) <==> EndsOutsideQuote(a)
  {
    if EndsOutsideQuote(a) {
      ParseApart(a, spaces, b);
    } else {
      var s := Feed(IDLE, a);
      CurIsStarted(IDLE, a);
      QuotesAreQuotes(IDLE, a);
      QuotedSpacesAreKept(s, spaces);
      FeedPlus(IDLE, a, spaces);
      FeedPlus(IDLE, a + spaces, b);
      StaysLonger(Feed(s, spaces), b, |s.args|, |s.cur|);
      assert (Parse(a) + Parse(b))[|s.args|] == s.cur;
    }
  }

  // ---- every argument list can be written ----

  /** Each character in a pair of quotes of the other kind. */
  function Quoted(arg: string): string {
    if arg == "" then "" else
    var q := if arg[0] == '"' then '\'' else '"';
    [q, arg[0], q] + Quoted(arg[1..])
  }

  /** An empty pair of quotes starts the argument, so empty ones count too. */
  function QuotedArg(arg: string): string {
    "\"\"" + Quoted(arg)
  }

  function Line(args: seq<string>): string {
    if args == [] then "" else QuotedArg(args[0]) + " " + Line(args[1..])
  }

  lemma FeedThree(s: Splitter, q: char, c: char)
    requires s.quote.None? && IsQuote(q) && c != q
    ensures Feed(s, [q, c, q]) == s.(cur := s.cur + [c], started := true)
  {
    assert [q, c, q][1..] == [c, q] && [c, q][1..] == [q] && [q][1..] == [];
    var s1 := s.(quote := Some(q), started := true);
    assert Feed(s, [q, c, q]) == Feed(s1, [c, q]) == Feed(s1.(cur := s.cur + [c]), [q]);
  }

  lemma {:induction false} FeedQuoted(s: Splitter, arg: string)
    requires s.quote.None? && s.started
    ensures Feed(s, Quoted(arg)) == s.(cur := s.cur + arg)
    decreases |arg|
  {
    if arg == "" {
      assert s.cur + arg == s.cur;
    } else {
      var q := if arg[0] == '"' then '\'' else '"';
      FeedPlus(s, [q, arg[0], q], Quoted(arg[1..]));
      FeedThree(s, q, arg[0]);
      FeedQuoted(s.(cur := s.cur + [arg[0]]), arg[1..]);
      assert (s.cur + [arg[0]]) + arg[1..] == s.cur + arg;
    }
  }

  lemma FeedQuotedArg(s: Splitter, arg: string)
    requires s.quote.None?
    ensures Feed(s, QuotedArg(arg)) == s.(cur := s.cur + arg, started := true)
  {
    FeedPlus(s, "\"\"", Quoted(arg));
    assert "\"\""[1..] == "\"";
    assert Feed(s, "\"\"") == Feed(s.(quote := Some('"'), started := true), "\"") == s.(started := true);
    FeedQuoted(s.(started := true), arg);
  }

  /** Every list of strings, empty ones and ones with both quotes included, is the parse of its line. */
  lemma {:induction false} EveryListHasALine(args: seq<string>)
    ensures Parse(Line(args)) == args
  {
    if args != [] {
      FeedQuotedArg(IDLE, args[0]);
      assert "" + args[0] == args[0];
      assert Parse(QuotedArg(args[0])) == [args[0]];
      ParseApart(QuotedArg(args[0]), " ", Line(args[1..]));
      EveryListHasALine(args[1..]);
      assert [args[0]] + args[1..] == args;
    }
  }

  // ---- what a line means ----

  /** Free of quotes and whitespace. */
  predicate Plain(w: string) {
    forall c <- w :: !IsQuote(c) && !IsSpace(c)
  }

  /** A piece of a word: bare characters, or any characters but its quote in a pair of quotes. */
  datatype Piece = Bare(text: string) | Enclosed(quote: char, text: string)

  predicate PieceOk(p: Piece) {
    if p.Bare? then p.text != "" && Plain(p.text) else IsQuote(p.quote) && p.quote !in p.text
  }

  function Spelled(p: Piece): string {
    if p.Bare? then p.text else [p.quote] + p.text + [p.quote]
  }

  /** One or more pieces with nothing between them. */
  type Word = seq<Piece>

  predicate WordOk(w: Word) {
    w != [] && forall p <- w :: PieceOk(p)
  }

  function SpelledWord(w: Word): string {
    if w == [] then "" else Spelled(w[0]) + SpelledWord(w[1..])
  }

  /** The argument a word stands for. */
  function Meaning(w: Word): string {
    if w == [] then "" else w[0].text + Meaning(w[1..])
  }

  lemma {:induction false} FeedPlain(s: Splitter, w: string)
    requires s.quote.None? && w != "" && Plain(w)
    ensures Feed(s, w) == s.(cur := s.cur + w, started := true)
    decreases |w|
  {
    var next := s.(cur := s.cur + [w[0]], started := true);
    assert Next(s, w[0]) == next;
    if |w| == 1 {
      assert w == [w[0]] && w[1..] == "";
    } else {
      assert forall c <- w[1..] :: c in w;
      FeedPlain(next, w[1..]);
      assert (s.cur + [w[0]]) + w[1..] == s.cur + w;
    }
  }

  lemma {:induction false} FeedInside(s: Splitter, q: char, text: string)
    requires s.quote == Some(q) && q !in text
    ensures Feed(s, text) == s.(cur := s.cur + text)
    decreases |text|
  {
    if text == "" {
      NilPlus(s.cur);
    } else {
      FeedInside(s.(cur := s.cur + [text[0]]), q, text[1..]);
      assert (s.cur + [text[0]]) + text[1..] == s.cur + text;
    }
  }

  lemma {:induction false} FeedEnclosed(s: Splitter, q: char, text: string)
    requires s.quote == Some(q) && q !in text
    ensures Feed(s, text + [q]) == s.(cur := s.cur + text, quote := None)
  {
    FeedPlus(s, text, [q]);
    FeedInside(s, q, text);
    assert [q][1..] == "";
  }

  lemma {:induction false} FeedPiece(s: Splitter, p: Piece)
    requires s.quote.None? && PieceOk(p)
    ensures Feed(s, Spelled(p)) == s.(cur := s.cur + p.text, started := true)
  {
    if p.Bare? {
      FeedPlain(s, p.text);
    } else {
      assert Spelled(p)[1..] == p.text + [p.quote];
      FeedEnclosed(s.(quote := Some(p.quote), started := true), p.quote, p.text);
    }
  }

  lemma {:induction false} FeedWord(s: Splitter, w: Word)
    requires s.quote.None? && forall p <- w :: PieceOk(p)
    ensures Feed(s, SpelledWord(w)) == s.(cur := s.cur + Meaning(w), started := s.started || w != [])
    decreases |w|
  {
    if w == [] {
      NilPlus(s.cur);
    } else {
      var p, rest := w[0], w[1..];
      FeedPlus(s, Spelled(p), SpelledWord(rest));
      FeedPiece(s, p);
      FeedWord(s.(cur := s.cur + p.text, started := true), rest);
      PlusPlus(s.cur, p.text, Meaning(rest));
    }
  }

  /** Adjacent pieces, bare or in quotes of either kind, make one argument. */
  lemma {:induction false} AWordIsOneArgument(w: Word)
    requires WordOk(w)
    ensures Parse(SpelledWord(w)) == [Meaning(w)] && EndsOutsideQuote(SpelledWord(w))
  {
    FeedWord(IDLE, w);
    assert "" + Meaning(w) == Meaning(w);
  }

  /** A quote left open takes the rest of the line, whitespace and other quotes included. */
  lemma {:induction false} AnOpenQuoteRunsOn(w: Word, q: char, text: string)
    requires (forall p <- w :: PieceOk(p)) && IsQuote(q) && q !in text
    ensures Parse(SpelledWord(w) + ([q] + text)) == [Meaning(w) + text]
    ensures !EndsOutsideQuote(SpelledWord(w) + ([q] + text))
  {
    FeedPlus(IDLE, SpelledWord(w), [q] + text);
    FeedWord(IDLE, w);
    assert "" + Meaning(w) == Meaning(w);
    assert ([q] + text)[1..] == text;
    FeedInside(Splitter([], Meaning(w), true, Some(q)), q, text);
  }

  /** Words with whitespace between them; `gaps[i]` follows word `i`. */
  function Spaced(words: seq<Word>, gaps: seq<string>): string
    requires |gaps| == |words|
  {
    if words == [] then "" else SpelledWord(words[0]) + gaps[0] + Spaced(words[1..], gaps[1..])
  }

  function Meanings(words: seq<Word>): seq<string> {
    seq(|words|, i requires 0 <= i < |words| => Meaning(words[i]))
  }

  predicate IsGap(spaces: string) {
    spaces != "" && forall c <- spaces :: IsSpace(c)
  }

  /** A line of words is split into exactly those words, each with its meaning. */
  lemma {:induction false} WordsAreArguments(words: seq<Word>, gaps: seq<string>)
    requires |gaps| == |words| && (forall w <- words :: WordOk(w)) && forall g <- gaps :: IsGap(g)
    ensures Parse(Spaced(words, gaps)) == Meanings(words)
    decreases |words|
  {
    if words != [] {
      AWordIsOneArgument(words[0]);
      assert IsGap(gaps[0]);
      ParseApart(SpelledWord(words[0]), gaps[0], Spaced(words[1..], gaps[1..]));
      assert (forall w <- words[1..] :: w in words) && forall g <- gaps[1..] :: g in gaps;
      WordsAreArguments(words[1..], gaps[1..]);
      assert Meanings(words) == [Meaning(words[0])] + Meanings(words[1..]);
    }
  }

  /** Whitespace around a line adds nothing, and neither does leaving out the last gap. */
  lemma {:induction false} MarginsAreIgnored(before: string, line: string, after: string)
    requires IsGap(before) && IsGap(after) && EndsOutsideQuote(line)
    ensures Parse(before + line) == Parse(line) && Parse(line + after) == Parse(line)
  {
    ParseApart("", before, line);
    assert "" + before + line == before + line && Parse("") + Parse(line) == Parse(line);
    ParseApart(line, after, "");
    assert line + after + "" == line + after && Parse(line) + Parse("") == Parse(line);
  }

  /** A bare word is itself, and a quoted part joins the bare ones beside it. */
  lemma {:induction false} PlainAndQuotedJoin(u: string, v: string, w: string)
    requires Plain(u) && Plain(w)
    ensures u != "" ==> Parse(u) == [u]
    ensures Parse(u + QuotedArg(v) + w) == [u + v + w]
  {
    if u != "" { FeedPlain(IDLE, u); }
    assert "" + u == u;
    var s := Feed(IDLE, u);
    FeedPlus(IDLE, u, QuotedArg(v));
    FeedQuotedArg(s, v);
    FeedPlus(IDLE, u + QuotedArg(v), w);
    if w != "" {
      FeedPlain(Feed(IDLE, u + QuotedArg(v)), w);
    } else {
      assert u + v + w == u + v;
    }
  }
}

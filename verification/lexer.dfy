/**
 * The tokenizer: after a pre-pass that blanks escaped delimiters, one left to
 * right scan cuts the text into newlines, quoted or backtick spans,
 * `::`-fenced spans and plain runs, and stamps each token with the 0-based
 * line on which it starts.
 */
module Lexer {
  import opened Text

  datatype TokenType = ColonColon | SingleQuote | DoubleQuote | Backtick | Newline | Other

  datatype Token = Token(tokenType: TokenType, text: string, lineNumber: nat)

  /**
   * The escape pre-pass: `{::}` becomes four spaces and each of the escaped
   * quote, double quote and backtick becomes one space.
   */
  function RemoveEscapedChars(text: string): (r: string)
    ensures Count('\n', r) == Count('\n', text)
    ensures |r| <= |text|
    ensures '\\' !in text && '{' !in text ==> r == text
  {
    EscapePassFacts(text);
    ReplaceAll(ReplaceAll(ReplaceAll(ReplaceAll(text, "{::}", "    "), "\\'", " "), "\\\"", " "), "\\`", " ")
  }

  lemma EscapePassFacts(text: string)
    ensures var r := ReplaceAll(ReplaceAll(ReplaceAll(ReplaceAll(text, "{::}", "    "), "\\'", " "), "\\\"", " "), "\\`", " ");
      && Count('\n', r) == Count('\n', text)
      && |r| <= |text|
      && ('\\' !in text && '{' !in text ==> r == text)
  {
    var a := ReplaceAll(text, "{::}", "    ");
    var b := ReplaceAll(a, "\\'", " ");
    var c := ReplaceAll(b, "\\\"", " ");
    ReplaceAllKeepsCount('\n', text, "{::}", "    ");
    ReplaceAllKeepsCount('\n', a, "\\'", " ");
    ReplaceAllKeepsCount('\n', b, "\\\"", " ");
    ReplaceAllKeepsCount('\n', c, "\\`", " ");
    ReplaceAllKeepsLength(text, "{::}", "    ");
    ReplaceAllShrinks(a, "\\'", " ");
    ReplaceAllShrinks(b, "\\\"", " ");
    ReplaceAllShrinks(c, "\\`", " ");
    if '\\' !in text && '{' !in text {
      ReplaceAllAbsent(text, "{::}", "    ");
      ReplaceAllAbsent(a, "\\'", " ");
      ReplaceAllAbsent(b, "\\\"", " ");
      ReplaceAllAbsent(c, "\\`", " ");
    }
  }

  /** The `{::}` escape keeps the length of the text, so columns do not move. */
  lemma FenceEscapeKeepsLength(text: string)
    ensures |ReplaceAll(text, "{::}", "    ")| == |text|
  {
    ReplaceAllKeepsLength(text, "{::}", "    ");
  }

  /**
   * The characters that end a plain run. The source also compares the single
   * character with the two-character string `::`, a test that never holds.
   */
  function IsSpecialChar(c: char): (b: bool)
    ensures b <==> c in "'\"`\n"
  {
    c == '\'' || c == '"' || c == '`' || [c] == "::" || c == '\n'
  }

  /** Concatenation of the texts of the tokens, in order. */
  function Concat(tokens: seq<Token>): string
  {
    if tokens == [] then []
    else Concat(tokens[..|tokens| - 1]) + tokens[|tokens| - 1].text
  }

  /**
   * A span opened by `q`: no `q` inside, closed by `q`, or (only at the end of
   * the input) left open.
   */
  predicate QuoteSpan(s: string, q: char, atEnd: bool)
  {
    && |s| >= 1 && s[0] == q
    && (forall m :: 1 <= m < |s| - 1 ==> s[m] != q)
    && ((|s| >= 2 && s[|s| - 1] == q) || (atEnd && (|s| == 1 || s[|s| - 1] != q)))
  }

  /**
   * A span opened by `::`: no `::` after the opener except as the closer, or
   * (only at the end of the input) no closer at all.
   */
  predicate FencedSpan(s: string, atEnd: bool)
  {
    && StartsWith(s, "::")
    && (forall m :: 2 <= m < |s| - 2 ==> !OccursAt(s, "::", m))
    && ((|s| >= 4 && OccursAt(s, "::", |s| - 2)) || (atEnd && (|s| < 4 || !OccursAt(s, "::", |s| - 2))))
  }

  /** A plain run: no quote, backtick or newline, and it does not open a fence. */
  predicate PlainRun(s: string)
  {
    |s| >= 1 && (forall m :: 0 <= m < |s| ==> !IsSpecialChar(s[m])) && !StartsWith(s, "::")
  }

  /** What a token of each type looks like; `atEnd` allows an unterminated span. */
  predicate TokenShape(t: Token, atEnd: bool)
  {
    match t.tokenType
    case Newline => t.text == "\n"
    case ColonColon => FencedSpan(t.text, atEnd)
    case SingleQuote => QuoteSpan(t.text, '\'', atEnd)
    case DoubleQuote => QuoteSpan(t.text, '"', atEnd)
    case Backtick => QuoteSpan(t.text, '`', atEnd)
    case Other => PlainRun(t.text)
  }

  /** Every token's line is the number of newlines in the text before it. */
  predicate LinesCounted(tokens: seq<Token>)
  {
    forall k :: 0 <= k < |tokens| ==> tokens[k].lineNumber == Count('\n', Concat(tokens[..k]))
  }

  /** A plain run stops only where a quote, backtick or newline follows. */
  predicate PlainRunsMaximal(tokens: seq<Token>)
  {
    forall k :: 0 <= k < |tokens| - 1 && tokens[k].tokenType == Other ==>
      tokens[k + 1].text != [] && IsSpecialChar(tokens[k + 1].text[0])
  }

  /** Reading one more character adds one line exactly when it is a newline. */
  lemma CountSnoc(text: string, i: nat)
    requires i < |text|
    ensures Count('\n', text[..i + 1]) == Count('\n', text[..i]) + (if text[i] == '\n' then 1 else 0)
  {
    assert text[..i + 1][..i] == text[..i];
  }

  /** Two colons at `i`. */
  predicate ColonPair(text: string, i: nat)
  {
    i + 1 < |text| && text[i] == ':' && text[i + 1] == ':'
  }

  /** A fence opener at `i` is two colons there. */
  lemma ColonsAt(text: string, i: nat)
    ensures OccursAt(text, "::", i) <==> ColonPair(text, i)
  {
    if ColonPair(text, i) {
      assert text[i..i + 2] == "::";
    }
  }

  method ScanQuoted(text: string, start: nat, q: char, line: nat) returns (end: nat, line': nat)
    requires start < |text| && text[start] == q && q != '\n'
    requires line == Count('\n', text[..start + 1])
    ensures start < end <= |text|
    ensures QuoteSpan(text[start..end], q, end == |text|)
    ensures line' == Count('\n', text[..end])
  {
    var i := start + 1;
    line' := line;
    while i < |text| && text[i] != q
      invariant start + 1 <= i <= |text|
      invariant forall m :: start < m < i ==> text[m] != q
      invariant line' == Count('\n', text[..i])
    {
      CountSnoc(text, i);
      if text[i] == '\n' {
        line' := line' + 1;
      }
      i := i + 1;
    }
    ghost var stop := i;
    if i < |text| && text[i] == q {
      CountSnoc(text, i);
      i := i + 1;
    }
    end := i;
    QuoteSlice(text, start, stop, end, q);
  }

  lemma QuoteSlice(text: string, start: nat, stop: nat, end: nat, q: char)
    requires start < stop <= end <= |text| && text[start] == q
    requires forall m :: start < m < stop ==> text[m] != q
    requires (end == stop + 1 && text[stop] == q) || (end == stop == |text|)
    ensures QuoteSpan(text[start..end], q, end == |text|)
  {
    var s := text[start..end];
    assert s[0] == text[start];
    forall m | 1 <= m < |s| - 1 ensures s[m] != q {
      assert s[m] == text[start + m];
    }
    assert s[|s| - 1] == text[end - 1];
  }

  method ScanFenced(text: string, start: nat, line: nat) returns (end: nat, line': nat)
    requires start + 1 < |text| && text[start..start + 2] == "::"
    requires line == Count('\n', text[..start + 2])
    ensures start + 2 <= end <= |text|
    ensures FencedSpan(text[start..end], end == |text|)
    ensures line' == Count('\n', text[..end])
  {
    var i := start + 2;
    line' := line;
    while i < |text| && !(i + 1 < |text| && text[i] == ':' && text[i + 1] == ':')
      invariant start + 2 <= i <= |text|
      invariant forall m :: start + 2 <= m < i ==> !ColonPair(text, m)
      invariant line' == Count('\n', text[..i])
    {
      CountSnoc(text, i);
      if text[i] == '\n' {
        line' := line' + 1;
      }
      i := i + 1;
    }
    ghost var stop := i;
    if i + 1 < |text| && text[i] == ':' && text[i + 1] == ':' {
      CountSnoc(text, i);
      CountSnoc(text, i + 1);
      i := i + 2;
    }
    end := i;
    FencedSlice(text, start, stop, end);
  }

  lemma FencedSlice(text: string, start: nat, stop: nat, end: nat)
    requires start + 2 <= stop <= end <= |text| && text[start..start + 2] == "::"
    requires forall m :: start + 2 <= m < stop ==> !ColonPair(text, m)
    requires (end == stop + 2 && ColonPair(text, stop)) || (end == stop == |text|)
    ensures FencedSpan(text[start..end], end == |text|)
  {
    var t := text[start..end];
    assert t[..2] == text[start..start + 2];
    forall m | 2 <= m < |t| - 2 ensures !OccursAt(t, "::", m) {
      assert start + m < stop;
      ColonsAt(text, start + m);
      OccursAtSlice(text, "::", start, end, m);
    }
    if end == stop + 2 {
      ColonsAt(text, stop);
    }
    OccursAtSlice(text, "::", start, end, |t| - 2);
  }

  method ScanPlain(text: string, start: nat) returns (end: nat)
    requires start < |text| && !IsSpecialChar(text[start])
    requires !(start + 1 < |text| && text[start] == ':' && text[start + 1] == ':')
    ensures start < end <= |text|
    ensures PlainRun(text[start..end])
    ensures forall m :: start <= m < end ==> text[m] != '\n'
    ensures end == |text| || IsSpecialChar(text[end])
  {
    var i := start + 1;
    while i < |text| && !IsSpecialChar(text[i])
      invariant start + 1 <= i <= |text|
      invariant forall m :: start <= m < i ==> !IsSpecialChar(text[m])
    {
      i := i + 1;
    }
    end := i;
  }

  /** Concatenating one more token appends its text. */
  lemma ConcatSnoc(tokens: seq<Token>, t: Token)
    ensures Concat(tokens + [t]) == Concat(tokens) + t.text
  {
    assert (tokens + [t])[..|tokens|] == tokens;
  }

  /** What the scan guarantees about the tokens cut from `text[..i]`. */
  predicate Scanned(text: string, i: nat, tokens: seq<Token>)
  {
    && i <= |text|
    && Concat(tokens) == text[..i]
    && (forall k :: 0 <= k < |tokens| ==> tokens[k].text != [])
    && (forall k :: 0 <= k < |tokens| - 1 ==> TokenShape(tokens[k], false))
    && (|tokens| > 0 ==> TokenShape(tokens[|tokens| - 1], i == |text|))
    && LinesCounted(tokens)
    && PlainRunsMaximal(tokens)
    && (|tokens| > 0 && tokens[|tokens| - 1].tokenType == Other && i < |text| ==> IsSpecialChar(text[i]))
  }

  /** One more token cut from `text[start..i]` keeps the scan's guarantees. */
  lemma ScannedStep(text: string, start: nat, i: nat, tokens: seq<Token>, t: Token)
    requires Scanned(text, start, tokens) && start < i <= |text|
    requires t.text == text[start..i] && t.lineNumber == Count('\n', text[..start])
    requires TokenShape(t, i == |text|)
    requires t.tokenType == Other && i < |text| ==> IsSpecialChar(text[i])
    ensures Scanned(text, i, tokens + [t])
  {
    ConcatSnoc(tokens, t);
    assert text[..i] == text[..start] + text[start..i];
    NonEmptySnoc(tokens, t);
    ShapesSnoc(tokens, t, i == |text|);
    LinesCountedSnoc(tokens, t);
    assert t.text[0] == text[start];
    MaximalSnoc(tokens, t);
  }

  lemma NonEmptySnoc(tokens: seq<Token>, t: Token)
    requires forall k :: 0 <= k < |tokens| ==> tokens[k].text != []
    requires t.text != []
    ensures forall k :: 0 <= k < |tokens + [t]| ==> (tokens + [t])[k].text != []
  {
  }

  /** Only the last token may be an unterminated span. */
  lemma ShapesSnoc(tokens: seq<Token>, t: Token, atEnd: bool)
    requires forall k :: 0 <= k < |tokens| - 1 ==> TokenShape(tokens[k], false)
    requires |tokens| > 0 ==> TokenShape(tokens[|tokens| - 1], false)
    requires TokenShape(t, atEnd)
    ensures forall k :: 0 <= k < |tokens + [t]| - 1 ==> TokenShape((tokens + [t])[k], false)
    ensures TokenShape((tokens + [t])[|tokens|], atEnd)
  {
    var ts := tokens + [t];
    forall k | 0 <= k < |ts| - 1 ensures TokenShape(ts[k], false) {
      assert ts[k] == tokens[k];
    }
  }

  lemma LinesCountedSnoc(tokens: seq<Token>, t: Token)
    requires LinesCounted(tokens) && t.lineNumber == Count('\n', Concat(tokens))
    ensures LinesCounted(tokens + [t])
  {
    var ts := tokens + [t];
    assert ts[..|tokens|] == tokens;
    assert forall k :: 0 <= k < |tokens| ==> ts[..k] == tokens[..k];
  }

  lemma MaximalSnoc(tokens: seq<Token>, t: Token)
    requires PlainRunsMaximal(tokens)
    requires |tokens| > 0 && tokens[|tokens| - 1].tokenType == Other ==> t.text != [] && IsSpecialChar(t.text[0])
    ensures PlainRunsMaximal(tokens + [t])
  {
  }

  /**
   * One pass of the scanning loop: the token that starts at `start`, where
   * the scan ends, and the line counter after it.
   */
  method NextToken(text: string, start: nat, line: nat) returns (t: Token, end: nat, line': nat)
    requires start < |text| && line == Count('\n', text[..start])
    ensures start < end <= |text|
    ensures t.text == text[start..end] && t.lineNumber == line
    ensures TokenShape(t, end == |text|)
    ensures t.tokenType == Other && end < |text| ==> IsSpecialChar(text[end])
    ensures line' == Count('\n', text[..end])
  {
    var c := text[start];
    if c == '\n' {
      CountSnoc(text, start);
      line' := line + 1;
      t := Token(Newline, "\n", line);
      end := start + 1;
      assert text[start..end] == "\n";
    } else if start + 1 < |text| && c == ':' && text[start + 1] == ':' {
      t, end, line' := FencedToken(text, start, line);
    } else if c == '\'' || c == '"' || c == '`' {
      t, end, line' := QuotedToken(text, start, line);
    } else {
      t, end, line' := PlainToken(text, start, line);
    }
  }

  /** The branch of the scanning loop that reads a `::`-fenced span. */
  method FencedToken(text: string, start: nat, line: nat) returns (t: Token, end: nat, line': nat)
    requires start + 1 < |text| && text[start] == ':' && text[start + 1] == ':'
    requires line == Count('\n', text[..start])
    ensures start < end <= |text|
    ensures t.text == text[start..end] && t.lineNumber == line && t.tokenType == ColonColon
    ensures TokenShape(t, end == |text|)
    ensures line' == Count('\n', text[..end])
  {
    CountSnoc(text, start);
    CountSnoc(text, start + 1);
    assert text[start..start + 2] == "::";
    end, line' := ScanFenced(text, start, line);
    t := Token(ColonColon, text[start..end], line);
  }

  /** The branch of the scanning loop that reads a quoted or backtick span. */
  method QuotedToken(text: string, start: nat, line: nat) returns (t: Token, end: nat, line': nat)
    requires start < |text| && (text[start] == '\'' || text[start] == '"' || text[start] == '`')
    requires line == Count('\n', text[..start])
    ensures start < end <= |text|
    ensures t.text == text[start..end] && t.lineNumber == line && t.tokenType != Other
    ensures TokenShape(t, end == |text|)
    ensures line' == Count('\n', text[..end])
  {
    var c := text[start];
    CountSnoc(text, start);
    end, line' := ScanQuoted(text, start, c, line);
    var kind := if c == '\'' then SingleQuote else if c == '"' then DoubleQuote else Backtick;
    t := Token(kind, text[start..end], line);
    QuotedShape(t, c, end == |text|);
  }

  /** The branch of the scanning loop that reads a plain run. */
  method PlainToken(text: string, start: nat, line: nat) returns (t: Token, end: nat, line': nat)
    requires start < |text| && !IsSpecialChar(text[start])
    requires !(start + 1 < |text| && text[start] == ':' && text[start + 1] == ':')
    requires line == Count('\n', text[..start])
    ensures start < end <= |text|
    ensures t.text == text[start..end] && t.lineNumber == line
    ensures TokenShape(t, end == |text|)
    ensures end < |text| ==> IsSpecialChar(text[end])
    ensures line' == Count('\n', text[..end])
  {
    end := ScanPlain(text, start);
    line' := line;
    PlainKeepsCount(text, start, end);
    t := Token(Other, text[start..end], line);
  }

  /** A quoted span gets the token type of its opening character. */
  lemma QuotedShape(t: Token, q: char, atEnd: bool)
    requires q == '\'' || q == '"' || q == '`'
    requires t.tokenType == if q == '\'' then SingleQuote else if q == '"' then DoubleQuote else Backtick
    requires QuoteSpan(t.text, q, atEnd)
    ensures TokenShape(t, atEnd)
  {
  }

  lemma PlainKeepsCount(text: string, start: nat, end: nat)
    requires start <= end <= |text|
    requires forall m :: start <= m < end ==> text[m] != '\n'
    ensures Count('\n', text[..end]) == Count('\n', text[..start])
  {
    assert text[..end] == text[..start] + text[start..end];
    CountConcat('\n', text[..start], text[start..end]);
  }

  /**
   * The editor's `tokenize`. The texts of the tokens put together give the
   * escape-stripped input, no token is empty, every token has the shape its
   * type promises, and every token's line is the number of newlines before it.
   */
  method Tokenize(rawText: string) returns (tokens: seq<Token>)
    ensures Concat(tokens) == RemoveEscapedChars(rawText)
    ensures forall k :: 0 <= k < |tokens| ==> tokens[k].text != []
    ensures forall k :: 0 <= k < |tokens| ==> TokenShape(tokens[k], k == |tokens| - 1)
    ensures LinesCounted(tokens)
    ensures PlainRunsMaximal(tokens)
  {
    var text := RemoveEscapedChars(rawText);
    tokens := [];
    var i := 0;
    var lineNumber := 0;
    while i < |text|
      invariant Scanned(text, i, tokens)
      invariant lineNumber == Count('\n', text[..i])
    {
      var t, end, line' := NextToken(text, i, lineNumber);
      ScannedStep(text, i, end, tokens, t);
      tokens := tokens + [t];
      i, lineNumber := end, line';
    }
    ScannedDone(text, tokens);
  }

  /** At the end of the text the scan's guarantees are the tokenizer's promises. */
  lemma ScannedDone(text: string, tokens: seq<Token>)
    requires Scanned(text, |text|, tokens)
    ensures Concat(tokens) == text
    ensures forall k :: 0 <= k < |tokens| ==> tokens[k].text != []
    ensures forall k :: 0 <= k < |tokens| ==> TokenShape(tokens[k], k == |tokens| - 1)
    ensures LinesCounted(tokens)
    ensures PlainRunsMaximal(tokens)
  {
    assert text[..|text|] == text;
  }

  /** The text of the tokens splits at any token boundary. */
  lemma {:induction false} ConcatSplit(tokens: seq<Token>, a: nat)
    requires a <= |tokens|
    ensures Concat(tokens) == Concat(tokens[..a]) + Concat(tokens[a..])
    decreases |tokens|
  {
    if a < |tokens| {
      var n := |tokens| - 1;
      var front := tokens[..n];
      ConcatSplit(front, a);
      assert front[..a] == tokens[..a];
      var tail := tokens[a..];
      assert tail[..|tail| - 1] == front[a..];
      assert Concat(tail) == Concat(front[a..]) + tokens[n].text;
      assert Concat(tokens) == Concat(front) + tokens[n].text;
    } else {
      assert tokens[..a] == tokens;
    }
  }

  predicate LinesNondecreasing(tokens: seq<Token>)
  {
    forall a, b :: 0 <= a < b < |tokens| ==> tokens[a].lineNumber <= tokens[b].lineNumber
  }

  /** Counted line numbers never decrease along the token sequence. */
  lemma CountedLinesNondecrease(tokens: seq<Token>)
    requires LinesCounted(tokens)
    ensures LinesNondecreasing(tokens)
  {
    forall a, b | 0 <= a < b < |tokens| ensures tokens[a].lineNumber <= tokens[b].lineNumber {
      ConcatSplit(tokens[..b], a);
      assert tokens[..b][..a] == tokens[..a];
      CountConcat('\n', Concat(tokens[..a]), Concat(tokens[..b][a..]));
    }
  }

  /** The token after a newline token starts on the next line. */
  lemma NewlineAdvancesLine(tokens: seq<Token>, k: nat)
    requires LinesCounted(tokens) && k + 1 < |tokens|
    requires tokens[k].tokenType == Newline && TokenShape(tokens[k], false)
    ensures tokens[k + 1].lineNumber == tokens[k].lineNumber + 1
  {
    assert tokens[..k + 1][..k] == tokens[..k];
  }

  // ---------------------------------------------------------------------
  // The tokens are fixed by the text.

  /** The facts `Tokenize` establishes about its tokens, line numbers aside. */
  ghost predicate Cuts(text: string, tokens: seq<Token>)
  {
    && Concat(tokens) == text
    && (forall k :: 0 <= k < |tokens| ==> tokens[k].text != [])
    && (forall k :: 0 <= k < |tokens| ==> TokenShape(tokens[k], k == |tokens| - 1))
    && PlainRunsMaximal(tokens)
  }

  /** Everything `Tokenize` establishes about the tokens of `text`. */
  ghost predicate Tokenization(text: string, tokens: seq<Token>)
  {
    Cuts(text, tokens) && LinesCounted(tokens)
  }

  /** The branch of the scan that the first characters of `text` select. */
  function Opener(text: string): TokenType
    requires text != []
  {
    if text[0] == '\n' then Newline
    else if |text| >= 2 && text[0] == ':' && text[1] == ':' then ColonColon
    else if text[0] == '\'' then SingleQuote
    else if text[0] == '"' then DoubleQuote
    else if text[0] == '`' then Backtick
    else Other
  }

  /** The position of the first special character of `s`, or its length. */
  function SpecialIndex(s: string): (k: nat)
    ensures k <= |s|
    ensures forall m :: 0 <= m < k ==> !IsSpecialChar(s[m])
    ensures k == |s| || IsSpecialChar(s[k])
  {
    if s == [] || IsSpecialChar(s[0]) then 0
    else
      var k := SpecialIndex(s[1..]);
      assert forall m :: 1 <= m < k + 1 ==> s[m] == s[1..][m - 1];
      k + 1
  }

  /** The length of the token the scan cuts at the start of `text`. */
  function FirstLen(text: string): nat
    requires text != []
  {
    match Opener(text)
    case Newline => 1
    case ColonColon =>
      var k := IndexOf(text[2..], "::");
      if k == -1 then |text| else k + 4
    case Other => SpecialIndex(text)
    case _ =>
      if text[0] in text[1..] then FirstIndex(text[1..], text[0]) + 2 else |text|
  }

  /** A quoted span at the start of `text` runs to the first closing quote, or to the end. */
  lemma QuoteFixed(text: string, n: nat, q: char)
    requires 0 < n <= |text| && QuoteSpan(text[..n], q, n == |text|)
    ensures text[0] == q
    ensures n == if q in text[1..] then FirstIndex(text[1..], q) + 2 else |text|
  {
    var s, rest := text[..n], text[1..];
    assert text[0] == s[0];
    assert forall m :: 1 <= m < n - 1 ==> text[m] == s[m];
    if n >= 2 && s[n - 1] == q {
      assert rest[n - 2] == q;
      var f := FirstIndex(rest, q);
      assert forall j :: 0 <= j < n - 2 ==> rest[j] == s[j + 1];
      assert forall j :: 0 <= j < f ==> rest[..f][j] == rest[j];
    } else {
      assert n == |text|;
      forall m | 0 <= m < |rest| ensures rest[m] != q {
        assert rest[m] == s[m + 1];
      }
    }
  }

  /** `::` found first at `n - 2` past the opening `::`: `IndexOf` on the rest finds it. */
  lemma FencedClosed(text: string, n: nat)
    requires 4 <= n <= |text| && OccursAt(text, "::", n - 2)
    requires forall m :: 2 <= m < n - 2 ==> !OccursAt(text, "::", m)
    ensures IndexOf(text[2..], "::") == n - 4
  {
    var r := text[2..];
    assert text[2..|text|] == r;
    IndexOfFirst(r, "::");
    forall m | 0 <= m <= |r| - 2 ensures OccursAt(r, "::", m) <==> OccursAt(text, "::", m + 2) {
      OccursAtSlice(text, "::", 2, |text|, m);
    }
    assert OccursAt(r, "::", n - 4);
  }

  /** No `::` past the opening `::`: `IndexOf` on the rest finds none. */
  lemma FencedOpen(text: string)
    requires |text| >= 2
    requires forall m :: 2 <= m <= |text| - 2 ==> !OccursAt(text, "::", m)
    ensures IndexOf(text[2..], "::") == -1
  {
    var r := text[2..];
    assert text[2..|text|] == r;
    IndexOfFirst(r, "::");
    forall m | 0 <= m <= |r| - 2 ensures !OccursAt(r, "::", m) {
      OccursAtSlice(text, "::", 2, |text|, m);
    }
  }

  /** A fenced span at the start of `text` runs to just past the next `::`, or to the end. */
  lemma FencedFixed(text: string, n: nat)
    requires 0 < n <= |text| && FencedSpan(text[..n], n == |text|)
    ensures |text| >= 2 && text[0] == ':' && text[1] == ':'
    ensures n == var k := IndexOf(text[2..], "::"); if k == -1 then |text| else k + 4
  {
    var s := text[..n];
    assert s[..2] == text[..2];
    assert text[0] == text[..2][0] && text[1] == text[..2][1];
    assert text[0..n] == s;
    forall m | 0 <= m && m + 2 <= n ensures OccursAt(s, "::", m) <==> OccursAt(text, "::", m) {
      OccursAtSlice(text, "::", 0, n, m);
    }
    if n >= 4 && OccursAt(s, "::", n - 2) {
      FencedClosed(text, n);
    } else {
      FencedOpen(text);
    }
  }

  /** A plain run at the start of `text` that stops at a special character or the end is the first run. */
  lemma PlainFixed(text: string, n: nat)
    requires 0 < n <= |text| && PlainRun(text[..n])
    requires n < |text| ==> IsSpecialChar(text[n])
    ensures Opener(text) == Other && n == SpecialIndex(text)
  {
    var s := text[..n];
    assert forall m :: 0 <= m < n ==> text[m] == s[m];
    if n >= 2 {
      assert s[..2] == text[..2];
    }
    var k := SpecialIndex(text);
    assert forall m :: 0 <= m < n ==> !IsSpecialChar(text[m]);
  }

  /** A well-shaped token at the start of `text` is the one the scan cuts there. */
  lemma FirstFixed(text: string, t: Token, n: nat)
    requires 0 < n <= |text| && t.text == text[..n]
    requires TokenShape(t, n == |text|)
    requires t.tokenType == Other && n < |text| ==> IsSpecialChar(text[n])
    ensures t.tokenType == Opener(text) && n == FirstLen(text)
  {
    match t.tokenType
    case Newline =>
      assert text[0] == t.text[0];
    case ColonColon =>
      FencedFixed(text, n);
    case Other =>
      PlainFixed(text, n);
    case SingleQuote =>
      QuoteFixed(text, n, '\'');
    case DoubleQuote =>
      QuoteFixed(text, n, '"');
    case Backtick =>
      QuoteFixed(text, n, '`');
  }

  /** The text of a non-empty token list starts with its first token. */
  lemma ConcatCons(tokens: seq<Token>)
    requires tokens != []
    ensures Concat(tokens) == tokens[0].text + Concat(tokens[1..])
  {
    ConcatSplit(tokens, 1);
    var one := tokens[..1];
    assert one[..0] == [];
    assert Concat(one) == Concat(one[..0]) + one[0].text;
  }

  /** The cuts of a non-empty text: the scan's first token, then cuts of the rest. */
  lemma FirstToken(text: string, tokens: seq<Token>)
    requires Cuts(text, tokens) && tokens != []
    ensures text != [] && 0 < FirstLen(text) <= |text|
    ensures tokens[0].text == text[..FirstLen(text)] && tokens[0].tokenType == Opener(text)
    ensures Cuts(text[FirstLen(text)..], tokens[1..])
  {
    var t, rest := tokens[0], tokens[1..];
    var n := |t.text|;
    ConcatCons(tokens);
    assert t.text == text[..n] && Concat(rest) == text[n..];
    if rest != [] {
      ConcatCons(rest);
      assert rest[0] == tokens[1];
      assert text[n] == tokens[1].text[0];
    }
    assert TokenShape(t, 0 == |tokens| - 1);
    FirstFixed(text, t, n);
    forall k | 0 <= k < |rest|
      ensures rest[k].text != [] && TokenShape(rest[k], k == |rest| - 1)
    {
      assert rest[k] == tokens[k + 1];
    }
    forall k | 0 <= k < |rest| - 1 && rest[k].tokenType == Other
      ensures rest[k + 1].text != [] && IsSpecialChar(rest[k + 1].text[0])
    {
      assert rest[k] == tokens[k + 1] && rest[k + 1] == tokens[k + 2];
    }
  }

  /** Two cuttings of the same text agree token by token, line numbers aside. */
  lemma {:induction false} CutsAgree(text: string, a: seq<Token>, b: seq<Token>)
    requires Cuts(text, a) && Cuts(text, b)
    ensures |a| == |b|
    ensures forall k :: 0 <= k < |a| ==> a[k].text == b[k].text && a[k].tokenType == b[k].tokenType
    decreases |text|
  {
    if a == [] || b == [] {
      if a != [] {
        FirstToken(text, a);
      } else if b != [] {
        FirstToken(text, b);
      }
    } else {
      FirstToken(text, a);
      FirstToken(text, b);
      var n := FirstLen(text);
      CutsAgree(text[n..], a[1..], b[1..]);
      forall k | 1 <= k < |a|
        ensures a[k].text == b[k].text && a[k].tokenType == b[k].tokenType
      {
        assert a[k] == a[1..][k - 1] && b[k] == b[1..][k - 1];
      }
    }
  }

  /** Token lists with the same texts have the same text up to any index. */
  lemma {:induction false} ConcatPrefixAgree(a: seq<Token>, b: seq<Token>, k: nat)
    requires |a| == |b| && k <= |a|
    requires forall m :: 0 <= m < |a| ==> a[m].text == b[m].text
    ensures Concat(a[..k]) == Concat(b[..k])
  {
    if k > 0 {
      ConcatPrefixAgree(a, b, k - 1);
      assert a[..k][..k - 1] == a[..k - 1] && b[..k][..k - 1] == b[..k - 1];
    }
  }

  /** The tokenizer's promises fix the token list: two lists that keep them all are equal. */
  lemma TokenizationUnique(text: string, a: seq<Token>, b: seq<Token>)
    requires Tokenization(text, a) && Tokenization(text, b)
    ensures a == b
  {
    CutsAgree(text, a, b);
    forall k | 0 <= k < |a| ensures a[k] == b[k] {
      ConcatPrefixAgree(a, b, k);
    }
  }
}

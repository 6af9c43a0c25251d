/**
 * The validator: the plain-run tokens of a document are merged into one
 * `Line` per source line, the lines are grouped by indentation, and each
 * group's section names are aligned against the grammar template filed under
 * the group's first name, producing `Expected '…'` and `Unexpected section '…'`
 * markers.
 */
module Analyzer {
  import opened Text
  import opened Lexer
  import LineInfo
  import Grouper
  import Syntax

  datatype Diagnostic = Diagnostic(startLineNumber: int, startColumn: int, endLineNumber: int, endColumn: int, message: string)

  datatype Line = Line(lineNumber: nat, content: string, indent: nat, name: string, hasDot: bool)

  datatype Group = Group(lines: seq<Line>)

  // ---------------------------------------------------------------------
  // Lines.

  /** The `Other` tokens, in order (`tokens.filter(...)`). */
  function PlainTokens(tokens: seq<Token>): (ps: seq<Token>)
    ensures |ps| <= |tokens|
    ensures forall k :: 0 <= k < |ps| ==> ps[k].tokenType == Other && ps[k] in tokens
    ensures forall k :: 0 <= k < |tokens| && tokens[k].tokenType == Other ==> tokens[k] in ps
  {
    if tokens == [] then []
    else
      var ps := PlainTokens(tokens[..|tokens| - 1]);
      var t := tokens[|tokens| - 1];
      assert forall x :: x in tokens[..|tokens| - 1] ==> x in tokens;
      assert forall k :: 0 <= k < |tokens| - 1 ==> tokens[k] == tokens[..|tokens| - 1][k];
      ps + (if t.tokenType == Other then [t] else [])
  }

  /** Filtering keeps every `Other` token as often as it occurs, and nothing else. */
  lemma {:induction false} PlainTokensCount(tokens: seq<Token>)
    ensures forall t: Token :: t.tokenType == Other ==> multiset(PlainTokens(tokens))[t] == multiset(tokens)[t]
    ensures forall t: Token :: t.tokenType != Other ==> multiset(PlainTokens(tokens))[t] == 0
  {
    if tokens != [] {
      var front := tokens[..|tokens| - 1];
      var t := tokens[|tokens| - 1];
      PlainTokensCount(front);
      assert tokens == front + [t];
      assert PlainTokens(tokens) == PlainTokens(front) + (if t.tokenType == Other then [t] else []);
    }
  }

  /** Filtering keeps the tokens' order, so it keeps their line numbers non-decreasing. */
  lemma {:induction false} PlainTokensNondecreasing(tokens: seq<Token>)
    requires LinesNondecreasing(tokens)
    ensures LinesNondecreasing(PlainTokens(tokens))
  {
    if tokens != [] {
      var front := tokens[..|tokens| - 1];
      assert LinesNondecreasing(front);
      PlainTokensNondecreasing(front);
      var ps := PlainTokens(front);
      forall a | 0 <= a < |ps| ensures ps[a].lineNumber <= tokens[|tokens| - 1].lineNumber {
        var k :| 0 <= k < |front| && front[k] == ps[a];
        assert front[k] == tokens[k];
      }
    }
  }

  /** Length of the leading run of tokens on line `line`. */
  function RunLen(ts: seq<Token>, line: nat): (n: nat)
    ensures n <= |ts|
    ensures forall k :: 0 <= k < n ==> ts[k].lineNumber == line
    ensures n == |ts| || ts[n].lineNumber != line
  {
    if ts == [] || ts[0].lineNumber != line then 0 else 1 + RunLen(ts[1..], line)
  }

  /** The record built for one line's text by the leading-run rule. */
  function LineOf(lineNumber: nat, content: string): Line
  {
    var info := LineInfo.Summary(content);
    Line(lineNumber, content, info.indent, info.name, info.hasDot)
  }

  /** What `toLines` builds from the plain tokens: one line per maximal same-line run. */
  function LinesFrom(ts: seq<Token>): seq<Line>
    decreases |ts|
  {
    if ts == [] then []
    else
      var n := RunLen(ts, ts[0].lineNumber);
      [LineOf(ts[0].lineNumber, Concat(ts[..n]))] + LinesFrom(ts[n..])
  }

  /** The contents of the lines, one after another. */
  function Contents(lines: seq<Line>): string
  {
    if lines == [] then [] else lines[0].content + Contents(lines[1..])
  }

  /** Merging runs loses no text: the lines hold exactly the plain tokens' text. */
  lemma {:induction false} LinesConserve(ts: seq<Token>)
    ensures Contents(LinesFrom(ts)) == Concat(ts)
    decreases |ts|
  {
    if ts != [] {
      var n := RunLen(ts, ts[0].lineNumber);
      LinesConserve(ts[n..]);
      ConcatSplit(ts, n);
    }
  }

  /** The first line and the rest, as `LinesFrom` peels them off. */
  lemma LinesFromCons(ts: seq<Token>)
    requires ts != []
    ensures RunLen(ts, ts[0].lineNumber) >= 1
    ensures |LinesFrom(ts)| == 1 + |LinesFrom(ts[RunLen(ts, ts[0].lineNumber)..])|
    ensures LinesFrom(ts)[0].lineNumber == ts[0].lineNumber
    ensures forall m :: 1 <= m < |LinesFrom(ts)| ==> LinesFrom(ts)[m] == LinesFrom(ts[RunLen(ts, ts[0].lineNumber)..])[m - 1]
  {
    var n := RunLen(ts, ts[0].lineNumber);
    var first := LineOf(ts[0].lineNumber, Concat(ts[..n]));
    assert LinesFrom(ts) == [first] + LinesFrom(ts[n..]);
  }

  /** Every line's number is the number of some token. */
  lemma {:induction false} LinesFromTokens(ts: seq<Token>)
    ensures forall m :: 0 <= m < |LinesFrom(ts)| ==> exists k :: 0 <= k < |ts| && ts[k].lineNumber == LinesFrom(ts)[m].lineNumber
    decreases |ts|
  {
    if ts != [] {
      var n := RunLen(ts, ts[0].lineNumber);
      var rest := ts[n..];
      LinesFromCons(ts);
      LinesFromTokens(rest);
      var ls, ls' := LinesFrom(ts), LinesFrom(rest);
      forall m | 0 <= m < |ls|
        ensures exists k :: 0 <= k < |ts| && ts[k].lineNumber == ls[m].lineNumber
      {
        if m > 0 {
          var k :| 0 <= k < |rest| && rest[k].lineNumber == ls'[m - 1].lineNumber;
          assert ts[n + k] == rest[k];
        } else {
          assert ts[0].lineNumber == ls[m].lineNumber;
        }
      }
    } else {
      assert LinesFrom(ts) == [];
    }
  }

  /** Some line has number `n`. */
  ghost predicate HasLine(ls: seq<Line>, n: nat)
  {
    exists m :: 0 <= m < |ls| && ls[m].lineNumber == n
  }

  /** The line of token `k` is among the lines. */
  lemma {:induction false} TokenHasLine(ts: seq<Token>, k: nat)
    requires k < |ts|
    ensures HasLine(LinesFrom(ts), ts[k].lineNumber)
    decreases |ts|
  {
    var n := RunLen(ts, ts[0].lineNumber);
    var rest := ts[n..];
    LinesFromCons(ts);
    if k >= n {
      TokenHasLine(rest, k - n);
      assert ts[k] == rest[k - n];
      var m :| 0 <= m < |LinesFrom(rest)| && LinesFrom(rest)[m].lineNumber == rest[k - n].lineNumber;
      assert LinesFrom(ts)[m + 1] == LinesFrom(rest)[m];
    } else {
      assert ts[k].lineNumber == ts[0].lineNumber;
      assert LinesFrom(ts)[0].lineNumber == ts[k].lineNumber;
    }
  }

  /** Every token's line has a line. */
  lemma TokensHaveLines(ts: seq<Token>)
    ensures forall k :: 0 <= k < |ts| ==> HasLine(LinesFrom(ts), ts[k].lineNumber)
  {
    forall k | 0 <= k < |ts| ensures HasLine(LinesFrom(ts), ts[k].lineNumber) {
      TokenHasLine(ts, k);
    }
  }

  /** On tokens whose line numbers never decrease, the line numbers strictly increase. */
  lemma {:induction false} LinesIncrease(ts: seq<Token>)
    requires LinesNondecreasing(ts)
    ensures forall a, b :: 0 <= a < b < |LinesFrom(ts)| ==> LinesFrom(ts)[a].lineNumber < LinesFrom(ts)[b].lineNumber
    ensures forall m :: 0 <= m < |LinesFrom(ts)| ==> ts[0].lineNumber <= LinesFrom(ts)[m].lineNumber
    decreases |ts|
  {
    if ts != [] {
      var n := RunLen(ts, ts[0].lineNumber);
      var rest := ts[n..];
      LinesFromCons(ts);
      var ls, ls' := LinesFrom(ts), LinesFrom(rest);
      if rest != [] {
        NondecreasingSuffix(ts, n);
        LinesIncrease(rest);
        assert ts[0].lineNumber < rest[0].lineNumber by {
          assert rest[0] == ts[n];
        }
        IncreasingCons(ls, ls', ts[0].lineNumber, rest[0].lineNumber);
      } else {
        assert ls' == [];
        IncreasingCons(ls, ls', ts[0].lineNumber, ts[0].lineNumber + 1);
      }
    } else {
      assert LinesFrom(ts) == [];
    }
  }

  lemma NondecreasingSuffix(ts: seq<Token>, n: nat)
    requires n <= |ts| && LinesNondecreasing(ts)
    ensures LinesNondecreasing(ts[n..])
  {
    var rest := ts[n..];
    forall a, b | 0 <= a < b < |rest| ensures rest[a].lineNumber <= rest[b].lineNumber {
      assert rest[a] == ts[n + a] && rest[b] == ts[n + b];
    }
  }

  /** A first line numbered below every later line, in front of increasing lines. */
  lemma IncreasingCons(ls: seq<Line>, ls': seq<Line>, x: nat, y: nat)
    requires |ls| == 1 + |ls'| && ls[0].lineNumber == x && x < y
    requires forall m :: 1 <= m < |ls| ==> ls[m] == ls'[m - 1]
    requires forall a, b :: 0 <= a < b < |ls'| ==> ls'[a].lineNumber < ls'[b].lineNumber
    requires forall m :: 0 <= m < |ls'| ==> y <= ls'[m].lineNumber
    ensures forall a, b :: 0 <= a < b < |ls| ==> ls[a].lineNumber < ls[b].lineNumber
    ensures forall m :: 0 <= m < |ls| ==> x <= ls[m].lineNumber
  {
    forall a, b | 0 <= a < b < |ls| ensures ls[a].lineNumber < ls[b].lineNumber {
      assert ls[b] == ls'[b - 1];
      if a > 0 {
        assert ls[a] == ls'[a - 1];
      }
    }
  }

  /** Every token is a plain run. */
  predicate AllPlain(ts: seq<Token>)
  {
    forall k :: 0 <= k < |ts| ==> PlainRun(ts[k].text)
  }

  /** Text made of plain runs holds no quote, backtick or newline. */
  lemma {:induction false} ConcatPlain(ts: seq<Token>)
    requires AllPlain(ts)
    ensures forall m :: 0 <= m < |Concat(ts)| ==> !IsSpecialChar(Concat(ts)[m])
  {
    if ts != [] {
      ConcatPlain(ts[..|ts| - 1]);
    }
  }

  /** A line of plain text: non-empty, without quotes, backticks or newlines. */
  predicate PlainLine(l: Line)
  {
    |l.content| > 0 && forall c :: 0 <= c < |l.content| ==> !IsSpecialChar(l.content[c])
  }

  /** Line `m` built from plain runs is a plain line. */
  lemma {:induction false} LinePlain(ts: seq<Token>, m: nat)
    requires AllPlain(ts) && m < |LinesFrom(ts)|
    ensures PlainLine(LinesFrom(ts)[m])
    decreases |ts|, 1
  {
    if m > 0 {
      LaterLinePlain(ts, m);
    } else {
      FirstLinePlain(ts);
    }
  }

  /** A later line is a line of what follows the first run. */
  lemma {:induction false} LaterLinePlain(ts: seq<Token>, m: nat)
    requires AllPlain(ts) && 0 < m < |LinesFrom(ts)|
    ensures PlainLine(LinesFrom(ts)[m])
    decreases |ts|, 0
  {
    var n := LinesFromTail(ts, m);
    assert AllPlain(ts[n..]) by {
      PlainSlice(ts, n, |ts|);
      assert ts[n..|ts|] == ts[n..];
    }
    LinePlain(ts[n..], m - 1);
  }

  /** Line `m > 0` is line `m - 1` of what follows the first run. */
  lemma LinesFromTail(ts: seq<Token>, m: nat) returns (n: nat)
    requires ts != [] && 0 < m < |LinesFrom(ts)|
    ensures n == RunLen(ts, ts[0].lineNumber) && 1 <= n <= |ts|
    ensures m - 1 < |LinesFrom(ts[n..])| && LinesFrom(ts)[m] == LinesFrom(ts[n..])[m - 1]
  {
    n := RunLen(ts, ts[0].lineNumber);
    LinesFromCons(ts);
  }

  lemma PlainSlice(ts: seq<Token>, lo: nat, hi: nat)
    requires AllPlain(ts) && lo <= hi <= |ts|
    ensures AllPlain(ts[lo..hi])
  {
    forall k | 0 <= k < hi - lo ensures PlainRun(ts[lo..hi][k].text) {
      assert ts[lo..hi][k] == ts[lo + k];
    }
  }

  /** The first line built from plain runs is a plain line. */
  lemma FirstLinePlain(ts: seq<Token>)
    requires AllPlain(ts) && ts != []
    ensures PlainLine(LinesFrom(ts)[0])
  {
    var n := RunLen(ts, ts[0].lineNumber);
    var run := ts[..n];
    PlainSlice(ts, 0, n);
    ConcatPlain(run);
    ConcatSplit(run, 1);
    assert run[..1] == [ts[0]];
    ConcatSnoc([], ts[0]);
    assert LinesFrom(ts)[0].content == Concat(run);
  }

  /** Lines built from plain runs have non-empty content without quotes, backticks or newlines. */
  lemma LinesPlain(ts: seq<Token>)
    requires AllPlain(ts)
    ensures forall m :: 0 <= m < |LinesFrom(ts)| ==> |LinesFrom(ts)[m].content| > 0
    ensures forall m, c :: 0 <= m < |LinesFrom(ts)| && 0 <= c < |LinesFrom(ts)[m].content| ==> !IsSpecialChar(LinesFrom(ts)[m].content[c])
  {
    forall m | 0 <= m < |LinesFrom(ts)| ensures PlainLine(LinesFrom(ts)[m]) {
      LinePlain(ts, m);
    }
  }

  /** The line-building loop of `toLines`, over the plain tokens. */
  method LinesOf(ts: seq<Token>) returns (lines: seq<Line>)
    ensures lines == LinesFrom(ts)
  {
    lines := [];
    var i := 0;
    LinesOfStart(ts);
    while i < |ts|
      invariant 0 <= i <= |ts|
      invariant lines + LinesFrom(ts[i..]) == LinesFrom(ts)
      decreases |ts| - i
    {
      var start := i;
      var lineNumber := ts[i].lineNumber;
      var content;
      content, i := CollectLine(ts, start);
      var info := LineInfo.GetLineInfo(content);
      var line := Line(lineNumber, content, info.indent, info.name, info.hasDot);
      LinesOfStep(ts, lines, start, i, line);
      lines := lines + [line];
    }
    LinesOfEnd(ts, lines);
  }

  /** The inner loop of `toLines`: the text of the run of tokens on the line of `ts[start]`. */
  method CollectLine(ts: seq<Token>, start: nat) returns (content: string, end: nat)
    requires start < |ts|
    ensures start < end <= |ts|
    ensures forall k :: start <= k < end ==> ts[k].lineNumber == ts[start].lineNumber
    ensures end == |ts| || ts[end].lineNumber != ts[start].lineNumber
    ensures content == Concat(ts[start..end])
  {
    var lineNumber := ts[start].lineNumber;
    content := "";
    end := start;
    while end < |ts| && ts[end].lineNumber == lineNumber
      invariant start <= end <= |ts|
      invariant forall k :: start <= k < end ==> ts[k].lineNumber == lineNumber
      invariant content == Concat(ts[start..end])
    {
      ConcatNext(ts, start, end);
      content := content + ts[end].text;
      end := end + 1;
    }
  }

  lemma LinesOfStart(ts: seq<Token>)
    ensures [] + LinesFrom(ts[0..]) == LinesFrom(ts)
  {
    assert ts[0..] == ts;
  }

  lemma LinesOfEnd(ts: seq<Token>, lines: seq<Line>)
    requires lines + LinesFrom(ts[|ts|..]) == LinesFrom(ts)
    ensures lines == LinesFrom(ts)
  {
    assert ts[|ts|..] == [];
  }

  lemma ConcatNext(ts: seq<Token>, start: nat, i: nat)
    requires start <= i < |ts|
    ensures Concat(ts[start..i + 1]) == Concat(ts[start..i]) + ts[i].text
  {
    assert ts[start..i + 1] == ts[start..i] + [ts[i]];
    ConcatSnoc(ts[start..i], ts[i]);
  }

  /** One pass of the outer loop of `LinesOf` keeps its invariant. */
  lemma LinesOfStep(ts: seq<Token>, lines: seq<Line>, start: nat, i: nat, line: Line)
    requires start < i <= |ts|
    requires forall k :: start <= k < i ==> ts[k].lineNumber == ts[start].lineNumber
    requires i == |ts| || ts[i].lineNumber != ts[start].lineNumber
    requires lines + LinesFrom(ts[start..]) == LinesFrom(ts)
    requires line == LineOf(ts[start].lineNumber, Concat(ts[start..i]))
    ensures (lines + [line]) + LinesFrom(ts[i..]) == LinesFrom(ts)
  {
    LinesFromStep(ts, start, i);
    SnocStep(lines, line, LinesFrom(ts[i..]), LinesFrom(ts[start..]), LinesFrom(ts));
  }

  /** Moving one element from the front of the remainder to the end of the prefix. */
  lemma SnocStep<T>(done: seq<T>, x: T, rest: seq<T>, todo: seq<T>, all: seq<T>)
    requires done + todo == all && todo == [x] + rest
    ensures (done + [x]) + rest == all
  {
    assert (done + [x]) + rest == done + ([x] + rest);
  }

  /** Peeling the line that starts at `start` off the remaining tokens. */
  lemma LinesFromStep(ts: seq<Token>, start: nat, i: nat)
    requires start < i <= |ts|
    requires forall k :: start <= k < i ==> ts[k].lineNumber == ts[start].lineNumber
    requires i == |ts| || ts[i].lineNumber != ts[start].lineNumber
    ensures LinesFrom(ts[start..]) == [LineOf(ts[start].lineNumber, Concat(ts[start..i]))] + LinesFrom(ts[i..])
  {
    var rest := ts[start..];
    RunLenExact(rest, ts[start].lineNumber, i - start);
    assert rest[..i - start] == ts[start..i];
    assert rest[i - start..] == ts[i..];
  }

  /** A run of tokens on `line` that ends where the line changes has length `RunLen`. */
  lemma {:induction false} RunLenExact(ts: seq<Token>, line: nat, m: nat)
    requires m <= |ts|
    requires forall k :: 0 <= k < m ==> ts[k].lineNumber == line
    requires m == |ts| || ts[m].lineNumber != line
    ensures RunLen(ts, line) == m
  {
    if m > 0 {
      RunLenExact(ts[1..], line, m - 1);
    }
  }

  /**
   * `toLines`: tokenize, keep the plain runs and merge each line's runs.
   * The line numbers strictly increase, each line's content is non-empty
   * plain text, and its indent, dot and name follow the leading-run rule.
   */
  method ToLines(text: string) returns (lines: seq<Line>, ghost tokens: seq<Token>)
    ensures Tokenization(RemoveEscapedChars(text), tokens)
    ensures lines == LinesFrom(PlainTokens(tokens))
    ensures forall a, b :: 0 <= a < b < |lines| ==> lines[a].lineNumber < lines[b].lineNumber
    ensures forall m :: 0 <= m < |lines| ==> |lines[m].content| > 0
    ensures forall m, c :: 0 <= m < |lines| && 0 <= c < |lines[m].content| ==> !IsSpecialChar(lines[m].content[c])
    ensures forall m :: 0 <= m < |lines| ==> lines[m] == LineOf(lines[m].lineNumber, lines[m].content)
  {
    var toks := Tokenize(text);
    tokens := toks;
    var ts := PlainTokens(toks);
    lines := LinesOf(ts);
    CountedLinesNondecrease(tokens);
    PlainTokensNondecreasing(tokens);
    LinesIncrease(ts);
    assert AllPlain(ts) by {
      forall k | 0 <= k < |ts| ensures PlainRun(ts[k].text) {
        var j :| 0 <= j < |tokens| && tokens[j] == ts[k];
        assert TokenShape(tokens[j], j == |tokens| - 1);
      }
    }
    LinesPlain(ts);
    LinesSummary(ts);
  }

  /** Each line's fields are the leading-run summary of its content. */
  lemma {:induction false} LinesSummary(ts: seq<Token>)
    ensures forall m :: 0 <= m < |LinesFrom(ts)| ==> LinesFrom(ts)[m] == LineOf(LinesFrom(ts)[m].lineNumber, LinesFrom(ts)[m].content)
    decreases |ts|
  {
    if ts != [] {
      var n := RunLen(ts, ts[0].lineNumber);
      var rest := ts[n..];
      var ls, ls' := LinesFrom(ts), LinesFrom(rest);
      LinesSummary(rest);
      assert ls == [LineOf(ts[0].lineNumber, Concat(ts[..n]))] + ls';
      forall m | 0 <= m < |ls| ensures ls[m] == LineOf(ls[m].lineNumber, ls[m].content) {
        if m > 0 {
          assert ls[m] == ls'[m - 1];
        }
      }
    }
  }

  // ---------------------------------------------------------------------
  // Groups.

  function LineIndent(l: Line): nat { l.indent }

  function LineHasDot(l: Line): bool { l.hasDot }

  function LineKey(l: Line): int { l.lineNumber }

  /** The lines as grouper input; the analyzer never passes a blank entry. */
  function AsItems(lines: seq<Line>): seq<Option<Line>>
  {
    seq(|lines|, k requires 0 <= k < |lines| => Some(lines[k]))
  }

  /** The line lists of the groups. */
  function LinesOfGroups(groups: seq<Group>): seq<seq<Line>>
  {
    seq(|groups|, k requires 0 <= k < |groups| => groups[k].lines)
  }

  lemma {:induction false} ValuesOfItems(lines: seq<Line>)
    ensures Grouper.Values(AsItems(lines)) == lines
    decreases |lines|
  {
    if lines != [] {
      assert AsItems(lines)[1..] == AsItems(lines[1..]);
      ValuesOfItems(lines[1..]);
      assert lines == [lines[0]] + lines[1..];
    }
  }

  /**
   * `toGroups`: the stack grouping by indentation. It fails (`None`) exactly
   * when a line dedents below every open group, where the source's
   * `stack[stack.length - 1].push` throws. Otherwise every group is
   * non-empty, no line is indented less than its group's head, every line is
   * in exactly one group, and lines with increasing numbers stay in order.
   */
  method ToGroups(lines: seq<Line>) returns (groups: Option<seq<Group>>)
    ensures groups.None? <==> Grouper.Breakdown(AsItems(lines), LineIndent, LineHasDot).None?
    ensures groups.Some? ==> LinesOfGroups(groups.value) == Grouper.Breakdown(AsItems(lines), LineIndent, LineHasDot).value
    ensures groups.None? <==> exists k :: 0 <= k < |lines| && Grouper.CrashesAt(Grouper.State([], []), AsItems(lines), k, LineIndent, LineHasDot)
    ensures groups.Some? ==> forall g :: g in groups.value ==> |g.lines| > 0 && forall l :: l in g.lines ==> g.lines[0].indent <= l.indent
    ensures groups.Some? ==> multiset(Grouper.Flatten(LinesOfGroups(groups.value))) == multiset(lines)
    ensures groups.Some? && (forall a, b :: 0 <= a < b < |lines| ==> lines[a].lineNumber < lines[b].lineNumber) ==>
      forall g :: g in groups.value ==> forall a, b :: 0 <= a < b < |g.lines| ==> g.lines[a].lineNumber < g.lines[b].lineNumber
  {
    var items := AsItems(lines);
    var r := Grouper.GroupLines(items, LineIndent, LineHasDot);
    Grouper.BreakdownCrashes(items, LineIndent, LineHasDot);
    if r.None? {
      return None;
    }
    var gs := r.value;
    groups := Some(Wrap(gs));
    ValuesOfItems(lines);
    WrapShape(gs);
    if forall a, b :: 0 <= a < b < |lines| ==> lines[a].lineNumber < lines[b].lineNumber {
      assert Grouper.KeysIncrease(items, LineKey);
      Grouper.BreakdownOrdered(items, LineIndent, LineHasDot, LineKey);
      WrapOrdered(gs);
    }
  }

  /** The grouper's line lists as groups. */
  function Wrap(gs: seq<seq<Line>>): (groups: seq<Group>)
    ensures LinesOfGroups(groups) == gs
  {
    seq(|gs|, k requires 0 <= k < |gs| => Group(gs[k]))
  }

  lemma WrapShape(gs: seq<seq<Line>>)
    requires Grouper.NonEmpty(gs) && Grouper.HeadIsShallowest(gs, LineIndent)
    ensures forall g :: g in Wrap(gs) ==> |g.lines| > 0 && forall l :: l in g.lines ==> g.lines[0].indent <= l.indent
  {
    forall g | g in Wrap(gs)
      ensures |g.lines| > 0 && forall l :: l in g.lines ==> g.lines[0].indent <= l.indent
    {
      var k :| 0 <= k < |gs| && Wrap(gs)[k] == g;
    }
  }

  lemma WrapOrdered(gs: seq<seq<Line>>)
    requires Grouper.GroupsSorted(gs, LineKey)
    ensures forall g :: g in Wrap(gs) ==> forall a, b :: 0 <= a < b < |g.lines| ==> g.lines[a].lineNumber < g.lines[b].lineNumber
  {
    forall g | g in Wrap(gs)
      ensures forall a, b :: 0 <= a < b < |g.lines| ==> g.lines[a].lineNumber < g.lines[b].lineNumber
    {
      var k :| 0 <= k < |gs| && Wrap(gs)[k] == g;
      assert gs[k] in gs;
      assert Grouper.SortedBy(gs[k], LineKey);
    }
  }

  // ---------------------------------------------------------------------
  // Alignment of a group against its template.

  /** A template entry's name: first `:` and first `?` removed. */
  function CleanName(e: string): string
  {
    Syntax.CleanName(e)
  }

  /** The first loop's test for an entry it may skip: `indexOf("?:") === length - 2`. */
  predicate OptionalHere(e: string)
  {
    IndexOf(e, "?:") == |e| - 2
  }

  /** The drain loop's test for an entry it reports: `indexOf("?:") === -1`. */
  predicate Required(e: string)
  {
    IndexOf(e, "?:") == -1
  }

  /**
   * A template entry together with what the alignment loops derive from it:
   * its cleaned name, whether the first loop may skip it, and whether the
   * drain loop reports it.
   */
  datatype Entry = Entry(text: string, name: string, skippable: bool, reported: bool)

  function Classify(e: string): (en: Entry)
    ensures en.text == e
  {
    Entry(e, CleanName(e), OptionalHere(e), Required(e))
  }

  /**
   * What the loops read off an entry: the name with its first `:` and then
   * its first `?` removed; reported exactly when `?:` occurs nowhere;
   * skippable exactly when the first `?:` ends the entry, and also for a
   * one-character entry, whose missing `?:` (index -1) equals its length
   * minus two.
   */
  lemma ClassifyMeaning(e: string)
    ensures Classify(e).name == ReplaceFirst(ReplaceFirst(e, ":", ""), "?", "")
    ensures Classify(e).reported <==> forall m :: 0 <= m <= |e| - 2 ==> !OccursAt(e, "?:", m)
    ensures Classify(e).skippable <==>
      |e| == 1 || (|e| >= 2 && OccursAt(e, "?:", |e| - 2) && forall m :: 0 <= m < |e| - 2 ==> !OccursAt(e, "?:", m))
  {
    IndexOfFirst(e, "?:");
    Syntax.CleanNameReplace(e);
  }

  /** The template's entries, classified, in order. */
  function Template(exp: seq<string>): (es: seq<Entry>)
    ensures |es| == |exp| && forall k :: 0 <= k < |exp| ==> es[k] == Classify(exp[k])
  {
    seq(|exp|, k requires 0 <= k < |exp| => Classify(exp[k]))
  }

  function ExpectedMsg(e: string): string
  {
    "Expected '" + e + "'"
  }

  function UnexpectedMsg(name: string): string
  {
    "Unexpected section '" + name + "'"
  }

  /** A marker spanning the name of line `l`. */
  function Marker(l: Line, message: string): Diagnostic
  {
    Diagnostic(l.lineNumber, 0, l.lineNumber, Utf16Length(l.name) + 1, message)
  }

  /** Where the two-pointer walk stops, and the markers it pushed on the way. */
  datatype Walk = Walk(markers: seq<Diagnostic>, i: nat, j: nat)

  /** One round of the first loop: a match consumes both, a skippable entry is skipped, anything else is reported. */
  function Advance(ls: seq<Line>, es: seq<Entry>, w: Walk): (v: Walk)
    requires w.i < |ls| && w.j < |es|
  {
    if ls[w.i].name == es[w.j].name then Walk(w.markers, w.i + 1, w.j + 1)
    else if es[w.j].skippable then Walk(w.markers, w.i, w.j + 1)
    else Walk(w.markers + [Marker(ls[w.i], ExpectedMsg(es[w.j].text))], w.i + 1, w.j)
  }

  /** The first loop run from state `w`: walk lines (`i`) and template entries (`j`) together. */
  function MatchFrom(ls: seq<Line>, es: seq<Entry>, w: Walk): (v: Walk)
    requires w.i <= |ls| && w.j <= |es|
    ensures w.i <= v.i <= |ls| && w.j <= v.j <= |es|
    ensures v.i == |ls| || v.j == |es|
    decreases |ls| - w.i + |es| - w.j
  {
    if w.i < |ls| && w.j < |es| then MatchFrom(ls, es, Advance(ls, es, w)) else w
  }

  /** The first loop from the start of the group and the template. */
  function MatchPhase(ls: seq<Line>, es: seq<Entry>): Walk
  {
    MatchFrom(ls, es, Walk([], 0, 0))
  }

  /** Where the second loop stops when it starts at entry `j`: the first empty entry, or the end. */
  function StopAt(es: seq<Entry>, j: nat): (s: nat)
    requires j <= |es|
    ensures j <= s <= |es|
    ensures forall k :: j <= k < s ==> es[k].text != ""
    ensures s == |es| || es[s].text == ""
    decreases |es| - j
  {
    if j == |es| || es[j].text == "" then j else StopAt(es, j + 1)
  }

  /** The reported entries among `es[lo..hi]`, each anchored at line `ls[i - 1]`. */
  function Reported(ls: seq<Line>, es: seq<Entry>, i: nat, lo: nat, hi: nat): seq<Diagnostic>
    requires 0 < i <= |ls| && lo <= hi <= |es|
    decreases hi - lo
  {
    if hi == lo then []
    else Reported(ls, es, i, lo, hi - 1) + (if es[hi - 1].reported then [Marker(ls[i - 1], ExpectedMsg(es[hi - 1].text))] else [])
  }

  /** The second loop: leftover reported entries, anchored at the last consumed line, up to an empty entry. */
  function DrainExpected(ls: seq<Line>, es: seq<Entry>, i: nat, j: nat): seq<Diagnostic>
    requires 0 < i <= |ls| && j <= |es|
  {
    Reported(ls, es, i, j, StopAt(es, j))
  }

  /** A stretch of non-empty entries ended by an empty one or the end is where the second loop stops. */
  lemma {:induction false} StopAtExact(es: seq<Entry>, j: nat, s: nat)
    requires j <= s <= |es|
    requires forall k :: j <= k < s ==> es[k].text != ""
    requires s == |es| || es[s].text == ""
    ensures StopAt(es, j) == s
    decreases s - j
  {
    if j < s {
      StopAtExact(es, j + 1, s);
    }
  }

  /** The third loop's test: the name holds something other than dashes. */
  predicate Reportable(name: string)
  {
    exists k :: 0 <= k < |name| && name[k] != '-'
  }

  /** The test as the source writes it, `replace(/-/g, "").length > 0`, is the same test. */
  lemma ReportableWithout(name: string)
    ensures Reportable(name) <==> |Without(name, '-')| > 0
  {
    WithoutEmpty(name, '-');
  }

  /** The third loop: the lines from `lo` up to `hi` whose name is more than dashes. */
  function Unexpected(ls: seq<Line>, lo: nat, hi: nat): seq<Diagnostic>
    requires lo <= hi <= |ls|
    decreases hi - lo
  {
    if hi == lo then []
    else Unexpected(ls, lo, hi - 1) + (if Reportable(ls[hi - 1].name) then [Marker(ls[hi - 1], UnexpectedMsg(ls[hi - 1].name))] else [])
  }

  /** Everything the third loop reports once the first loop stopped at line `i`. */
  function DrainActual(ls: seq<Line>, i: nat): seq<Diagnostic>
    requires i <= |ls|
  {
    Unexpected(ls, i, |ls|)
  }

  /**
   * The markers for one group. Groups are never empty, so when the drain of
   * template entries runs there is always a consumed line to anchor at.
   */
  function Align(ls: seq<Line>, es: seq<Entry>): seq<Diagnostic>
    requires |ls| > 0
  {
    var w := MatchPhase(ls, es);
    w.markers + (if w.j < |es| then DrainExpected(ls, es, w.i, w.j) else []) + DrainActual(ls, w.i)
  }

  /** The first alignment loop of `getDiagnostics`. */
  method MatchLoop(ls: seq<Line>, expected: seq<string>) returns (markers: seq<Diagnostic>, i: nat, j: nat)
    ensures Walk(markers, i, j) == MatchPhase(ls, Template(expected))
  {
    ghost var es := Template(expected);
    markers := [];
    i, j := 0, 0;
    while i < |ls| && j < |expected|
      invariant i <= |ls| && j <= |expected|
      invariant MatchFrom(ls, es, Walk(markers, i, j)) == MatchPhase(ls, es)
      decreases |ls| - i + |expected| - j
    {
      ghost var w := Walk(markers, i, j);
      assert MatchFrom(ls, es, w) == MatchFrom(ls, es, Advance(ls, es, w));
      var acName := ls[i].name;
      var exName := CleanName(expected[j]);
      if acName == exName {
        i, j := i + 1, j + 1;
      } else if IndexOf(expected[j], "?:") == |expected[j]| - 2 {
        j := j + 1;
      } else {
        markers := markers + [Marker(ls[i], ExpectedMsg(expected[j]))];
        i := i + 1;
      }
    }
  }

  /** The second alignment loop: report leftover entries without `?:` until an empty one. */
  method DrainExpectedLoop(ls: seq<Line>, expected: seq<string>, i: nat, j0: nat) returns (markers: seq<Diagnostic>)
    requires 0 < i <= |ls| && j0 <= |expected|
    ensures markers == DrainExpected(ls, Template(expected), i, j0)
  {
    ghost var es := Template(expected);
    markers := [];
    var j := j0;
    while j < |expected|
      invariant j0 <= j <= |expected|
      invariant forall k :: j0 <= k < j ==> es[k].text != ""
      invariant markers == Reported(ls, es, i, j0, j)
      decreases |expected| - j
    {
      if expected[j] == "" {
        break;
      }
      DrainStep(ls, expected, i, j0, j);
      if IndexOf(expected[j], "?:") == -1 {
        markers := markers + [Marker(ls[i - 1], ExpectedMsg(expected[j]))];
      }
      j := j + 1;
    }
    StopAtExact(es, j0, j);
  }

  /** One round of the second loop reports entry `j` exactly when it has no `?:`. */
  lemma DrainStep(ls: seq<Line>, expected: seq<string>, i: nat, j0: nat, j: nat)
    requires 0 < i <= |ls| && j0 <= j < |expected|
    ensures Template(expected)[j].text == expected[j]
    ensures Reported(ls, Template(expected), i, j0, j + 1) == Reported(ls, Template(expected), i, j0, j) +
      (if IndexOf(expected[j], "?:") == -1 then [Marker(ls[i - 1], ExpectedMsg(expected[j]))] else [])
  {
    assert Template(expected)[j] == Classify(expected[j]);
  }

  /** The third alignment loop: report leftover lines. */
  method DrainActualLoop(ls: seq<Line>, i0: nat) returns (markers: seq<Diagnostic>)
    requires i0 <= |ls|
    ensures markers == DrainActual(ls, i0)
  {
    markers := [];
    var i := i0;
    while i < |ls|
      invariant i0 <= i <= |ls|
      invariant markers == Unexpected(ls, i0, i)
      decreases |ls| - i
    {
      ReportableWithout(ls[i].name);
      if |Without(ls[i].name, '-')| > 0 {
        markers := markers + [Marker(ls[i], UnexpectedMsg(ls[i].name))];
      }
      i := i + 1;
    }
  }

  /** The alignment loops of `getDiagnostics` for one group. */
  method AlignGroup(ls: seq<Line>, expected: seq<string>) returns (markers: seq<Diagnostic>)
    requires |ls| > 0
    ensures markers == Align(ls, Template(expected))
  {
    var i, j;
    markers, i, j := MatchLoop(ls, expected);
    if j < |expected| {
      var more := DrainExpectedLoop(ls, expected, i, j);
      markers := markers + more;
    }
    var rest := DrainActualLoop(ls, i);
    markers := markers + rest;
  }

  // ---------------------------------------------------------------------
  // What the alignment reports.

  /** An entry the template allows to be left out: written with `?:` at its end. */
  predicate Omittable(en: Entry)
  {
    en.skippable && !en.reported
  }

  /** For a raw entry, being omittable is having `?:` as its first and last occurrence, at its end. */
  lemma OmittableText(e: string)
    ensures Omittable(Classify(e)) <==> |e| >= 2 && IndexOf(e, "?:") == |e| - 2
  {
  }

  /**
   * A marker the alignment may produce: it spans the name of one line of the
   * group, and reports either that line as unexpected (when its name is more
   * than dashes) or a template entry that may not be left out as expected.
   */
  ghost predicate Explained(m: Diagnostic, ls: seq<Line>, es: seq<Entry>)
  {
    exists k :: 0 <= k < |ls| &&
      ((Reportable(ls[k].name) && m == Marker(ls[k], UnexpectedMsg(ls[k].name))) ||
       (exists j :: 0 <= j < |es| && !Omittable(es[j]) && m == Marker(ls[k], ExpectedMsg(es[j].text))))
  }

  ghost predicate AllExplained(ms: seq<Diagnostic>, ls: seq<Line>, es: seq<Entry>)
  {
    forall n :: 0 <= n < |ms| ==> Explained(ms[n], ls, es)
  }

  lemma ExplainedConcat(a: seq<Diagnostic>, b: seq<Diagnostic>, ls: seq<Line>, es: seq<Entry>)
    requires AllExplained(a, ls, es) && AllExplained(b, ls, es)
    ensures AllExplained(a + b, ls, es)
  {
    forall n | 0 <= n < |a + b| ensures Explained((a + b)[n], ls, es) {
      if n >= |a| {
        assert (a + b)[n] == b[n - |a|];
      } else {
        assert (a + b)[n] == a[n];
      }
    }
  }

  lemma {:induction false} MatchExplained(ls: seq<Line>, es: seq<Entry>, w: Walk)
    requires w.i <= |ls| && w.j <= |es| && AllExplained(w.markers, ls, es)
    ensures AllExplained(MatchFrom(ls, es, w).markers, ls, es)
    decreases |ls| - w.i + |es| - w.j
  {
    if w.i < |ls| && w.j < |es| {
      var v := Advance(ls, es, w);
      if ls[w.i].name != es[w.j].name && !es[w.j].skippable {
        var m := Marker(ls[w.i], ExpectedMsg(es[w.j].text));
        assert Explained(m, ls, es);
        ExplainedConcat(w.markers, [m], ls, es);
      }
      MatchExplained(ls, es, v);
    }
  }

  lemma {:induction false} ReportedExplained(ls: seq<Line>, es: seq<Entry>, i: nat, lo: nat, hi: nat)
    requires 0 < i <= |ls| && lo <= hi <= |es|
    ensures AllExplained(Reported(ls, es, i, lo, hi), ls, es)
    decreases hi - lo
  {
    if hi > lo {
      ReportedExplained(ls, es, i, lo, hi - 1);
      if es[hi - 1].reported {
        var m := Marker(ls[i - 1], ExpectedMsg(es[hi - 1].text));
        assert Explained(m, ls, es);
        ExplainedConcat(Reported(ls, es, i, lo, hi - 1), [m], ls, es);
      }
    }
  }

  lemma {:induction false} UnexpectedExplained(ls: seq<Line>, es: seq<Entry>, lo: nat, hi: nat)
    requires lo <= hi <= |ls|
    ensures AllExplained(Unexpected(ls, lo, hi), ls, es)
    decreases hi - lo
  {
    if hi > lo {
      UnexpectedExplained(ls, es, lo, hi - 1);
      var l := ls[hi - 1];
      if Reportable(l.name) {
        var m := Marker(l, UnexpectedMsg(l.name));
        assert Explained(m, ls, es);
        ExplainedConcat(Unexpected(ls, lo, hi - 1), [m], ls, es);
      }
    }
  }

  /**
   * Every marker spans the name of a line of the group and reports either
   * that line, whose name is more than dashes, or a template entry that is
   * not marked optional.
   */
  lemma AlignExplained(ls: seq<Line>, es: seq<Entry>)
    requires |ls| > 0
    ensures forall n :: 0 <= n < |Align(ls, es)| ==> Explained(Align(ls, es)[n], ls, es)
  {
    var w := MatchPhase(ls, es);
    MatchExplained(ls, es, Walk([], 0, 0));
    var d := if w.j < |es| then DrainExpected(ls, es, w.i, w.j) else [];
    if w.j < |es| {
      ReportedExplained(ls, es, w.i, w.j, StopAt(es, w.j));
    }
    UnexpectedExplained(ls, es, w.i, |ls|);
    ExplainedConcat(w.markers, d, ls, es);
    ExplainedConcat(w.markers + d, DrainActual(ls, w.i), ls, es);
  }

  lemma {:induction false} MatchBound(ls: seq<Line>, es: seq<Entry>, w: Walk)
    requires w.i <= |ls| && w.j <= |es|
    ensures |MatchFrom(ls, es, w).markers| <= |w.markers| + MatchFrom(ls, es, w).i - w.i
    decreases |ls| - w.i + |es| - w.j
  {
    if w.i < |ls| && w.j < |es| {
      MatchBound(ls, es, Advance(ls, es, w));
    }
  }

  lemma {:induction false} ReportedBound(ls: seq<Line>, es: seq<Entry>, i: nat, lo: nat, hi: nat)
    requires 0 < i <= |ls| && lo <= hi <= |es|
    ensures |Reported(ls, es, i, lo, hi)| <= hi - lo
    decreases hi - lo
  {
    if hi > lo {
      ReportedBound(ls, es, i, lo, hi - 1);
    }
  }

  lemma {:induction false} UnexpectedBound(ls: seq<Line>, lo: nat, hi: nat)
    requires lo <= hi <= |ls|
    ensures |Unexpected(ls, lo, hi)| <= hi - lo
    decreases hi - lo
  {
    if hi > lo {
      UnexpectedBound(ls, lo, hi - 1);
    }
  }

  /**
   * The first loop reports each line at most once, the drain each template
   * entry at most once, and the last loop each remaining line at most once.
   */
  lemma AlignBound(ls: seq<Line>, es: seq<Entry>)
    requires |ls| > 0
    ensures |Align(ls, es)| <= |ls| + |es|
  {
    var w := MatchPhase(ls, es);
    MatchBound(ls, es, Walk([], 0, 0));
    if w.j < |es| {
      ReportedBound(ls, es, w.i, w.j, StopAt(es, w.j));
    }
    UnexpectedBound(ls, w.i, |ls|);
  }

  /** Exactly the lines whose name is more than dashes are reported by the third loop. */
  lemma {:induction false} UnexpectedExactly(ls: seq<Line>, lo: nat, hi: nat)
    requires lo <= hi <= |ls|
    ensures forall m :: m in Unexpected(ls, lo, hi) <==>
      exists k :: lo <= k < hi && Reportable(ls[k].name) && m == Marker(ls[k], UnexpectedMsg(ls[k].name))
    decreases hi - lo
  {
    if hi > lo {
      UnexpectedExactly(ls, lo, hi - 1);
    }
  }

  /**
   * A group whose head name has no template (`get(headName) || []`): every
   * line whose name is more than dashes is reported as unexpected, in order,
   * and nothing else.
   */
  lemma NoTemplate(ls: seq<Line>)
    requires |ls| > 0
    ensures Align(ls, []) == Unexpected(ls, 0, |ls|)
    ensures forall m :: m in Align(ls, []) <==>
      exists k :: 0 <= k < |ls| && Reportable(ls[k].name) && m == Marker(ls[k], UnexpectedMsg(ls[k].name))
  {
    assert MatchPhase(ls, []) == Walk([], 0, 0);
    UnexpectedExactly(ls, 0, |ls|);
  }

  /** No two template entries share a name. */
  predicate DistinctNames(es: seq<Entry>)
  {
    forall a, b :: 0 <= a < b < |es| ==> es[a].name != es[b].name
  }

  /**
   * The group's lines name, in order, the template entries at the strictly
   * increasing positions `sel`, and every entry left out is optional.
   */
  ghost predicate Conforms(ls: seq<Line>, es: seq<Entry>, sel: seq<nat>)
  {
    && |sel| == |ls|
    && (forall k :: 0 <= k < |sel| ==> sel[k] < |es| && ls[k].name == es[sel[k]].name)
    && (forall a, b :: 0 <= a < b < |sel| ==> sel[a] < sel[b])
    && (forall j: nat :: j < |es| && j !in sel ==> Omittable(es[j]))
  }

  /** Every selected line walks over its gap and then matches its entry. */
  ghost predicate Steps(ls: seq<Line>, es: seq<Entry>, sel: seq<nat>)
  {
    && |sel| == |ls|
    && forall k :: 0 <= k < |sel| ==> StepAt(ls, es, sel, k)
  }

  /** Line `k` walks over its gap and then matches its selected entry. */
  ghost predicate StepAt(ls: seq<Line>, es: seq<Entry>, sel: seq<nat>, k: nat)
    requires k < |sel| <= |ls|
  {
    sel[k] < |es| && Gap(sel, k) <= sel[k] && MatchFrom(ls, es, Walk([], k, Gap(sel, k))) == MatchFrom(ls, es, Walk([], k + 1, sel[k] + 1))
  }

  lemma ConformsSteps(ls: seq<Line>, es: seq<Entry>, sel: seq<nat>)
    requires Conforms(ls, es, sel) && DistinctNames(es)
    ensures Steps(ls, es, sel)
  {
    forall k | 0 <= k < |sel| ensures StepAt(ls, es, sel, k) {
      SilentStep(ls, es, sel, k);
    }
  }

  /** Walking over the selected entries from line `i` on, skipping the omitted ones in between. */
  lemma {:induction false} MatchSilent(ls: seq<Line>, es: seq<Entry>, sel: seq<nat>, i: nat)
    requires Steps(ls, es, sel) && i < |ls| && Gap(sel, i) <= |es|
    ensures sel[|ls| - 1] < |es|
    ensures MatchFrom(ls, es, Walk([], i, Gap(sel, i))) == Walk([], |ls|, sel[|ls| - 1] + 1)
    decreases |ls| - i
  {
    assert StepAt(ls, es, sel, i);
    if i + 1 < |ls| {
      assert Gap(sel, i + 1) == sel[i] + 1;
      MatchSilent(ls, es, sel, i + 1);
    } else {
      assert MatchFrom(ls, es, Walk([], i + 1, sel[i] + 1)) == Walk([], |ls|, sel[|ls| - 1] + 1);
    }
  }

  /** Line `i` passes the omitted entries before its own and then matches it. */
  lemma SilentStep(ls: seq<Line>, es: seq<Entry>, sel: seq<nat>, i: nat)
    requires Conforms(ls, es, sel) && DistinctNames(es) && i < |ls|
    ensures Gap(sel, i) <= sel[i] < |es|
    ensures MatchFrom(ls, es, Walk([], i, Gap(sel, i))) == MatchFrom(ls, es, Walk([], i + 1, sel[i] + 1))
  {
    assert sel[i] < |es| && ls[i].name == es[sel[i]].name;
    GapOmitted(ls, es, sel, i);
    SkipThenMatch(ls, es, i, Gap(sel, i), sel[i]);
  }

  lemma SkipThenMatch(ls: seq<Line>, es: seq<Entry>, i: nat, j: nat, s: nat)
    requires i < |ls| && j <= s < |es| && ls[i].name == es[s].name
    requires forall k :: j <= k < s ==> Omittable(es[k]) && es[k].name != ls[i].name
    ensures MatchFrom(ls, es, Walk([], i, j)) == MatchFrom(ls, es, Walk([], i + 1, s + 1))
  {
    SkipOmitted(ls, es, i, j, s);
    MatchNamed(ls, es, i, s);
  }

  /** Where the entries before the one selected for line `i` start. */
  function Gap(sel: seq<nat>, i: nat): nat
    requires i <= |sel|
  {
    if i == 0 then 0 else sel[i - 1] + 1
  }

  /** The entries between two selected ones are omittable and do not name the next line. */
  lemma GapOmitted(ls: seq<Line>, es: seq<Entry>, sel: seq<nat>, i: nat)
    requires Conforms(ls, es, sel) && DistinctNames(es) && i < |ls|
    ensures Gap(sel, i) <= sel[i]
    ensures forall k :: Gap(sel, i) <= k < sel[i] ==> Omittable(es[k]) && es[k].name != ls[i].name
  {
    if i > 0 {
      assert sel[i - 1] < sel[i];
    }
    forall k | Gap(sel, i) <= k < sel[i] ensures Omittable(es[k]) && es[k].name != ls[i].name {
      Unselected(sel, i, k);
    }
  }

  /** The first loop consumes a line and an entry with the same name. */
  lemma MatchNamed(ls: seq<Line>, es: seq<Entry>, i: nat, j: nat)
    requires i < |ls| && j < |es| && ls[i].name == es[j].name
    ensures MatchFrom(ls, es, Walk([], i, j)) == MatchFrom(ls, es, Walk([], i + 1, j + 1))
  {
  }

  /** The first loop skips a stretch of omittable entries none of which names line `i`. */
  lemma {:induction false} SkipOmitted(ls: seq<Line>, es: seq<Entry>, i: nat, j: nat, s: nat)
    requires i < |ls| && j <= s < |es|
    requires forall k :: j <= k < s ==> Omittable(es[k]) && es[k].name != ls[i].name
    ensures MatchFrom(ls, es, Walk([], i, j)) == MatchFrom(ls, es, Walk([], i, s))
    decreases s - j
  {
    if j < s {
      assert Advance(ls, es, Walk([], i, j)) == Walk([], i, j + 1);
      SkipOmitted(ls, es, i, j + 1, s);
    }
  }

  /** A position strictly between two consecutive selected positions is not selected. */
  lemma Unselected(sel: seq<nat>, i: nat, j: nat)
    requires i < |sel| && j < sel[i] && (i > 0 ==> sel[i - 1] < j)
    requires forall a, b :: 0 <= a < b < |sel| ==> sel[a] < sel[b]
    ensures j !in sel
  {
    forall k | 0 <= k < |sel| ensures sel[k] != j {
      if k < i {
        assert sel[k] <= sel[i - 1];
      } else if k > i {
        assert sel[i] < sel[k];
      }
    }
  }

  /** Positions past the last selected one are not selected. */
  lemma PastSelected(sel: seq<nat>, j: nat)
    requires |sel| > 0 && sel[|sel| - 1] < j
    requires forall a, b :: 0 <= a < b < |sel| ==> sel[a] < sel[b]
    ensures j !in sel
  {
    forall k | 0 <= k < |sel| ensures sel[k] != j {
      if k < |sel| - 1 {
        assert sel[k] < sel[|sel| - 1];
      }
    }
  }

  lemma {:induction false} ReportedSilent(ls: seq<Line>, es: seq<Entry>, i: nat, lo: nat, hi: nat)
    requires 0 < i <= |ls| && lo <= hi <= |es|
    requires forall k :: lo <= k < hi ==> !es[k].reported
    ensures Reported(ls, es, i, lo, hi) == []
    decreases hi - lo
  {
    if hi > lo {
      ReportedSilent(ls, es, i, lo, hi - 1);
    }
  }

  /**
   * A group that follows its template, leaving out only optional entries,
   * gets no marker, provided the template's names are distinct (the first
   * loop matches greedily).
   */
  lemma Conformant(ls: seq<Line>, es: seq<Entry>, sel: seq<nat>)
    requires |ls| > 0 && Conforms(ls, es, sel) && DistinctNames(es)
    ensures Align(ls, es) == []
  {
    ConformsSteps(ls, es, sel);
    MatchSilent(ls, es, sel, 0);
    PastSilent(ls, es, sel);
  }

  /** The entries after the last selected one are optional, so the second loop reports none. */
  lemma PastSilent(ls: seq<Line>, es: seq<Entry>, sel: seq<nat>)
    requires |ls| > 0 && Conforms(ls, es, sel)
    ensures sel[|ls| - 1] < |es|
    ensures DrainExpected(ls, es, |ls|, sel[|ls| - 1] + 1) == []
  {
    var last := sel[|ls| - 1];
    forall k | last + 1 <= k < |es| ensures !es[k].reported {
      PastSelected(sel, k);
    }
    ReportedSilent(ls, es, |ls|, last + 1, StopAt(es, last + 1));
  }

  // ---------------------------------------------------------------------
  // `getDiagnostics`.

  /** `createSyntaxMap(...).get(headName) || []`. */
  function TemplateFor(m: Syntax.SyntaxMap, name: string): seq<string>
  {
    if name in m then m[name] else []
  }

  predicate AllNonEmpty(groups: seq<Group>)
  {
    forall k :: 0 <= k < |groups| ==> |groups[k].lines| > 0
  }

  /** The template a group is aligned against: the one filed under its first line's name. */
  function GroupTemplate(g: Group, m: Syntax.SyntaxMap): seq<Entry>
    requires |g.lines| > 0
  {
    Template(TemplateFor(m, g.lines[0].name))
  }

  /** The markers of all groups, group after group. */
  function DiagnoseAll(groups: seq<Group>, m: Syntax.SyntaxMap): seq<Diagnostic>
    requires AllNonEmpty(groups)
  {
    if groups == [] then []
    else
      var g := groups[|groups| - 1];
      DiagnoseAll(groups[..|groups| - 1], m) + Align(g.lines, GroupTemplate(g, m))
  }

  /** The loop of `getDiagnostics` over the groups; the map is rebuilt for every group, as in the source. */
  method Diagnose(groups: seq<Group>, syntax: seq<string>) returns (markers: seq<Diagnostic>)
    requires AllNonEmpty(groups)
    ensures markers == DiagnoseAll(groups, Syntax.SyntaxMapOf(syntax))
  {
    ghost var sm := Syntax.SyntaxMapOf(syntax);
    markers := [];
    for k := 0 to |groups|
      invariant markers == DiagnoseAll(groups[..k], sm)
    {
      var actual := groups[k];
      var m := Syntax.CreateSyntaxMap(syntax);
      var headName := actual.lines[0].name;
      var expected := if headName in m then m[headName] else [];
      var found := AlignGroup(actual.lines, expected);
      DiagnoseSnoc(groups, k, sm);
      markers := markers + found;
    }
    assert groups[..|groups|] == groups;
  }

  lemma DiagnoseSnoc(groups: seq<Group>, k: nat, m: Syntax.SyntaxMap)
    requires AllNonEmpty(groups) && k < |groups|
    ensures AllNonEmpty(groups[..k]) && AllNonEmpty(groups[..k + 1])
    ensures DiagnoseAll(groups[..k + 1], m) == DiagnoseAll(groups[..k], m) + Align(groups[k].lines, GroupTemplate(groups[k], m))
  {
    assert groups[..k + 1][..k] == groups[..k];
  }

  /** A marker as every loop builds it: one line, from column 0 to just past a name, with one of the two messages. */
  ghost predicate IsMarker(d: Diagnostic)
  {
    d.startColumn == 0 && d.startLineNumber == d.endLineNumber && d.endColumn >= 1 &&
    exists t :: d.message == ExpectedMsg(t) || d.message == UnexpectedMsg(t)
  }

  /** Some group of the document explains the marker. */
  ghost predicate ExplainedBy(d: Diagnostic, groups: seq<Group>, m: Syntax.SyntaxMap)
    requires AllNonEmpty(groups)
  {
    exists k :: 0 <= k < |groups| && Explained(d, groups[k].lines, GroupTemplate(groups[k], m))
  }

  ghost predicate AllExplainedBy(ms: seq<Diagnostic>, groups: seq<Group>, m: Syntax.SyntaxMap)
    requires AllNonEmpty(groups)
  {
    forall n :: 0 <= n < |ms| ==> ExplainedBy(ms[n], groups, m)
  }

  lemma AllExplainedByConcat(a: seq<Diagnostic>, b: seq<Diagnostic>, groups: seq<Group>, m: Syntax.SyntaxMap)
    requires AllNonEmpty(groups) && AllExplainedBy(a, groups, m) && AllExplainedBy(b, groups, m)
    ensures AllExplainedBy(a + b, groups, m)
  {
    forall n | 0 <= n < |a + b| ensures ExplainedBy((a + b)[n], groups, m) {
      if n < |a| {
        assert (a + b)[n] == a[n];
      } else {
        assert (a + b)[n] == b[n - |a|];
      }
    }
  }

  /** What the groups before the last one explain, the whole document explains. */
  lemma ExplainedByPrefix(ms: seq<Diagnostic>, groups: seq<Group>, m: Syntax.SyntaxMap)
    requires AllNonEmpty(groups) && |groups| > 0
    requires AllNonEmpty(groups[..|groups| - 1]) && AllExplainedBy(ms, groups[..|groups| - 1], m)
    ensures AllExplainedBy(ms, groups, m)
  {
    var front := groups[..|groups| - 1];
    forall n | 0 <= n < |ms| ensures ExplainedBy(ms[n], groups, m) {
      var k :| 0 <= k < |front| && Explained(ms[n], front[k].lines, GroupTemplate(front[k], m));
      assert front[k] == groups[k];
    }
  }

  /** What the last group explains, the whole document explains. */
  lemma ExplainedByLast(ms: seq<Diagnostic>, groups: seq<Group>, m: Syntax.SyntaxMap)
    requires AllNonEmpty(groups) && |groups| > 0
    requires AllExplained(ms, groups[|groups| - 1].lines, GroupTemplate(groups[|groups| - 1], m))
    ensures AllExplainedBy(ms, groups, m)
  {
    forall n | 0 <= n < |ms| ensures ExplainedBy(ms[n], groups, m) {
      assert Explained(ms[n], groups[|groups| - 1].lines, GroupTemplate(groups[|groups| - 1], m));
    }
  }

  /** Every marker is explained by the group it was produced for. */
  lemma {:induction false} DiagnoseExplained(groups: seq<Group>, m: Syntax.SyntaxMap)
    requires AllNonEmpty(groups)
    ensures AllExplainedBy(DiagnoseAll(groups, m), groups, m)
  {
    if groups == [] {
      assert DiagnoseAll(groups, m) == [];
    } else {
      var front := groups[..|groups| - 1];
      var g := groups[|groups| - 1];
      DiagnoseExplained(front, m);
      AlignExplained(g.lines, GroupTemplate(g, m));
      ExplainedByPrefix(DiagnoseAll(front, m), groups, m);
      ExplainedByLast(Align(g.lines, GroupTemplate(g, m)), groups, m);
      AllExplainedByConcat(DiagnoseAll(front, m), Align(g.lines, GroupTemplate(g, m)), groups, m);
    }
  }

  /** An explained marker has the marker shape. */
  lemma ExplainedShape(d: Diagnostic, ls: seq<Line>, es: seq<Entry>)
    requires Explained(d, ls, es)
    ensures IsMarker(d)
  {
    var k :| 0 <= k < |ls| &&
      ((Reportable(ls[k].name) && d == Marker(ls[k], UnexpectedMsg(ls[k].name))) ||
       (exists j :: 0 <= j < |es| && !Omittable(es[j]) && d == Marker(ls[k], ExpectedMsg(es[j].text))));
    if Reportable(ls[k].name) && d == Marker(ls[k], UnexpectedMsg(ls[k].name)) {
      assert d.message == UnexpectedMsg(ls[k].name);
    } else {
      var j :| 0 <= j < |es| && !Omittable(es[j]) && d == Marker(ls[k], ExpectedMsg(es[j].text));
      assert d.message == ExpectedMsg(es[j].text);
    }
  }

  /** Every marker of a document has the marker shape. */
  lemma DiagnoseShape(groups: seq<Group>, m: Syntax.SyntaxMap)
    requires AllNonEmpty(groups)
    ensures forall n :: 0 <= n < |DiagnoseAll(groups, m)| ==> IsMarker(DiagnoseAll(groups, m)[n])
  {
    var all := DiagnoseAll(groups, m);
    DiagnoseExplained(groups, m);
    forall n | 0 <= n < |all|
      ensures IsMarker(all[n])
    {
      assert ExplainedBy(all[n], groups, m);
      var k :| 0 <= k < |groups| && Explained(all[n], groups[k].lines, GroupTemplate(groups[k], m));
      ExplainedShape(all[n], groups[k].lines, GroupTemplate(groups[k], m));
    }
  }

  /** A group that follows its template, which has distinct names. */
  ghost predicate GroupConforms(g: Group, m: Syntax.SyntaxMap)
  {
    |g.lines| > 0 && DistinctNames(GroupTemplate(g, m)) && exists sel :: Conforms(g.lines, GroupTemplate(g, m), sel)
  }

  /** A document whose every group follows its template gets no marker. */
  lemma {:induction false} DiagnoseConformant(groups: seq<Group>, m: Syntax.SyntaxMap)
    requires AllNonEmpty(groups)
    requires forall k :: 0 <= k < |groups| ==> GroupConforms(groups[k], m)
    ensures DiagnoseAll(groups, m) == []
  {
    if groups != [] {
      var front := groups[..|groups| - 1];
      var g := groups[|groups| - 1];
      assert forall k :: 0 <= k < |front| ==> front[k] == groups[k];
      DiagnoseConformant(front, m);
      assert GroupConforms(g, m);
      var sel :| Conforms(g.lines, GroupTemplate(g, m), sel);
      Conformant(g.lines, GroupTemplate(g, m), sel);
    }
  }

  lemma WrapNonEmpty(gs: seq<seq<Line>>)
    requires Grouper.NonEmpty(gs)
    ensures AllNonEmpty(Wrap(gs))
  {
  }

  /**
   * The report for a document's lines: `None` when grouping fails, and
   * otherwise the markers of the groups, group after group.
   */
  function DiagnosticsOf(lines: seq<Line>, syntax: seq<string>): Option<seq<Diagnostic>>
  {
    var b := Grouper.Breakdown(AsItems(lines), LineIndent, LineHasDot);
    if b.None? then None
    else
      Grouper.BreakdownShape(AsItems(lines), LineIndent, LineHasDot);
      WrapNonEmpty(b.value);
      Some(DiagnoseAll(Wrap(b.value), Syntax.SyntaxMapOf(syntax)))
  }

  /**
   * `getDiagnostics`: lines, groups, then the alignment of each group
   * against the template list `syntax`. `None` stands for the exception
   * `toGroups` throws when a line dedents below every open group.
   */
  method GetDiagnostics(text: string, syntax: seq<string>) returns (r: Option<seq<Diagnostic>>, ghost tokens: seq<Token>)
    ensures Tokenization(RemoveEscapedChars(text), tokens)
    ensures r == DiagnosticsOf(LinesFrom(PlainTokens(tokens)), syntax)
    ensures r.Some? ==> forall n :: 0 <= n < |r.value| ==> IsMarker(r.value[n])
  {
    var lines;
    lines, tokens := ToLines(text);
    var groups := ToGroups(lines);
    if groups.None? {
      return None, tokens;
    }
    var gs := groups.value;
    assert Wrap(LinesOfGroups(gs)) == gs;
    assert AllNonEmpty(gs) by {
      forall k | 0 <= k < |gs| ensures |gs[k].lines| > 0 {
        assert gs[k] in gs;
      }
    }
    var markers := Diagnose(gs, syntax);
    DiagnoseShape(gs, Syntax.SyntaxMapOf(syntax));
    r := Some(markers);
  }
}

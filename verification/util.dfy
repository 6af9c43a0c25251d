/**
 * The line pipeline the editor's outline uses: `removeStrings` blanks out
 * quoted text, `getLinesAndIndents` turns the remaining lines into records
 * (or `null` for a blank line), and `getBreakdown` groups those records with
 * the same stack discipline as the analyzer.
 */
module Util {
  import opened Text
  import LineInfo
  import Grouper

  // ---------------------------------------------------------------------
  // `removeStrings`.

  predicate IsQuote(c: char)
  {
    c == '\'' || c == '"' || c == '`'
  }

  /** The output so far and the stack of open quote characters. */
  datatype Scan = Scan(result: string, stack: seq<char>)

  /**
   * One character: a quote closes the innermost string when it matches the
   * quote that opened it and opens a new one otherwise; any other character
   * is copied outside strings, and inside a string becomes `-` unless it is
   * a line break.
   */
  function ScanStep(st: Scan, c: char): Scan
  {
    if IsQuote(c) then
      if st.stack == [] || st.stack[|st.stack| - 1] != c then Scan(st.result, st.stack + [c])
      else Scan(st.result, st.stack[..|st.stack| - 1])
    else if st.stack == [] then Scan(st.result + [c], st.stack)
    else Scan(st.result + (if c == '\n' then "\n" else "-"), st.stack)
  }

  /** The scan state after reading all of `text`. */
  function ScanText(text: string): Scan
  {
    if text == [] then Scan([], [])
    else ScanStep(ScanText(text[..|text| - 1]), text[|text| - 1])
  }

  /** `text` with its quote characters dropped. */
  function Unquoted(text: string): (u: string)
    ensures forall k :: 0 <= k < |u| ==> !IsQuote(u[k])
  {
    if text == [] then []
    else Unquoted(text[..|text| - 1]) + (if IsQuote(text[|text| - 1]) then [] else [text[|text| - 1]])
  }

  function QuoteCount(text: string): nat
  {
    Count('\'', text) + Count('"', text) + Count('`', text)
  }

  /** The editor's `removeStrings`: one pass with a stack of open quotes. */
  method RemoveStrings(text: string) returns (result: string)
    ensures result == ScanText(text).result
  {
    result := "";
    var stack: seq<char> := [];
    for i := 0 to |text|
      invariant Scan(result, stack) == ScanText(text[..i])
    {
      var c := text[i];
      assert text[..i + 1][..i] == text[..i];
      if c == '\'' || c == '"' || c == '`' {
        if |stack| == 0 || stack[|stack| - 1] != c {
          stack := stack + [c];
        } else {
          stack := stack[..|stack| - 1];
        }
      } else if |stack| == 0 {
        result := result + [c];
      } else {
        if c == '\n' {
          result := result + "\n";
        } else {
          result := result + "-";
        }
      }
    }
    assert text[..|text|] == text;
  }

  /** The output has one character per non-quote input character. */
  lemma {:induction false} ScanLength(text: string)
    ensures |ScanText(text).result| == |Unquoted(text)| == |text| - QuoteCount(text)
  {
    if text != [] {
      var init, c := text[..|text| - 1], text[|text| - 1];
      ScanLength(init);
      assert text == init + [c];
      CountConcat('\'', init, [c]);
      CountConcat('"', init, [c]);
      CountConcat('`', init, [c]);
    }
  }

  /** The output only grows: the output for a prefix is a prefix of the output. */
  lemma {:induction false} ScanPrefix(text: string, p: nat)
    requires p <= |text|
    ensures ScanText(text[..p]).result <= ScanText(text).result
    decreases |text|
  {
    if p < |text| {
      var init := text[..|text| - 1];
      ScanPrefix(init, p);
      assert init[..p] == text[..p];
    } else {
      assert text[..p] == text;
    }
  }

  /**
   * Where each non-quote character goes: the character at input position
   * `p` lands at the position it has among the non-quote characters, as
   * itself when no string is open or it is a line break, as `-` otherwise.
   */
  lemma RemoveStringsAt(text: string, p: nat)
    requires p < |text| && !IsQuote(text[p])
    ensures |Unquoted(text[..p])| < |ScanText(text).result|
    ensures ScanText(text).result[|Unquoted(text[..p])|] ==
      if ScanText(text[..p]).stack != [] && text[p] != '\n' then '-' else text[p]
  {
    assert text[..p + 1][..p] == text[..p];
    ScanLength(text[..p]);
    ScanPrefix(text, p + 1);
  }

  /** No quote character survives. */
  lemma {:induction false} RemoveStringsNoQuotes(text: string)
    ensures forall k :: 0 <= k < |ScanText(text).result| ==> !IsQuote(ScanText(text).result[k])
  {
    if text != [] {
      RemoveStringsNoQuotes(text[..|text| - 1]);
    }
  }

  /** One step adds a line break exactly when it reads one. */
  lemma StepNewlines(st: Scan, c: char)
    ensures Count('\n', ScanStep(st, c).result) == Count('\n', st.result) + Count('\n', [c])
  {
    if !IsQuote(c) {
      var added := if st.stack == [] then [c] else if c == '\n' then "\n" else "-";
      assert ScanStep(st, c).result == st.result + added;
      CountConcat('\n', st.result, added);
      assert Count('\n', added) == Count('\n', [c]);
    }
  }

  /** Every line break survives, and no other character becomes one. */
  lemma {:induction false} RemoveStringsNewlines(text: string)
    ensures Count('\n', ScanText(text).result) == Count('\n', text)
  {
    if text != [] {
      var init, c := text[..|text| - 1], text[|text| - 1];
      RemoveStringsNewlines(init);
      assert text == init + [c];
      CountConcat('\n', init, [c]);
      StepNewlines(ScanText(init), c);
    }
  }

  /** Text without quote characters is left as it is. */
  lemma {:induction false} RemoveStringsPlain(text: string)
    requires forall k :: 0 <= k < |text| ==> !IsQuote(text[k])
    ensures ScanText(text) == Scan(text, [])
  {
    if text != [] {
      var init := text[..|text| - 1];
      RemoveStringsPlain(init);
      assert text == init + [text[|text| - 1]];
    }
  }

  /** Removing strings twice is removing them once. */
  lemma RemoveStringsIdempotent(text: string)
    ensures ScanText(ScanText(text).result).result == ScanText(text).result
  {
    RemoveStringsNoQuotes(text);
    RemoveStringsPlain(ScanText(text).result);
  }

  // ---------------------------------------------------------------------
  // `getLinesAndIndents`.

  /** One outline record: `index` is the 1-based number of the line it came from. */
  datatype LineAndIndent = LineAndIndent(name: string, indent: nat, hasDot: bool, index: nat)

  /** `s.indexOf(p) === 0` is "`s` starts with `p`". */
  lemma IndexOfZero(s: string, p: string)
    ensures IndexOf(s, p) == 0 <==> StartsWith(s, p)
  {
  }

  /** The first line at or after `i` that starts with `::`, or the end. */
  function BlockEnd(lines: seq<string>, i: nat): (e: nat)
    requires i <= |lines|
    ensures i <= e <= |lines|
    ensures forall k :: i <= k < e ==> !StartsWith(lines[k], "::")
    ensures e < |lines| ==> StartsWith(lines[e], "::")
    decreases |lines| - i
  {
    if i == |lines| || StartsWith(lines[i], "::") then i else BlockEnd(lines, i + 1)
  }

  predicate IsBlank(line: string)
  {
    |Without(line, ' ')| == 0
  }

  predicate IsRule(line: string)
  {
    |Without(line, '-')| == 0
  }

  /** The records a line outside a `::` block yields; `i` is its 0-based position. */
  function Emit(line: string, i: nat): seq<Option<LineAndIndent>>
  {
    if IsBlank(line) then [None]
    else if IsRule(line) || StartsWith(line, "[") then []
    else
      var info := LineInfo.Summary(line);
      if !StartsWith(info.name, "\"") && !StartsWith(info.name, "'") then
        [Some(LineAndIndent(info.name, info.indent, info.hasDot, i + 1))]
      else []
  }

  /**
   * Where the line after position `i` is, and what line `i` yields: a line
   * starting with `::` skips everything up to and including the next such
   * line (or to the end) and yields nothing.
   */
  function Next(lines: seq<string>, i: nat): (r: (nat, seq<Option<LineAndIndent>>))
    requires i < |lines|
    ensures i < r.0 <= |lines|
  {
    if StartsWith(lines[i], "::") then
      var e := BlockEnd(lines, i + 1);
      (if e < |lines| then e + 1 else e, [])
    else (i + 1, Emit(lines[i], i))
  }

  /** The records of the lines from `i` on, after those already in `acc`. */
  function Collect(lines: seq<string>, i: nat, acc: seq<Option<LineAndIndent>>): seq<Option<LineAndIndent>>
    requires i <= |lines|
    decreases |lines| - i
  {
    if i == |lines| then acc
    else
      var (j, out) := Next(lines, i);
      Collect(lines, j, acc + out)
  }

  function LinesAndIndents(text: string): seq<Option<LineAndIndent>>
  {
    Collect(Split(text, '\n'), 0, [])
  }

  /** The editor's `getLinesAndIndents`: one index walking the lines, with the skip rules as branches. */
  method GetLinesAndIndents(text: string) returns (result: seq<Option<LineAndIndent>>)
    ensures result == LinesAndIndents(text)
  {
    var lines := Split(text, '\n');
    result := [];
    var i := 0;
    while i < |lines|
      invariant i <= |lines|
      invariant Collect(lines, i, result) == Collect(lines, 0, [])
      decreases |lines| - i
    {
      var line := lines[i];
      CollectStep(lines, i, result);
      if StartsWith(line, "::") {
        assert result + [] == result;
        i := SkipBlock(lines, i);
      } else {
        var out := LineRecords(line, i);
        i := i + 1;
        result := result + out;
      }
    }
  }

  lemma CollectStep(lines: seq<string>, i: nat, acc: seq<Option<LineAndIndent>>)
    requires i < |lines|
    ensures Collect(lines, i, acc) == Collect(lines, Next(lines, i).0, acc + Next(lines, i).1)
    ensures !StartsWith(lines[i], "::") ==> Next(lines, i) == (i + 1, Emit(lines[i], i))
  {
  }

  /** The branch for a line starting with `::`: skip it, the lines up to the next such line, and that line. */
  method SkipBlock(lines: seq<string>, i0: nat) returns (i: nat)
    requires i0 < |lines| && StartsWith(lines[i0], "::")
    ensures i == Next(lines, i0).0 && Next(lines, i0).1 == []
  {
    i := i0 + 1;
    while i < |lines| && !StartsWith(lines[i], "::")
      invariant i0 + 1 <= i <= |lines|
      invariant BlockEnd(lines, i) == BlockEnd(lines, i0 + 1)
      decreases |lines| - i
    {
      i := i + 1;
    }
    if i < |lines| && StartsWith(lines[i], "::") {
      i := i + 1;
    }
  }

  /** The other branches, for the line at 0-based position `i`: what it pushes. */
  method LineRecords(line: string, i: nat) returns (out: seq<Option<LineAndIndent>>)
    ensures out == Emit(line, i)
  {
    if |Without(line, ' ')| == 0 {
      out := [None];
    } else if |Without(line, '-')| == 0 {
      out := [];
    } else if StartsWith(line, "[") {
      out := [];
    } else {
      var info := LineInfo.GetLineInfo(line);
      if !StartsWith(info.name, "\"") && !StartsWith(info.name, "'") {
        out := [Some(LineAndIndent(info.name, info.indent, info.hasDot, i + 1))];
      } else {
        out := [];
      }
    }
  }

  function ItemIndex(it: LineAndIndent): int
  {
    it.index
  }

  /**
   * A record made from the line it names: that line is none of the skipped
   * kinds (block fence, blank, all hyphens, starting with `[`), the record
   * carries the line's leading-run summary, and its name does not start
   * with a quote.
   */
  predicate FromLine(lines: seq<string>, it: LineAndIndent)
  {
    1 <= it.index <= |lines| &&
    var line := lines[it.index - 1];
    !StartsWith(line, "::") && !IsBlank(line) && !IsRule(line) && !StartsWith(line, "[") &&
    LineInfo.Summary(line) == LineInfo.Info(it.hasDot, it.indent, it.name) &&
    !StartsWith(it.name, "\"") && !StartsWith(it.name, "'")
  }

  /** Records made from their lines, numbered at most `bound`, in increasing line order. */
  predicate Sound(lines: seq<string>, acc: seq<Option<LineAndIndent>>, bound: int)
  {
    (forall n :: 0 <= n < |acc| && acc[n].Some? ==> FromLine(lines, acc[n].value) && acc[n].value.index <= bound) &&
    Grouper.KeysIncrease(acc, ItemIndex)
  }

  /** A line outside a block yields at most one entry, and a record only from itself. */
  lemma EmitFrom(lines: seq<string>, i: nat)
    requires i < |lines| && !StartsWith(lines[i], "::")
    ensures |Emit(lines[i], i)| <= 1
    ensures forall n :: 0 <= n < |Emit(lines[i], i)| && Emit(lines[i], i)[n].Some? ==>
      FromLine(lines, Emit(lines[i], i)[n].value) && Emit(lines[i], i)[n].value.index == i + 1
  {
  }

  lemma SoundAppend(lines: seq<string>, acc: seq<Option<LineAndIndent>>, out: seq<Option<LineAndIndent>>, i: int, j: int)
    requires Sound(lines, acc, i) && i <= j && |out| <= 1
    requires forall n :: 0 <= n < |out| && out[n].Some? ==> FromLine(lines, out[n].value) && i < out[n].value.index <= j
    ensures Sound(lines, acc + out, j)
  {
    var all := acc + out;
    assert forall n :: 0 <= n < |acc| ==> all[n] == acc[n];
    assert forall n :: |acc| <= n < |all| ==> all[n] == out[n - |acc|];
  }

  lemma NextSound(lines: seq<string>, i: nat, acc: seq<Option<LineAndIndent>>)
    requires i < |lines| && Sound(lines, acc, i)
    ensures Sound(lines, acc + Next(lines, i).1, Next(lines, i).0)
  {
    if !StartsWith(lines[i], "::") {
      EmitFrom(lines, i);
    }
    SoundAppend(lines, acc, Next(lines, i).1, i, Next(lines, i).0);
  }

  lemma {:induction false} CollectSound(lines: seq<string>, i: nat, acc: seq<Option<LineAndIndent>>)
    requires i <= |lines| && Sound(lines, acc, i)
    ensures Sound(lines, Collect(lines, i, acc), |lines|)
    decreases |lines| - i
  {
    if i < |lines| {
      NextSound(lines, i, acc);
      CollectSound(lines, Next(lines, i).0, acc + Next(lines, i).1);
    }
  }

  /**
   * Every record comes from the line its 1-based `index` names, that line
   * is of none of the skipped kinds, and the indices strictly increase.
   */
  lemma LinesAndIndentsSound(text: string)
    ensures forall n :: 0 <= n < |LinesAndIndents(text)| && LinesAndIndents(text)[n].Some? ==>
      FromLine(Split(text, '\n'), LinesAndIndents(text)[n].value)
    ensures Grouper.KeysIncrease(LinesAndIndents(text), ItemIndex)
  {
    CollectSound(Split(text, '\n'), 0, []);
  }

  /** Line by line, for text without `::` blocks: what each line yields, in order. */
  function EmitAll(lines: seq<string>): seq<Option<LineAndIndent>>
  {
    if lines == [] then [] else EmitAll(lines[..|lines| - 1]) + Emit(lines[|lines| - 1], |lines| - 1)
  }

  lemma {:induction false} CollectPlain(lines: seq<string>, i: nat)
    requires i <= |lines|
    requires forall k :: 0 <= k < |lines| ==> !StartsWith(lines[k], "::")
    ensures Collect(lines, i, EmitAll(lines[..i])) == EmitAll(lines)
    decreases |lines| - i
  {
    if i == |lines| {
      assert lines[..i] == lines;
    } else {
      assert lines[..i + 1][..i] == lines[..i];
      assert EmitAll(lines[..i + 1]) == EmitAll(lines[..i]) + Emit(lines[i], i);
      CollectPlain(lines, i + 1);
    }
  }

  /**
   * Without `::` blocks every line is handled on its own: a blank line
   * gives `null`, a line of hyphens, a `[` line or a quoted name gives
   * nothing, and any other line gives its record.
   */
  lemma LinesAndIndentsPlain(text: string)
    requires forall k :: 0 <= k < |Split(text, '\n')| ==> !StartsWith(Split(text, '\n')[k], "::")
    ensures LinesAndIndents(text) == EmitAll(Split(text, '\n'))
  {
    var lines := Split(text, '\n');
    assert lines[..0] == [];
    CollectPlain(lines, 0);
  }

  // ---------------------------------------------------------------------
  // `getBreakdown`.

  function ItemIndent(it: LineAndIndent): nat
  {
    it.indent
  }

  function ItemHasDot(it: LineAndIndent): bool
  {
    it.hasDot
  }

  /** The records of `text` once its strings are removed. */
  function Items(text: string): seq<Option<LineAndIndent>>
  {
    LinesAndIndents(ScanText(text).result)
  }

  /**
   * The editor's `getBreakdown`: strings removed, records collected, then
   * the grouping loop, which is the one `toGroups` runs. `None` stands for
   * the exception on a line that dedents below every open group.
   */
  method GetBreakdown(text: string) returns (r: Option<seq<seq<LineAndIndent>>>)
    ensures r == Grouper.Breakdown(Items(text), ItemIndent, ItemHasDot)
    ensures r.None? <==> exists k :: 0 <= k < |Items(text)| && Grouper.CrashesAt(Grouper.State([], []), Items(text), k, ItemIndent, ItemHasDot)
    ensures r.Some? ==> Grouper.NonEmpty(r.value) && Grouper.HeadIsShallowest(r.value, ItemIndent)
    ensures r.Some? ==> multiset(Grouper.Flatten(r.value)) == multiset(Grouper.Values(Items(text)))
    ensures r.Some? ==> Grouper.GroupsSorted(r.value, ItemIndex)
  {
    var clean := RemoveStrings(text);
    var items := GetLinesAndIndents(clean);
    r := Grouper.GroupLines(items, ItemIndent, ItemHasDot);
    Grouper.BreakdownCrashes(items, ItemIndent, ItemHasDot);
    if r.Some? {
      LinesAndIndentsSound(clean);
      Grouper.BreakdownOrdered(items, ItemIndent, ItemHasDot, ItemIndex);
    }
  }
}

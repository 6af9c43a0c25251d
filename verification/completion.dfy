/**
 * The completion provider of the editor: from the lines of the document and
 * the cursor's line, find the sections already written in the current
 * group, the template of that group, and the section names that may still
 * follow, in template order. The editor API (reading a line, the result
 * objects' `kind`) is replaced by plain values.
 */
module Completion {
  import opened Text
  import LineInfo
  import Syntax

  /** The completion provider's own copy of the template table. */
  const APP_RAW_MATHLINGUA_SYNTAX: seq<string> := [
    "and:",
    "not:",
    "or:",
    "exists:\nwhere?:\nsuchThat?:",
    "existsUnique:\nwhere?:\nsuchThat?:",
    "forAll:\nwhere?:\nsuchThat?:\nthen:",
    "if:\nthen:",
    "iff:\nthen:",
    "generated:\nfrom:\nwhen?:",
    "piecewise:\nwhen?:\nthen?:\nelse?:",
    "matching:",
    "equality:\nbetween:\nprovided:",
    "member:\nmeans:",
    "membership:\naxiomatically:",
    "view:\nas:\nvia:\nby?:",
    "symbols:\nwhere:",
    "memberSymbols:\nwhere:",
    "symbols:\nas:",
    "memberSymbols:\nas:",
    "[]\nDefines:\nwith?:\ngiven?:\nwhen?:\nsuchThat?:\nextends?:\nsatisfying?:\nmeans?:\nexpressing?:\nusing?:\nProviding?:\nCodified:\nDescribed?:\nMetadata?:",
    "note:",
    "tag:",
    "reference:",
    "[]\nStates:\ngiven?:\nwhen?:\nsuchThat?:\nthat:\nusing?:\nCodified:\nDescribed?:\nMetadata?:",
    "writing:",
    "written:",
    "called:",
    "type:",
    "name:",
    "author:",
    "homepage:",
    "url:",
    "offset:",
    "[]\nResource:",
    "[]\nAxiom:\ngiven?:\nwhere?:\nsuchThat?:\nthen:\niff?:\nusing?:\nMetadata?:",
    "[]\nConjecture:\ngiven?:\nwhere?:\nsuchThat?:\nthen:\niff?:\nusing?:\nMetadata?:",
    "[]\nTheorem:\ngiven?:\nwhere?:\nsuchThat?:\nthen:\niff?:\nusing?:\nProof?:\nMetadata?:",
    "[]\nTopic:\ncontent:\nMetadata?:",
    "Note:\ncontent:\nMetadata?:",
    "Specify:",
    "zero:\nis:",
    "positiveInt:\nis:",
    "negativeInt:\nis:",
    "positiveFloat:\nis:",
    "negativeFloat:\nis:",
    "informally:\nas?:\nnote?:",
    "formally:\nas?:\nnote?:",
    "generally:\nas?:\nnote?:"
  ]

  /** `SYNTAX_GROUPS`: every raw entry with one leading `[]\n` removed, split at line breaks. */
  function SyntaxGroups(): (groups: seq<seq<string>>)
    ensures |groups| == |APP_RAW_MATHLINGUA_SYNTAX|
    ensures forall k :: 0 <= k < |groups| ==>
      |groups[k]| > 0 && Join(groups[k], '\n') == ReplaceFirst(APP_RAW_MATHLINGUA_SYNTAX[k], "[]\n", "")
  {
    Syntax.SplitTable(APP_RAW_MATHLINGUA_SYNTAX)
  }

  /** `item.replace(/:/, '').replace(/\?/g, '')`: the first `:` and every `?` removed. */
  function SectionName(e: string): (n: string)
    ensures '?' !in n
  {
    Without(RemoveFirst(e, ':'), '?')
  }

  /** The section name is the two replacements the source writes. */
  lemma SectionNameReplace(e: string)
    ensures SectionName(e) == ReplaceAll(ReplaceFirst(e, ":", ""), "?", "")
  {
    RemoveFirstReplace(e, ':');
    WithoutReplaceAll(RemoveFirst(e, ':'), '?');
  }

  /** For an entry with at most one `?` the section name is the analyzer's cleaned name. */
  lemma SectionNameClean(e: string)
    requires Count('?', RemoveFirst(e, ':')) <= 1
    ensures SectionName(e) == Syntax.CleanName(e)
  {
    WithoutOnce(RemoveFirst(e, ':'), '?');
  }

  // ---------------------------------------------------------------------
  // The upward scan. Lines are numbered from 1, as in the editor: line
  // `n` is `lines[n - 1]`.

  function InfoAt(lines: seq<string>, n: nat): LineInfo.Info
    requires 1 <= n <= |lines|
  {
    LineInfo.Summary(lines[n - 1])
  }

  /** A line that ends the scan before it is taken: shallower than the cursor, or without a name. */
  predicate Stops(lines: seq<string>, cur: LineInfo.Info, n: nat)
    requires 1 <= n <= |lines|
  {
    InfoAt(lines, n).indent < cur.indent || InfoAt(lines, n).name == []
  }

  /** A line that ends the scan after it is taken: a block start at the cursor's indentation. */
  predicate Opens(lines: seq<string>, cur: LineInfo.Info, n: nat)
    requires 1 <= n <= |lines|
  {
    InfoAt(lines, n).hasDot && InfoAt(lines, n).indent == cur.indent
  }

  /** The topmost line the scan takes when it starts at line `n` (`n + 1` when it takes none). */
  function Top(lines: seq<string>, cur: LineInfo.Info, n: nat): (t: nat)
    requires n <= |lines|
    ensures 1 <= t <= n + 1
  {
    if n == 0 then 1
    else if Stops(lines, cur, n) then n + 1
    else if Opens(lines, cur, n) then n
    else Top(lines, cur, n - 1)
  }

  /** The names of lines `lo` up to (not including) `hi`, top to bottom. */
  function Names(lines: seq<string>, lo: nat, hi: nat): (names: seq<string>)
    requires 1 <= lo && hi <= |lines| + 1
    ensures |names| == if lo <= hi then hi - lo else 0
    decreases hi - lo
  {
    if lo >= hi then [] else [InfoAt(lines, lo).name] + Names(lines, lo + 1, hi)
  }

  /** Every line the scan takes reaches the cursor's indentation and has a name. */
  lemma {:induction false} TopTaken(lines: seq<string>, cur: LineInfo.Info, n: nat)
    requires n <= |lines|
    ensures forall k :: Top(lines, cur, n) <= k <= n ==> !Stops(lines, cur, k)
  {
    if n > 0 && !Stops(lines, cur, n) && !Opens(lines, cur, n) {
      TopTaken(lines, cur, n - 1);
    }
  }

  /** Only the topmost line taken may open a block at the cursor's indentation. */
  lemma {:induction false} TopOpensOnce(lines: seq<string>, cur: LineInfo.Info, n: nat)
    requires n <= |lines|
    ensures forall k :: Top(lines, cur, n) < k <= n ==> !Opens(lines, cur, k)
  {
    if n > 0 && !Stops(lines, cur, n) && !Opens(lines, cur, n) {
      TopOpensOnce(lines, cur, n - 1);
    }
  }

  /** The scan ends at the first line, below a line that stops it, or at a block start. */
  lemma {:induction false} TopEnds(lines: seq<string>, cur: LineInfo.Info, n: nat)
    requires n <= |lines|
    ensures Top(lines, cur, n) == 1 || Stops(lines, cur, Top(lines, cur, n) - 1) ||
      (Top(lines, cur, n) <= n && Opens(lines, cur, Top(lines, cur, n)))
  {
    if n > 0 && !Stops(lines, cur, n) && !Opens(lines, cur, n) {
      TopEnds(lines, cur, n - 1);
    }
  }

  /**
   * The scan above the cursor's line `cursor`: the names it collects, in
   * document order (`usedSections`), and the last one taken (`startName`),
   * which is the cursor line's own name when none is taken.
   */
  method UsedSections(lines: seq<string>, cursor: nat, cur: LineInfo.Info) returns (startName: string, used: seq<string>)
    requires 1 <= cursor <= |lines|
    ensures used == Names(lines, Top(lines, cur, cursor - 1), cursor)
    ensures startName == if used == [] then cur.name else used[0]
  {
    ghost var top := Top(lines, cur, cursor - 1);
    startName := cur.name;
    used := [];
    var lineNum := cursor - 1;
    while lineNum >= 1
      invariant 0 <= lineNum < cursor
      invariant Top(lines, cur, lineNum) == top
      invariant used == Names(lines, lineNum + 1, cursor)
      invariant startName == if used == [] then cur.name else used[0]
    {
      var info := LineInfo.GetLineInfo(lines[lineNum - 1]);
      if info.indent < cur.indent || |info.name| == 0 {
        break;
      }
      startName := info.name;
      used := [startName] + used;
      if info.hasDot && info.indent == cur.indent {
        break;
      }
      lineNum := lineNum - 1;
    }
  }

  // ---------------------------------------------------------------------
  // The template lookup.

  predicate Heads(groups: seq<seq<string>>)
  {
    forall k :: 0 <= k < |groups| ==> |groups[k]| > 0
  }

  /** The first group from `k` on whose cleaned head is `name`. */
  function FirstGroup(groups: seq<seq<string>>, name: string, k: nat): (r: Option<nat>)
    requires Heads(groups) && k <= |groups|
    ensures r.Some? ==> k <= r.value < |groups|
    decreases |groups| - k
  {
    if k == |groups| then None
    else if SectionName(groups[k][0]) == name then Some(k)
    else FirstGroup(groups, name, k + 1)
  }

  /** `FirstGroup` finds the first match, and `None` means no group matches. */
  lemma {:induction false} FirstGroupFirst(groups: seq<seq<string>>, name: string, k: nat)
    requires Heads(groups) && k <= |groups|
    ensures FirstGroup(groups, name, k).None? ==> forall m :: k <= m < |groups| ==> SectionName(groups[m][0]) != name
    ensures FirstGroup(groups, name, k).Some? ==>
      var t := FirstGroup(groups, name, k).value;
      k <= t < |groups| && SectionName(groups[t][0]) == name &&
      forall m :: k <= m < t ==> SectionName(groups[m][0]) != name
    decreases |groups| - k
  {
    if k < |groups| && SectionName(groups[k][0]) != name {
      FirstGroupFirst(groups, name, k + 1);
    }
  }

  /** The `for ... of` loop with `break` over the groups. */
  method FindGroup(groups: seq<seq<string>>, startName: string) returns (target: Option<nat>)
    requires Heads(groups)
    ensures target == FirstGroup(groups, startName, 0)
  {
    for k := 0 to |groups|
      invariant FirstGroup(groups, startName, 0) == FirstGroup(groups, startName, k)
    {
      if Without(RemoveFirst(groups[k][0], ':'), '?') == startName {
        return Some(k);
      }
    }
    return None;
  }

  // ---------------------------------------------------------------------
  // The forward scan over the template.

  /** The first position from `i` on that holds `u`, or the end. */
  function Find(avail: seq<string>, i: nat, u: string): (k: nat)
    requires i <= |avail|
    ensures i <= k <= |avail|
    decreases |avail| - i
  {
    if i == |avail| || avail[i] == u then i else Find(avail, i + 1, u)
  }

  /** Where the scan ends: each used name is searched from the previous match on, without stepping past it. */
  function Pos(avail: seq<string>, i: nat, used: seq<string>): (p: nat)
    requires i <= |avail|
    ensures i <= p <= |avail|
    decreases |used|
  {
    if i == |avail| || used == [] then i else Pos(avail, Find(avail, i, used[0]), used[1..])
  }

  /** The nested `while` loops of the forward scan. */
  method ForwardScan(avail: seq<string>, used: seq<string>) returns (i: nat)
    ensures i == Pos(avail, 0, used)
  {
    i := 0;
    var j := 0;
    while i < |avail| && j < |used|
      invariant i <= |avail| && j <= |used|
      invariant Pos(avail, i, used[j..]) == Pos(avail, 0, used)
    {
      var u := used[j];
      assert used[j..][1..] == used[j + 1..];
      j := j + 1;
      ghost var start := i;
      while i < |avail| && avail[i] != u
        invariant start <= i <= |avail|
        invariant Find(avail, i, u) == Find(avail, start, u)
      {
        i := i + 1;
      }
    }
  }

  /** A used name that is not in the template sends the scan to the end. */
  lemma {:induction false} PosAbsent(avail: seq<string>, i: nat, used: seq<string>, j: nat)
    requires i <= |avail| && j < |used| && used[j] !in avail
    ensures Pos(avail, i, used) == |avail|
    decreases |used|
  {
    if i < |avail| {
      var f := Find(avail, i, used[0]);
      if j == 0 {
        FindFirst(avail, i, used[0]);
        assert f == |avail|;
      } else {
        assert used[1..][j - 1] == used[j];
        PosAbsent(avail, f, used[1..], j - 1);
      }
    }
  }

  /** `Find` stops at the first `u`, or at the end when there is none. */
  lemma {:induction false} FindFirst(avail: seq<string>, i: nat, u: string)
    requires i <= |avail|
    ensures Find(avail, i, u) < |avail| ==> avail[Find(avail, i, u)] == u
    ensures forall m :: i <= m < Find(avail, i, u) ==> avail[m] != u
    decreases |avail| - i
  {
    if i < |avail| && avail[i] != u {
      FindFirst(avail, i + 1, u);
    }
  }

  /** When the scan ends inside the template, it ends on the last used name. */
  lemma {:induction false} PosLast(avail: seq<string>, i: nat, used: seq<string>)
    requires i <= |avail| && used != [] && Pos(avail, i, used) < |avail|
    ensures avail[Pos(avail, i, used)] == used[|used| - 1]
    decreases |used|
  {
    var f := Find(avail, i, used[0]);
    if |used| == 1 {
      FindFirst(avail, i, used[0]);
      assert Pos(avail, f, used[1..]) == f;
    } else {
      PosLast(avail, f, used[1..]);
    }
  }

  /** When the scan ends inside the template, every used name occurs in it, at or before the end position. */
  lemma {:induction false} PosCovers(avail: seq<string>, i: nat, used: seq<string>)
    requires i <= |avail| && Pos(avail, i, used) < |avail|
    ensures forall j :: 0 <= j < |used| ==> used[j] in avail[i..Pos(avail, i, used) + 1]
    decreases |used|
  {
    if used != [] {
      var f := Find(avail, i, used[0]);
      var p := Pos(avail, i, used);
      FindFirst(avail, i, used[0]);
      PosCovers(avail, f, used[1..]);
      assert avail[f] == used[0];
      assert avail[i..p + 1][f - i] == used[0];
      forall j | 1 <= j < |used| ensures used[j] in avail[i..p + 1] {
        assert used[j] == used[1..][j - 1];
        var w :| 0 <= w < |avail[f..p + 1]| && avail[f..p + 1][w] == used[j];
        assert avail[i..p + 1][f - i + w] == used[j];
      }
    }
  }

  // ---------------------------------------------------------------------
  // The suggestions.

  /** A UTF-16 code unit, what `String.fromCharCode` makes of its argument. */
  newtype CodeUnit = x: int | 0 <= x < 0x1_0000

  /** A completion item; `kind` is the same constant for every item and is left out. */
  datatype Suggestion = Suggestion(labelText: string, insertText: string, sortText: Option<seq<CodeUnit>>)

  /** `String.fromCharCode(startCode + index)`: one code unit, taken modulo 2^16. */
  function SortKey(index: nat): CodeUnit
  {
    ((97 + index) % 0x1_0000) as CodeUnit
  }

  /** Without a template: every group's raw head, in table order. */
  function HeadSuggestions(groups: seq<seq<string>>): seq<Suggestion>
    requires Heads(groups)
  {
    seq(|groups|, k requires 0 <= k < |groups| => Suggestion(groups[k][0] + "...", groups[k][0], None))
  }

  /** The section names still to come, each inserted with its `:`. */
  function SectionSuggestions(rest: seq<string>): seq<Suggestion>
  {
    seq(|rest|, k requires 0 <= k < |rest| => Suggestion(rest[k] + "...", rest[k] + ":", Some([SortKey(k)])))
  }

  const NO_SUGGESTIONS: Suggestion := Suggestion("No suggestions", "", Some([]))

  function Sections(group: seq<string>): (avail: seq<string>)
    ensures |avail| == |group|
  {
    seq(|group|, k requires 0 <= k < |group| => SectionName(group[k]))
  }

  /** `availableSections.slice(i + 1)`. */
  function After(avail: seq<string>, i: nat): seq<string>
  {
    if i + 1 <= |avail| then avail[i + 1..] else []
  }

  /** The suggestions once the template is known. */
  function TemplateSuggestions(group: seq<string>, used: seq<string>): seq<Suggestion>
  {
    var avail := Sections(group);
    var s := SectionSuggestions(After(avail, Pos(avail, 0, used)));
    if s == [] then [NO_SUGGESTIONS] else s
  }

  /** The names the upward scan collects for the cursor on line `cursor`. */
  function Used(lines: seq<string>, cursor: nat): seq<string>
    requires 1 <= cursor <= |lines|
  {
    Names(lines, Top(lines, InfoAt(lines, cursor), cursor - 1), cursor)
  }

  function StartName(lines: seq<string>, cursor: nat): string
    requires 1 <= cursor <= |lines|
  {
    var used := Used(lines, cursor);
    if used == [] then InfoAt(lines, cursor).name else used[0]
  }

  /** What the provider answers for the cursor on line `cursor`. */
  function Completions(lines: seq<string>, cursor: nat, groups: seq<seq<string>>): seq<Suggestion>
    requires 1 <= cursor <= |lines| && Heads(groups)
  {
    match FirstGroup(groups, StartName(lines, cursor), 0)
    case None => HeadSuggestions(groups)
    case Some(k) => TemplateSuggestions(groups[k], Used(lines, cursor))
  }

  /** No group's cleaned head is the start name: every raw head is offered, in table order. */
  lemma CompletionsNoTemplate(lines: seq<string>, cursor: nat, groups: seq<seq<string>>)
    requires 1 <= cursor <= |lines| && Heads(groups)
    requires forall m :: 0 <= m < |groups| ==> SectionName(groups[m][0]) != StartName(lines, cursor)
    ensures |Completions(lines, cursor, groups)| == |groups|
    ensures forall m :: 0 <= m < |groups| ==>
      Completions(lines, cursor, groups)[m] == Suggestion(groups[m][0] + "...", groups[m][0], None)
  {
    FirstGroupFirst(groups, StartName(lines, cursor), 0);
  }

  /** With a template, a used name missing from it leaves only the placeholder. */
  lemma CompletionsAbsent(lines: seq<string>, cursor: nat, groups: seq<seq<string>>, k: nat, j: nat)
    requires 1 <= cursor <= |lines| && Heads(groups)
    requires FirstGroup(groups, StartName(lines, cursor), 0) == Some(k)
    requires j < |Used(lines, cursor)| && Used(lines, cursor)[j] !in Sections(groups[k])
    ensures Completions(lines, cursor, groups) == [NO_SUGGESTIONS]
  {
    PosAbsent(Sections(groups[k]), 0, Used(lines, cursor), j);
  }

  /**
   * With a template, the suggestions are the template's section names after
   * the end position of the forward scan, in template order, each inserted
   * with its `:`; that position holds the last used name, and every used
   * name occurs at or before it. With nothing after it, only the
   * placeholder remains.
   */
  lemma CompletionsFollow(lines: seq<string>, cursor: nat, groups: seq<seq<string>>, k: nat)
    requires 1 <= cursor <= |lines| && Heads(groups)
    requires FirstGroup(groups, StartName(lines, cursor), 0) == Some(k)
    ensures var avail, used := Sections(groups[k]), Used(lines, cursor);
      var p := Pos(avail, 0, used);
      var c := Completions(lines, cursor, groups);
      (p + 1 >= |avail| ==> c == [NO_SUGGESTIONS]) &&
      (p + 1 < |avail| ==>
        |c| == |avail| - p - 1 &&
        (forall n :: 0 <= n < |c| ==> c[n].insertText == avail[p + 1 + n] + ":" && c[n].sortText == Some([SortKey(n)]))) &&
      (p < |avail| && used != [] ==> avail[p] == used[|used| - 1]) &&
      (p < |avail| ==> forall j :: 0 <= j < |used| ==> used[j] in avail[..p + 1])
  {
    var avail, used := Sections(groups[k]), Used(lines, cursor);
    var p := Pos(avail, 0, used);
    if p < |avail| {
      if used != [] {
        PosLast(avail, 0, used);
      }
      PosCovers(avail, 0, used);
      assert avail[0..p + 1] == avail[..p + 1];
    }
  }

  /** The sort keys keep template order, for templates shorter than the code-unit range above `a`. */
  lemma SortKeysIncrease(rest: seq<string>, a: nat, b: nat)
    requires a < b < |rest| <= 0x1_0000 - 97
    ensures SectionSuggestions(rest)[a].sortText.value[0] < SectionSuggestions(rest)[b].sortText.value[0]
  {
  }

  /**
   * `provideCompletionItems` over the document's lines, with the cursor on
   * line `cursor` and the template groups `groups`.
   */
  method ProvideCompletionItems(lines: seq<string>, cursor: nat, groups: seq<seq<string>>) returns (suggestions: seq<Suggestion>)
    requires 1 <= cursor <= |lines| && Heads(groups)
    ensures suggestions == Completions(lines, cursor, groups)
    ensures |groups| > 0 ==> |suggestions| > 0
  {
    var curLineInfo := LineInfo.GetLineInfo(lines[cursor - 1]);
    var startName, usedSections := UsedSections(lines, cursor, curLineInfo);
    var target := FindGroup(groups, startName);
    if target.None? {
      suggestions := HeadSuggestions(groups);
      return;
    }
    var availableSections := Sections(groups[target.value]);
    var i := ForwardScan(availableSections, usedSections);
    suggestions := SectionSuggestions(After(availableSections, i));
    if |suggestions| == 0 {
      suggestions := suggestions + [NO_SUGGESTIONS];
    }
  }

  /** The provider as the editor registers it: the groups are `SYNTAX_GROUPS`, so there is always a suggestion. */
  method ProvideFromSyntaxGroups(lines: seq<string>, cursor: nat) returns (suggestions: seq<Suggestion>)
    requires 1 <= cursor <= |lines|
    ensures suggestions == Completions(lines, cursor, SyntaxGroups())
    ensures |suggestions| > 0
  {
    var syntaxGroups := SyntaxGroups();
    suggestions := ProvideCompletionItems(lines, cursor, syntaxGroups);
  }
}

/**
 * The grammar table: one raw entry per block kind, each a newline-separated
 * list of section names, the first being the head. A name ending in `?:` is
 * optional. An entry may carry a leading `[]\n` marker, which is dropped
 * before splitting.
 */
module Syntax {
  import opened Text

  /** The built-in grammar table; the longer entries are written in pieces. */
  const DEFAULT_RAW_MATHLINGUA_SYNTAX: seq<string> :=
    [
      "and:",
      "not:",
      "or:",
      "exists:\nwhere?:\nsuchThat?:",
      "existsUnique:\nwhere?:\nsuchThat?:",
      "forAll:\nwhere?:\nsuchThat?:\nthen:",
      "if:\nthen:",
      "iff:\nthen:",
      "generated:\nfrom:\nwhen?:",
      "piecewise:\nwhen?:\nthen?:\nelse?:",
      "matching:",
      "equality:\nbetween:\nprovided:",
      "membership:\nthrough:",
      "view:\nas:\nvia:\nby?:",
      "symbols:\nwhere:",
      "memberSymbols:\nwhere:",
      "symbols:\nas:",
      "memberSymbols:\nas:",
      "[]\nDefines:\nwith?:\ngiven?:"
        + "\nwhen?:\nsuchThat?:\nextends?:"
        + "\nsatisfying?:\nmeans?:"
        + "\nexpressing?:\nusing?:\nProviding?:"
        + "\nCodified:\nDescribed?:\nMetadata?:",
      "note:",
      "tag:",
      "reference:",
      "[]\nStates:\ngiven?:\nwhen?:"
        + "\nsuchThat?:\nthat:\nusing?:"
        + "\nCodified:\nDescribed?:\nMetadata?:",
      "writing:",
      "written:",
      "called:",
      "type:",
      "name:",
      "author:",
      "homepage:",
      "url:",
      "offset:",
      "[]\nResource:",
      "[]\nAxiom:\ngiven?:\nwhere?:"
        + "\nsuchThat?:\nthen:\niff?:\nusing?:"
        + "\nMetadata?:",
      "[]\nConjecture:\ngiven?:\nwhere?:"
        + "\nsuchThat?:\nthen:\niff?:\nusing?:"
        + "\nMetadata?:",
      "[]\nTheorem:\ngiven?:\nwhere?:"
        + "\nsuchThat?:\nthen:\niff?:\nusing?:"
        + "\nProof?:\nMetadata?:",
      "[]\nTopic:\ncontent:\nMetadata?:",
      "Note:\ncontent:\nMetadata?:",
      "Specify:",
      "zero:\nis:",
      "positiveInt:\nis:",
      "negativeInt:\nis:",
      "positiveFloat:\nis:",
      "negativeFloat:\nis:",
      "informally:\nas?:\nnote?:",
      "formally:\nas?:\nnote?:",
      "generally:\nas?:\nnote?:"
    ]

  /** Template lookup by head name. */
  type SyntaxMap = map<string, seq<string>>

  /** A template entry with its first `:` and then its first `?` removed. */
  function CleanName(e: string): string
  {
    RemoveFirst(RemoveFirst(e, ':'), '?')
  }

  /** The name cleaning is `e.replace(":", "").replace("?", "")`. */
  lemma CleanNameReplace(e: string)
    ensures CleanName(e) == ReplaceFirst(ReplaceFirst(e, ":", ""), "?", "")
  {
    RemoveFirstReplace(e, ':');
    RemoveFirstReplace(RemoveFirst(e, ':'), '?');
  }

  /** A raw entry split into its section names, after dropping the first `[]\n`. */
  function Entries(item: string): seq<string>
  {
    Split(ReplaceFirst(item, "[]\n", ""), '\n')
  }

  /** Splitting loses nothing: joining the names back gives the stripped entry. */
  lemma EntriesJoin(item: string)
    ensures |Entries(item)| > 0 && Join(Entries(item), '\n') == ReplaceFirst(item, "[]\n", "")
  {
    JoinSplit(ReplaceFirst(item, "[]\n", ""), '\n');
  }

  /** The key a raw entry is filed under. */
  function HeadKey(item: string): string
  {
    CleanName(Entries(item)[0])
  }

  /**
   * Entries filed one after another under their keys, a later entry
   * overwriting an earlier one with the same key.
   */
  function FileAll<V>(list: seq<string>, Key: string -> string, Val: string -> V): map<string, V>
  {
    if list == [] then map[]
    else FileAll(list[..|list| - 1], Key, Val)[Key(list[|list| - 1]) := Val(list[|list| - 1])]
  }

  /** Filing one more entry of `list`. */
  lemma FileAllStep<V>(list: seq<string>, i: nat, Key: string -> string, Val: string -> V)
    requires i < |list|
    ensures FileAll(list[..i + 1], Key, Val) == FileAll(list[..i], Key, Val)[Key(list[i]) := Val(list[i])]
  {
    assert list[..i + 1][..i] == list[..i];
  }

  /** The map `createSyntaxMap` builds. */
  function SyntaxMapOf(list: seq<string>): SyntaxMap
  {
    FileAll(list, HeadKey, Entries)
  }

  /** Every key comes from some entry. */
  lemma {:induction false} FiledKeyFrom<V>(list: seq<string>, Key: string -> string, Val: string -> V, k: string)
    requires k in FileAll(list, Key, Val)
    ensures exists p :: 0 <= p < |list| && Key(list[p]) == k
  {
    var front := list[..|list| - 1];
    if k != Key(list[|list| - 1]) {
      FiledKeyFrom(front, Key, Val, k);
      var p :| 0 <= p < |front| && Key(front[p]) == k;
      assert list[p] == front[p];
    }
  }

  /** An entry is filed under its key, with the value of the last entry sharing that key. */
  lemma {:induction false} FiledKeyTo<V>(list: seq<string>, Key: string -> string, Val: string -> V, p: int)
    requires 0 <= p < |list|
    ensures Key(list[p]) in FileAll(list, Key, Val)
    ensures (forall q :: p < q < |list| ==> Key(list[q]) != Key(list[p])) ==> FileAll(list, Key, Val)[Key(list[p])] == Val(list[p])
  {
    var front := list[..|list| - 1];
    if p < |front| {
      assert front[p] == list[p];
      forall q | p < q < |front| ensures front[q] == list[q] {
      }
      FiledKeyTo(front, Key, Val, p);
    }
  }

  /** Every value is filed under the key of the entry it came from. */
  lemma {:induction false} FiledValues<V>(list: seq<string>, Key: string -> string, Val: string -> V, k: string)
    requires k in FileAll(list, Key, Val)
    ensures exists p :: 0 <= p < |list| && Key(list[p]) == k && FileAll(list, Key, Val)[k] == Val(list[p])
  {
    var front := list[..|list| - 1];
    if k != Key(list[|list| - 1]) {
      FiledValues(front, Key, Val, k);
      var p :| 0 <= p < |front| && Key(front[p]) == k && FileAll(front, Key, Val)[k] == Val(front[p]);
      assert list[p] == front[p];
    }
  }

  /** The keys are exactly the head keys of the entries. */
  lemma SyntaxMapKeys(list: seq<string>)
    ensures forall k :: k in SyntaxMapOf(list) <==> exists p :: 0 <= p < |list| && HeadKey(list[p]) == k
  {
    forall k | k in SyntaxMapOf(list)
      ensures exists p :: 0 <= p < |list| && HeadKey(list[p]) == k
    {
      FiledKeyFrom(list, HeadKey, Entries, k);
    }
    forall p | 0 <= p < |list| ensures HeadKey(list[p]) in SyntaxMapOf(list) {
      FiledKeyTo(list, HeadKey, Entries, p);
    }
  }

  /** Every template is non-empty and is filed under its own cleaned head. */
  lemma SyntaxMapHeads(list: seq<string>)
    ensures forall k :: k in SyntaxMapOf(list) ==> |SyntaxMapOf(list)[k]| > 0 && CleanName(SyntaxMapOf(list)[k][0]) == k
  {
    forall k | k in SyntaxMapOf(list)
      ensures |SyntaxMapOf(list)[k]| > 0 && CleanName(SyntaxMapOf(list)[k][0]) == k
    {
      FiledValues(list, HeadKey, Entries, k);
      var p :| 0 <= p < |list| && HeadKey(list[p]) == k && SyntaxMapOf(list)[k] == Entries(list[p]);
      EntriesJoin(list[p]);
    }
  }

  /** An entry whose head key no later entry repeats is the one the map keeps. */
  lemma SyntaxMapLastWins(list: seq<string>, p: int)
    requires 0 <= p < |list|
    requires forall q :: p < q < |list| ==> HeadKey(list[q]) != HeadKey(list[p])
    ensures HeadKey(list[p]) in SyntaxMapOf(list)
    ensures SyntaxMapOf(list)[HeadKey(list[p])] == Entries(list[p])
  {
    FiledKeyTo(list, HeadKey, Entries, p);
  }

  /** The editor's `createSyntaxMap`: a `for` loop filling the map. */
  method CreateSyntaxMap(list: seq<string>) returns (m: SyntaxMap)
    ensures m == SyntaxMapOf(list)
    ensures forall k :: k in m <==> exists p :: 0 <= p < |list| && HeadKey(list[p]) == k
    ensures forall k :: k in m ==> |m[k]| > 0 && CleanName(m[k][0]) == k
  {
    m := map[];
    for i := 0 to |list|
      invariant m == FileAll(list[..i], HeadKey, Entries)
    {
      var itemList := Split(ReplaceFirst(list[i], "[]\n", ""), '\n');
      m := m[CleanName(itemList[0]) := itemList];
      FileAllStep(list, i, HeadKey, Entries);
    }
    assert list[..|list|] == list;
    SyntaxMapKeys(list);
    SyntaxMapHeads(list);
  }

  /** `loadRawMathlinguaSyntax`: the built-in table (the storage read is disabled in the editor). */
  function LoadRawMathlinguaSyntax(): (r: seq<string>)
    ensures r == DEFAULT_RAW_MATHLINGUA_SYNTAX
  {
    DEFAULT_RAW_MATHLINGUA_SYNTAX
  }

  /** Every raw entry of a table, split into its section names, in table order. */
  function SplitTable(table: seq<string>): (groups: seq<seq<string>>)
    ensures |groups| == |table|
    ensures forall k :: 0 <= k < |table| ==> |groups[k]| > 0 && Join(groups[k], '\n') == ReplaceFirst(table[k], "[]\n", "")
  {
    forall k | 0 <= k < |table| {
      EntriesJoin(table[k]);
    }
    seq(|table|, k requires 0 <= k < |table| => Entries(table[k]))
  }

  /** `loadSyntaxGroups`: the built-in table, split. */
  function LoadSyntaxGroups(): (groups: seq<seq<string>>)
    ensures |groups| == |DEFAULT_RAW_MATHLINGUA_SYNTAX|
    ensures forall k :: 0 <= k < |groups| ==> |groups[k]| > 0 && Join(groups[k], '\n') == ReplaceFirst(DEFAULT_RAW_MATHLINGUA_SYNTAX[k], "[]\n", "")
  {
    SplitTable(LoadRawMathlinguaSyntax())
  }
}

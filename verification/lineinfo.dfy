/**
 * The leading-run rule that the analyzer, the line classifier and the
 * completion provider all apply to one line of text: the leading spaces and
 * dots are the indentation, a dot among them marks the start of a new block,
 * and the section name is what follows, up to (not including) the first `:`.
 */
module LineInfo {

  datatype Info = Info(hasDot: bool, indent: nat, name: string)

  predicate IsRunChar(c: char)
  {
    c == ' ' || c == '.'
  }

  /** Length of the leading run of spaces and dots. */
  function RunLength(s: string): (n: nat)
    ensures n <= |s|
    ensures forall k :: 0 <= k < n ==> IsRunChar(s[k])
    ensures n == |s| || !IsRunChar(s[n])
  {
    if s == [] || !IsRunChar(s[0]) then 0 else 1 + RunLength(s[1..])
  }

  /** Length of the prefix of `s` that holds no `:`. */
  function NameLength(s: string): (n: nat)
    ensures n <= |s|
    ensures ':' !in s[..n]
    ensures n == |s| || s[n] == ':'
  {
    if s == [] || s[0] == ':' then 0
    else
      var n := NameLength(s[1..]);
      assert s[..n + 1] == [s[0]] + s[1..][..n];
      n + 1
  }

  /** What the leading-run rule derives from a line. */
  function Summary(content: string): (info: Info)
    ensures info.indent <= |content|
    ensures info.hasDot <==> '.' in content[..info.indent]
    ensures ':' !in info.name
    ensures info.indent + |info.name| <= |content|
    ensures content[info.indent..info.indent + |info.name|] == info.name
  {
    var n := RunLength(content);
    var m := NameLength(content[n..]);
    Info('.' in content[..n], n, content[n..][..m])
  }

  /**
   * The editor's `getLineInfo`: two scanning loops over the line, the first
   * counting spaces and dots, the second collecting the name.
   */
  method GetLineInfo(content: string) returns (info: Info)
    ensures info == Summary(content)
    ensures forall k :: 0 <= k < info.indent ==> IsRunChar(content[k])
    ensures info.indent == |content| || !IsRunChar(content[info.indent])
    ensures info.indent + |info.name| == |content| || content[info.indent + |info.name|] == ':'
  {
    var indent, hasDot := LeadingRun(content);
    var name := NameFrom(content, indent);
    info := Info(hasDot, indent, name);
  }

  /** The first loop of `getLineInfo`: count the leading spaces and dots, noting a dot. */
  method LeadingRun(content: string) returns (indent: nat, hasDot: bool)
    ensures indent == RunLength(content)
    ensures hasDot <==> '.' in content[..indent]
  {
    hasDot := false;
    indent := 0;
    var j := 0;
    while j < |content| && (content[j] == ' ' || content[j] == '.')
      invariant 0 <= j <= |content|
      invariant indent == j
      invariant forall k :: 0 <= k < j ==> IsRunChar(content[k])
      invariant hasDot <==> '.' in content[..j]
    {
      indent := indent + 1;
      if content[j] == '.' {
        hasDot := true;
      }
      assert content[..j + 1] == content[..j] + [content[j]];
      j := j + 1;
    }
    RunLengthExact(content, j);
  }

  /** The second loop of `getLineInfo`: collect characters from `start` up to a `:`. */
  method NameFrom(content: string, start: nat) returns (name: string)
    requires start <= |content|
    ensures name == content[start..][..NameLength(content[start..])]
  {
    name := "";
    var j := start;
    while j < |content| && content[j] != ':'
      invariant start <= j <= |content|
      invariant name == content[start..j]
      invariant forall k :: start <= k < j ==> content[k] != ':'
    {
      name := name + [content[j]];
      j := j + 1;
    }
    assert name == content[start..][..j - start];
    assert forall k :: 0 <= k < |name| ==> name[k] == content[start + k];
    NameLengthExact(content[start..], j - start);
  }

  /** A run of spaces and dots that is followed by something else is the leading run. */
  lemma {:induction false} RunLengthExact(s: string, j: nat)
    requires j <= |s| && (forall k :: 0 <= k < j ==> IsRunChar(s[k]))
    requires j == |s| || !IsRunChar(s[j])
    ensures RunLength(s) == j
  {
    if j > 0 {
      RunLengthExact(s[1..], j - 1);
    }
  }

  /** A prefix without `:` that is followed by `:` or the end is the name. */
  lemma {:induction false} NameLengthExact(s: string, j: nat)
    requires j <= |s| && ':' !in s[..j]
    requires j == |s| || s[j] == ':'
    ensures NameLength(s) == j
  {
    if j > 0 {
      assert s[0] == s[..j][0];
      assert s[1..][..j - 1] == s[..j][1..];
      NameLengthExact(s[1..], j - 1);
    }
  }
}

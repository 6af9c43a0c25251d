/**
 * String helpers that stand for the few JavaScript string operations the
 * editor's validation code uses: counting a character, the first-occurrence
 * `indexOf`/`replace` with a literal, the global `replace` with a literal
 * pattern, `split` on one character, and the removal of every copy of one
 * character (`replace(/c/g, "")`).
 */
module Text {

  datatype Option<T> = None | Some(value: T)

  /**
   * The length JavaScript reports for `s`: a character outside the Basic
   * Multilingual Plane takes two UTF-16 code units.
   */
  function Utf16Length(s: string): (n: nat)
    ensures |s| <= n <= 2 * |s|
    ensures (forall k :: 0 <= k < |s| ==> (s[k] as int) < 0x10000) ==> n == |s|
  {
    if s == [] then 0
    else
      assert forall k :: 0 <= k < |s| - 1 ==> s[..|s| - 1][k] == s[k];
      Utf16Length(s[..|s| - 1]) + (if (s[|s| - 1] as int) < 0x10000 then 1 else 2)
  }

  /** Number of occurrences of `c` in `s`. */
  function Count(c: char, s: string): (n: nat)
    ensures n <= |s|
    ensures n == 0 <==> c !in s
  {
    if s == [] then 0
    else Count(c, s[..|s| - 1]) + (if s[|s| - 1] == c then 1 else 0)
  }

  lemma {:induction false} CountConcat(c: char, a: string, b: string)
    ensures Count(c, a + b) == Count(c, a) + Count(c, b)
  {
    if b == [] {
      assert a + b == a;
    } else {
      assert (a + b)[..|a + b| - 1] == a + b[..|b| - 1];
      CountConcat(c, a, b[..|b| - 1]);
    }
  }

  /** `s` starts with `p` (JavaScript `s.indexOf(p) === 0`). */
  predicate StartsWith(s: string, p: string)
  {
    |p| <= |s| && s[..|p|] == p
  }

  /** `s` has an occurrence of `p` at position `k`. */
  predicate OccursAt(s: string, p: string, k: int)
  {
    0 <= k && k + |p| <= |s| && s[k..k + |p|] == p
  }

  /** An occurrence inside a slice is an occurrence in the whole text, shifted. */
  lemma OccursAtSlice(s: string, p: string, lo: nat, hi: nat, m: nat)
    requires lo <= hi <= |s| && m + |p| <= hi - lo
    ensures OccursAt(s[lo..hi], p, m) <==> OccursAt(s, p, lo + m)
  {
    var a, b := s[lo..hi][m..m + |p|], s[lo + m..lo + m + |p|];
    assert |a| == |b|;
    forall k | 0 <= k < |a| ensures a[k] == b[k] {
      assert a[k] == s[lo..hi][m + k] == s[lo + m + k];
    }
    assert a == b;
  }

  /** JavaScript `s.indexOf(p)`: the first position of `p` in `s`, or -1. */
  function IndexOf(s: string, p: string): (k: int)
    ensures k == -1 || 0 <= k <= |s| - |p|
    decreases |s|
  {
    if |s| < |p| then -1
    else if s[..|p|] == p then 0
    else
      var k' := IndexOf(s[1..], p);
      if k' == -1 then -1 else k' + 1
  }

  /** `IndexOf` finds the first occurrence, and -1 means there is none. */
  lemma {:induction false} IndexOfFirst(s: string, p: string)
    ensures IndexOf(s, p) == -1 ==> forall m :: 0 <= m <= |s| - |p| ==> !OccursAt(s, p, m)
    ensures IndexOf(s, p) != -1 ==> OccursAt(s, p, IndexOf(s, p)) && forall m :: 0 <= m < IndexOf(s, p) ==> !OccursAt(s, p, m)
    decreases |s|
  {
    if |s| >= |p| && s[..|p|] != p {
      IndexOfFirst(s[1..], p);
      forall m | 1 <= m <= |s| - |p| ensures OccursAt(s, p, m) <==> OccursAt(s[1..], p, m - 1) {
        assert s[m..m + |p|] == s[1..][m - 1..m - 1 + |p|];
      }
    }
  }

  /** JavaScript `s.replace(p, r)` with a string pattern: only the first occurrence. */
  function ReplaceFirst(s: string, p: string, r: string): (t: string)
    ensures IndexOf(s, p) == -1 ==> t == s
    ensures IndexOf(s, p) != -1 ==> |t| == |s| - |p| + |r|
  {
    var k := IndexOf(s, p);
    if k == -1 then s else s[..k] + r + s[k + |p|..]
  }

  /** JavaScript `s.replace(c, "")` for a one-character string: drop the first `c`. */
  function RemoveFirst(s: string, c: char): (t: string)
    ensures |t| <= |s|
  {
    if s == [] then []
    else if s[0] == c then s[1..]
    else [s[0]] + RemoveFirst(s[1..], c)
  }

  /** `RemoveFirst` is the first-occurrence replacement by nothing. */
  lemma {:induction false} RemoveFirstReplace(s: string, c: char)
    ensures RemoveFirst(s, c) == ReplaceFirst(s, [c], "")
  {
    if s != [] && s[0] != c {
      RemoveFirstReplace(s[1..], c);
      assert s[..1] != [c];
      var k := IndexOf(s[1..], [c]);
      assert IndexOf(s, [c]) == if k == -1 then -1 else k + 1;
      if k != -1 {
        assert s[..k + 1] == [s[0]] + s[1..][..k];
        assert s[k + 2..] == s[1..][k + 1..];
        assert ReplaceFirst(s, [c], "") == [s[0]] + ReplaceFirst(s[1..], [c], "");
      } else {
        assert s == [s[0]] + s[1..];
      }
    } else if s != [] {
      assert s[..1] == [c];
    }
  }

  /** JavaScript `s.replace(/p/g, r)` for a literal pattern: leftmost, non-overlapping. */
  function ReplaceAll(s: string, p: string, r: string): string
    requires |p| > 0
    decreases |s|
  {
    if |s| < |p| then s
    else if s[..|p|] == p then r + ReplaceAll(s[|p|..], p, r)
    else [s[0]] + ReplaceAll(s[1..], p, r)
  }

  /** Replacing a pattern by text of the same length keeps the length. */
  lemma {:induction false} ReplaceAllKeepsLength(s: string, p: string, r: string)
    requires |p| > 0 && |p| == |r|
    ensures |ReplaceAll(s, p, r)| == |s|
    decreases |s|
  {
    if |s| < |p| {
    } else if s[..|p|] == p {
      ReplaceAllKeepsLength(s[|p|..], p, r);
    } else {
      ReplaceAllKeepsLength(s[1..], p, r);
    }
  }

  /** Replacing never makes the text longer when the replacement is no longer than the pattern. */
  lemma {:induction false} ReplaceAllShrinks(s: string, p: string, r: string)
    requires |p| > 0 && |r| <= |p|
    ensures |ReplaceAll(s, p, r)| <= |s|
    decreases |s|
  {
    if |s| < |p| {
    } else if s[..|p|] == p {
      ReplaceAllShrinks(s[|p|..], p, r);
    } else {
      ReplaceAllShrinks(s[1..], p, r);
    }
  }

  /** A character that is in neither the pattern nor the replacement keeps its count. */
  lemma {:induction false} ReplaceAllKeepsCount(c: char, s: string, p: string, r: string)
    requires |p| > 0 && c !in p && c !in r
    ensures Count(c, ReplaceAll(s, p, r)) == Count(c, s)
    decreases |s|
  {
    if |s| < |p| {
    } else if s[..|p|] == p {
      ReplaceAllKeepsCount(c, s[|p|..], p, r);
      CountConcat(c, r, ReplaceAll(s[|p|..], p, r));
      CountConcat(c, s[..|p|], s[|p|..]);
      assert s == s[..|p|] + s[|p|..];
    } else {
      ReplaceAllKeepsCount(c, s[1..], p, r);
      CountConcat(c, [s[0]], ReplaceAll(s[1..], p, r));
      CountConcat(c, [s[0]], s[1..]);
      assert s == [s[0]] + s[1..];
    }
  }

  /** Text that never holds the pattern's first character is left as it is. */
  lemma {:induction false} ReplaceAllAbsent(s: string, p: string, r: string)
    requires |p| > 0 && p[0] !in s
    ensures ReplaceAll(s, p, r) == s
    decreases |s|
  {
    if |s| >= |p| {
      assert s[..|p|][0] == s[0];
      ReplaceAllAbsent(s[1..], p, r);
      assert s == [s[0]] + s[1..];
    }
  }

  /** JavaScript `s.replace(/c/g, "")` for one character `c`. */
  function Without(s: string, c: char): (t: string)
    ensures |t| <= |s|
    ensures c !in t
  {
    if s == [] then []
    else (if s[0] == c then [] else [s[0]]) + Without(s[1..], c)
  }

  /** Removing every `c` leaves nothing exactly when `s` holds only `c`. */
  lemma {:induction false} WithoutEmpty(s: string, c: char)
    ensures |Without(s, c)| == 0 <==> forall k :: 0 <= k < |s| ==> s[k] == c
  {
    if s != [] {
      WithoutEmpty(s[1..], c);
      assert (forall k :: 0 <= k < |s| ==> s[k] == c) <==>
        s[0] == c && forall k :: 0 <= k < |s[1..]| ==> s[1..][k] == c;
    }
  }

  /** `Without` is the global replacement of the one-character pattern by nothing. */
  lemma {:induction false} WithoutReplaceAll(s: string, c: char)
    ensures Without(s, c) == ReplaceAll(s, [c], "")
  {
    if s != [] {
      WithoutReplaceAll(s[1..], c);
      assert s[..1] == [s[0]];
    }
  }

  /** With at most one `c`, removing every `c` is removing the first. */
  lemma {:induction false} WithoutOnce(s: string, c: char)
    requires Count(c, s) <= 1
    ensures Without(s, c) == RemoveFirst(s, c)
  {
    if s != [] {
      CountConcat(c, [s[0]], s[1..]);
      assert s == [s[0]] + s[1..];
      if s[0] == c {
        assert c !in s[1..];
        WithoutAbsent(s[1..], c);
      } else {
        WithoutOnce(s[1..], c);
      }
    }
  }

  lemma {:induction false} WithoutAbsent(s: string, c: char)
    requires c !in s
    ensures Without(s, c) == s
  {
    if s != [] {
      WithoutAbsent(s[1..], c);
      assert s == [s[0]] + s[1..];
    }
  }

  lemma {:induction false} CountAll(s: string, c: char)
    requires forall k :: 0 <= k < |s| ==> s[k] == c
    ensures Count(c, s) == |s|
  {
    if s != [] {
      CountAll(s[..|s| - 1], c);
    }
  }

  lemma {:induction false} CountBelow(s: string, c: char, k: int)
    requires 0 <= k < |s| && s[k] != c
    ensures Count(c, s) < |s|
  {
    if k == |s| - 1 {
    } else {
      CountBelow(s[..|s| - 1], c, k);
    }
  }

  /** JavaScript `s.split(sep)` for a one-character separator. */
  function Split(s: string, sep: char): (parts: seq<string>)
    ensures |parts| == Count(sep, s) + 1
    ensures forall k :: 0 <= k < |parts| ==> sep !in parts[k]
    decreases |s|
  {
    if sep !in s then [s]
    else
      var k := FirstIndex(s, sep);
      CountAround(s, sep, k);
      [s[..k]] + Split(s[k + 1..], sep)
  }

  /** The occurrences on either side of one occurrence, plus that one. */
  lemma CountAround(s: string, c: char, k: nat)
    requires k < |s| && s[k] == c && c !in s[..k]
    ensures Count(c, s) == Count(c, s[k + 1..]) + 1
  {
    var a, b := s[..k], s[k + 1..];
    assert s == a + ([s[k]] + b);
    CountConcat(c, a, [s[k]] + b);
    CountConcat(c, [s[k]], b);
    assert Count(c, a) == 0;
    assert Count(c, [s[k]]) == 1;
  }

  /** The position of the first `c` in `s`. */
  function FirstIndex(s: string, c: char): (k: nat)
    requires c in s
    ensures k < |s| && s[k] == c && c !in s[..k]
  {
    if s[0] == c then 0 else FirstIndex(s[1..], c) + 1
  }

  /** Joining with the separator, the inverse of `Split`. */
  function Join(parts: seq<string>, sep: char): string
    requires |parts| > 0
  {
    if |parts| == 1 then parts[0] else parts[0] + [sep] + Join(parts[1..], sep)
  }

  lemma {:induction false} JoinSplit(s: string, sep: char)
    ensures Join(Split(s, sep), sep) == s
    decreases |s|
  {
    if sep in s {
      var k := FirstIndex(s, sep);
      JoinSplit(s[k + 1..], sep);
      assert s == s[..k] + [sep] + s[k + 1..];
    }
  }
}

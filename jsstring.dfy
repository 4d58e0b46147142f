/** The JavaScript string built-ins the core relies on (String.prototype.trim,
    indexOf, slice and split with a one-character separator), on Dafny strings.
    A Dafny char is a Unicode scalar value where JavaScript counts UTF-16 code
    units; the two agree on every character of the Basic Multilingual Plane. */
module JsString {

  /** The white space and line terminators that `trim` removes, apart from
      the range U+2000 to U+200A. */
  const WhitespaceChars: set<char> := {
    ' ', '\t', '\n', '\U{000B}', '\U{000C}', '\r', '\U{00A0}', '\U{1680}',
    '\U{2028}', '\U{2029}', '\U{202F}', '\U{205F}', '\U{3000}', '\U{FEFF}' }

  predicate IsWhitespace(c: char) {
    c in WhitespaceChars || ('\U{2000}' <= c <= '\U{200A}')
  }

  predicate AllWhitespace(s: string) {
    forall k :: 0 <= k < |s| ==> IsWhitespace(s[k])
  }

  /** Neither end of s is white space. */
  predicate Trimmed(s: string) {
    s == [] || (!IsWhitespace(s[0]) && !IsWhitespace(s[|s| - 1]))
  }

  /** The first position at or after i that is not white space, or |s|. */
  function SpaceEnd(s: string, i: nat): (n: nat)
    requires i <= |s|
    ensures i <= n <= |s|
    ensures forall k :: i <= k < n ==> IsWhitespace(s[k])
    ensures n < |s| ==> !IsWhitespace(s[n])
    decreases |s| - i
  {
    if i < |s| && IsWhitespace(s[i]) then SpaceEnd(s, i + 1) else i
  }

  /** The start of the white space that s[lo..j] ends with. */
  function SpaceStart(s: string, lo: nat, j: nat): (n: nat)
    requires lo <= j <= |s|
    ensures lo <= n <= j
    ensures forall k :: n <= k < j ==> IsWhitespace(s[k])
    ensures n > lo ==> !IsWhitespace(s[n - 1])
    decreases j
  {
    if j > lo && IsWhitespace(s[j - 1]) then SpaceStart(s, lo, j - 1) else j
  }

  /** String.prototype.trim. */
  function Trim(s: string): (r: string)
    ensures Trimmed(r)
    ensures |r| <= |s|
    ensures r == [] <==> AllWhitespace(s)
  {
    var a := SpaceEnd(s, 0);
    var b := SpaceStart(s, a, |s|);
    assert a == b ==> a == |s|;
    s[a..b]
  }

  /** Trimming removes exactly the white space around a trimmed core. */
  lemma TrimPadded(pre: string, core: string, post: string)
    requires AllWhitespace(pre) && AllWhitespace(post) && Trimmed(core)
    ensures Trim(pre + core + post) == core
  {
    var s := pre + core + post;
    if core == [] {
      assert AllWhitespace(s) by {
        forall k | 0 <= k < |s| ensures IsWhitespace(s[k]) {
          if k < |pre| { assert s[k] == pre[k]; } else { assert s[k] == post[k - |pre|]; }
        }
      }
    } else {
      var e := |pre| + |core|;
      assert s[|pre|] == core[0] && s[e - 1] == core[|core| - 1];
      assert forall k :: 0 <= k < |pre| ==> s[k] == pre[k];
      assert forall k :: e <= k < |s| ==> s[k] == post[k - e];
      var a := SpaceEnd(s, 0);
      assert a == |pre|;
      assert SpaceStart(s, a, |s|) == e;
      assert s[|pre|..e] == core;
    }
  }

  lemma TrimIdempotent(s: string)
    ensures Trim(Trim(s)) == Trim(s)
  {
    TrimPadded([], Trim(s), []);
    assert [] + Trim(s) + [] == Trim(s);
  }

  /** pat occurs in s at position k. */
  predicate OccursAt(s: string, pat: string, k: int) {
    0 <= k && k + |pat| <= |s| && s[k..k + |pat|] == pat
  }

  predicate Contains(s: string, pat: string) {
    exists k | 0 <= k <= |s| :: OccursAt(s, pat, k)
  }

  /** String.prototype.indexOf(pat, from): a position at or after from where
      pat occurs, or -1; IndexOfFirst shows it is the first such position. */
  function IndexOf(s: string, pat: string, from: nat): (r: int)
    ensures r == -1 || (from <= r && OccursAt(s, pat, r))
    decreases |s| - from
  {
    if from + |pat| > |s| then -1
    else if s[from..from + |pat|] == pat then from
    else IndexOf(s, pat, from + 1)
  }

  /** Nothing is skipped: pat occurs nowhere between from and the result, and
      nowhere at or after from when the result is -1. */
  lemma {:induction false} IndexOfFirst(s: string, pat: string, from: nat)
    ensures var r := IndexOf(s, pat, from);
      forall k :: from <= k && (r == -1 || k < r) ==> !OccursAt(s, pat, k)
    decreases |s| - from
  {
    if from + |pat| <= |s| && s[from..from + |pat|] != pat {
      IndexOfFirst(s, pat, from + 1);
    }
  }

  /** indexOf finds an occurrence with none before it. */
  lemma {:induction false} IndexOfFinds(s: string, pat: string, from: nat, k: int)
    requires from <= k && OccursAt(s, pat, k)
    requires forall j :: from <= j < k ==> !OccursAt(s, pat, j)
    ensures IndexOf(s, pat, from) == k
    decreases k - from
  {
    if from < k {
      assert !OccursAt(s, pat, from);
      IndexOfFinds(s, pat, from + 1, k);
    }
  }

  /** How String.prototype.slice reads an index: negative counts from the end,
      and the result is clamped to the string. */
  function ClampIndex(i: int, len: nat): (r: nat)
    ensures r <= len
  {
    if i < 0 then (if len + i < 0 then 0 else len + i)
    else if i > len then len
    else i
  }

  /** String.prototype.slice(start, end). */
  function Slice(s: string, start: int, end: int): string {
    var a, b := ClampIndex(start, |s|), ClampIndex(end, |s|);
    if a < b then s[a..b] else []
  }

  /** String.prototype.split with a one-character separator. */
  function Split(s: string, sep: char): (r: seq<string>)
    ensures |r| >= 1
  {
    if s == [] then [[]]
    else
      var rest := Split(s[1..], sep);
      if s[0] == sep then [[]] + rest
      else [[s[0]] + rest[0]] + rest[1..]
  }

  /** No piece of a split contains the separator. */
  lemma {:induction false} SplitPiecesFree(s: string, sep: char)
    ensures forall i :: 0 <= i < |Split(s, sep)| ==> sep !in Split(s, sep)[i]
  {
    if s != [] {
      SplitPiecesFree(s[1..], sep);
      var rest := Split(s[1..], sep);
      if s[0] != sep {
        assert sep !in [s[0]] + rest[0];
        var r := [[s[0]] + rest[0]] + rest[1..];
        assert forall i :: 1 <= i < |r| ==> r[i] == rest[i];
      } else {
        assert forall i :: 1 <= i < |rest| + 1 ==> ([[]] + rest)[i] == rest[i - 1];
      }
    }
  }

  /** Array.prototype.join with a one-character separator. */
  function Join(parts: seq<string>, sep: char): string {
    if |parts| == 0 then []
    else if |parts| == 1 then parts[0]
    else parts[0] + [sep] + Join(parts[1..], sep)
  }

  // An empty first piece contributes only its separator.
  lemma JoinEmptyHead(parts: seq<string>, sep: char)
    requires |parts| >= 1
    ensures Join([[]] + parts, sep) == [sep] + Join(parts, sep)
  {
    assert ([[]] + parts)[1..] == parts;
  }

  // A character put in front of the first piece comes out in front.
  lemma JoinExtendHead(c: char, parts: seq<string>, sep: char)
    requires |parts| >= 1
    ensures Join([[c] + parts[0]] + parts[1..], sep) == [c] + Join(parts, sep)
  {
    var longer := [[c] + parts[0]] + parts[1..];
    if |parts| > 1 {
      assert longer[1..] == parts[1..];
    }
  }

  /** Splitting loses nothing: joining the pieces gives the string back. */
  lemma {:induction false} JoinSplit(s: string, sep: char)
    ensures Join(Split(s, sep), sep) == s
  {
    if s != [] {
      var rest := Split(s[1..], sep);
      JoinSplit(s[1..], sep);
      assert [s[0]] + s[1..] == s;
      if s[0] == sep {
        JoinEmptyHead(rest, sep);
      } else {
        JoinExtendHead(s[0], rest, sep);
      }
    }
  }

  /** split gives a single piece exactly when the separator does not occur;
      the piece is then the whole string. */
  lemma {:induction false} SplitSingle(s: string, sep: char)
    ensures |Split(s, sep)| == 1 <==> sep !in s
    ensures sep !in s ==> Split(s, sep) == [s]
  {
    if s != [] {
      SplitSingle(s[1..], sep);
      assert s == [s[0]] + s[1..];
      if s[0] != sep {
        assert sep in s[1..] <==> sep in s;
      }
    }
  }
}

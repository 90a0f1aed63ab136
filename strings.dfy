/**
 * The few `String.prototype` operations the core relies on: `indexOf` of a
 * single character, a cut at the first occurrence of a separator (what
 * `indexOf` followed by two `slice`s computes), `split` and `trim`.
 */
module Strings {
  import opened Js

  /** `s.indexOf(c)`: the index of the first `c` in `s`, or -1. */
  function IndexOf(s: string, c: char): (i: int)
    ensures -1 <= i < |s|
    ensures i < 0 <==> c !in s
    ensures 0 <= i ==> s[i] == c && c !in s[..i]
    decreases |s|
  {
    if s == [] then -1
    else if s[0] == c then 0
    else
      var j := IndexOf(s[1..], c);
      assert s == [s[0]] + s[1..];
      if j < 0 then -1
      else
        assert s[..j + 1] == [s[0]] + s[1..][..j];
        j + 1
  }

  /** A string cut at the first occurrence of a separator character. */
  datatype Cut = Cut(before: string, after: Option<string>)

  /**
   * `s` cut at its first `c`: the text before it and, when `c` occurs, the
   * text after it (the separator itself is dropped).
   */
  function CutAt(s: string, c: char): (r: Cut)
    ensures c !in r.before
    ensures r.after.None? <==> c !in s
    ensures r.after.None? ==> r.before == s
    ensures r.after.Some? ==> s == r.before + [c] + r.after.value
  {
    var i := IndexOf(s, c);
    if i < 0 then Cut(s, None)
    else
      assert s == s[..i] + [c] + s[i + 1..];
      Cut(s[..i], Some(s[i + 1..]))
  }

  /** The cut is determined: any split of `s` around a `c` that has no `c` before it is the cut. */
  lemma CutAtUnique(s: string, c: char, before: string, after: string)
    requires s == before + [c] + after && c !in before
    ensures CutAt(s, c) == Cut(before, Some(after))
  {
    var r := CutAt(s, c);
    assert s[|before|] == c;
    assert s == r.before + [c] + r.after.value;
    assert r.before == s[..|r.before|] == before;
  }

  /** `s.split(c)`: the pieces of `s` between occurrences of `c`, in order. */
  function Split(s: string, c: char): (parts: seq<string>)
    ensures |parts| >= 1
    ensures |parts| == 1 <==> c !in s
    ensures forall k :: 0 <= k < |parts| ==> c !in parts[k]
    decreases |s|
  {
    match CutAt(s, c)
    case Cut(_, None) => [s]
    case Cut(before, Some(rest)) => [before] + Split(rest, c)
  }

  /** `parts.join(c)`. */
  function Join(parts: seq<string>, c: char): string
    requires |parts| >= 1
  {
    if |parts| == 1 then parts[0] else parts[0] + [c] + Join(parts[1..], c)
  }

  /** Splitting loses nothing: joining the pieces back gives the string. */
  lemma {:induction false} JoinSplit(s: string, c: char)
    ensures Join(Split(s, c), c) == s
    decreases |s|
  {
    match CutAt(s, c)
    case Cut(_, None) =>
    case Cut(before, Some(rest)) =>
      JoinSplit(rest, c);
      assert Split(s, c)[1..] == Split(rest, c);
  }

  /** The whitespace `trim` removes (other Unicode spaces are not modelled). */
  predicate IsSpace(ch: char)
  {
    ch == ' ' || ch == '\t' || ch == '\n' || ch == '\r'
  }

  function TrimStart(s: string): (r: string)
    ensures |r| <= |s| && r == s[|s| - |r|..]
    ensures r == [] || !IsSpace(r[0])
    ensures forall k :: 0 <= k < |s| - |r| ==> IsSpace(s[k])
    decreases |s|
  {
    if s != [] && IsSpace(s[0]) then TrimStart(s[1..]) else s
  }

  function TrimEnd(s: string): (r: string)
    ensures |r| <= |s| && r == s[..|r|]
    ensures r == [] || !IsSpace(r[|r| - 1])
    ensures forall k :: |r| <= k < |s| ==> IsSpace(s[k])
    decreases |s|
  {
    if s != [] && IsSpace(s[|s| - 1]) then TrimEnd(s[..|s| - 1]) else s
  }

  /**
   * `s.trim()`: the result is a slice of `s` with nothing but white space
   * before and after it, and none at either of its own ends; a string that
   * has none at its ends is left as it is.
   */
  function Trim(s: string): (r: string)
    ensures |r| <= |s|
    ensures r == [] || (!IsSpace(r[0]) && !IsSpace(r[|r| - 1]))
    ensures exists i, j :: 0 <= i <= j <= |s| && r == s[i..j]
              && (forall k :: 0 <= k < i ==> IsSpace(s[k]))
              && (forall k :: j <= k < |s| ==> IsSpace(s[k]))
    ensures (s == [] || (!IsSpace(s[0]) && !IsSpace(s[|s| - 1]))) ==> r == s
  {
    var t := TrimStart(s);
    var r := TrimEnd(t);
    SliceBetweenSpaces(s, t, r);
    r
  }

  /** A white-space-only head cut from `s`, then a white-space-only tail, leaves a slice of `s`. */
  lemma SliceBetweenSpaces(s: string, t: string, r: string)
    requires |t| <= |s| && t == s[|s| - |t|..] && forall k :: 0 <= k < |s| - |t| ==> IsSpace(s[k])
    requires |r| <= |t| && r == t[..|r|] && forall k :: |r| <= k < |t| ==> IsSpace(t[k])
    ensures |s| - |t| + |r| <= |s| && r == s[|s| - |t|..|s| - |t| + |r|]
    ensures forall k :: 0 <= k < |s| - |t| ==> IsSpace(s[k])
    ensures forall k :: |s| - |t| + |r| <= k < |s| ==> IsSpace(s[k])
  {
    var i := |s| - |t|;
    assert t == s[i..] && r == t[..|r|];
    assert r == s[i..i + |r|];
    forall k | i + |r| <= k < |s|
      ensures IsSpace(s[k])
    {
      assert s[k] == t[k - i];
    }
  }
}

/**
 * The JavaScript built-ins that the two games apply to their arrays and
 * strings (Array.prototype.shift / splice / indexOf / includes and
 * String.prototype.indexOf / slice), modelled on values.
 */
module JsBuiltins {

  /** The elements of an array, as a set. */
  function Elems<T>(s: seq<T>): set<T>
  {
    set x | x in s
  }

  /** No element occurs twice. */
  predicate Distinct<T(==)>(s: seq<T>)
  {
    forall i, j :: 0 <= i < j < |s| ==> s[i] != s[j]
  }

  /**
   * How slice and splice read a start or end argument: a negative index
   * counts back from the end, and the result is clamped to [0, len].
   */
  function RelativeIndex(len: nat, index: int): (k: nat)
    ensures k <= len
    ensures 0 <= index <= len ==> k == index
    ensures index < 0 && 0 <= len + index ==> k == len + index
    ensures index > len ==> k == len
    ensures len + index < 0 ==> k == 0
  {
    if index < 0 then (if len + index < 0 then 0 else len + index)
    else if index > len then len
    else index
  }

  /** `a.shift()` on the array's value: the first element goes, an empty array stays empty. */
  function Shift<T>(s: seq<T>): (r: seq<T>)
    ensures s == [] ==> r == []
    ensures s != [] ==> s == [s[0]] + r
  {
    if s == [] then [] else s[1..]
  }

  /** `a.splice(index, 1)` on the array's value: what remains of the array. */
  function Splice1<T>(s: seq<T>, index: int): (r: seq<T>)
    ensures RelativeIndex(|s|, index) < |s| ==> |r| == |s| - 1
    ensures RelativeIndex(|s|, index) == |s| ==> r == s
    ensures forall j :: 0 <= j < RelativeIndex(|s|, index) && j < |r| ==> r[j] == s[j]
    ensures forall j :: RelativeIndex(|s|, index) <= j < |r| ==> r[j] == s[j + 1]
  {
    var k := RelativeIndex(|s|, index);
    if k < |s| then s[..k] + s[k + 1..] else s
  }

  /** `a.splice(index, 1)`'s return value: the array of the removed elements. */
  function SpliceRemoved<T>(s: seq<T>, index: int): (removed: seq<T>)
    ensures |removed| <= 1
    ensures removed != [] <==> RelativeIndex(|s|, index) < |s|
    ensures removed != [] ==> removed[0] == s[RelativeIndex(|s|, index)]
  {
    var k := RelativeIndex(|s|, index);
    if k < |s| then [s[k]] else []
  }

  /** Removing one element neither invents elements nor breaks distinctness. */
  lemma Splice1Shrinks<T>(s: seq<T>, index: int)
    ensures Elems(Splice1(s, index)) <= Elems(s)
    ensures Distinct(s) ==> Distinct(Splice1(s, index))
    ensures Distinct(s) ==> Elems(Splice1(s, index)) == Elems(s) - Elems(SpliceRemoved(s, index))
  {
  }

  /** The -1 that `indexOf` returns for a missing element makes splice remove the last one. */
  lemma Splice1MinusOne<T>(s: seq<T>)
    requires s != []
    ensures Splice1(s, -1) == s[..|s| - 1]
    ensures SpliceRemoved(s, -1) == [s[|s| - 1]]
  {
  }

  /** Shifting neither invents elements nor breaks distinctness. */
  lemma ShiftShrinks<T>(s: seq<T>)
    ensures Elems(Shift(s)) <= Elems(s)
    ensures Distinct(s) ==> Distinct(Shift(s))
    ensures Distinct(s) && s != [] ==> Elems(Shift(s)) == Elems(s) - {s[0]}
  {
  }

  /** Pushing an element that is not yet there keeps the array duplicate-free. */
  lemma PushFresh<T>(s: seq<T>, x: T)
    requires Distinct(s) && x !in s
    ensures Distinct(s + [x]) && Elems(s + [x]) == Elems(s) + {x}
  {
  }

  /** `a.indexOf(x)` (and `a.includes(x)`, which is `x in a`): the first index holding x, or -1. */
  function IndexOf<T(==)>(s: seq<T>, x: T): (i: int)
    ensures -1 <= i < |s|
    ensures i == -1 <==> x !in s
    ensures 0 <= i ==> s[i] == x
    ensures forall j :: 0 <= j < i ==> s[j] != x
  {
    if s == [] then -1
    else if s[0] == x then 0
    else
      var j := IndexOf(s[1..], x);
      if j == -1 then -1 else j + 1
  }

  /** `pat` occurs in `s` starting at position k. */
  predicate OccursAt(s: string, pat: string, k: int)
  {
    0 <= k && k + |pat| <= |s| && s[k..k + |pat|] == pat
  }

  predicate Occurs(s: string, pat: string)
  {
    exists k :: 0 <= k <= |s| && OccursAt(s, pat, k)
  }

  /**
   * A prefix of s that holds no whole occurrence of pat inside s contains
   * no occurrence of pat of its own.
   */
  lemma PrefixWithoutOccurrence(s: string, pat: string, n: nat)
    requires n <= |s|
    requires forall k :: 0 <= k && k + |pat| <= n ==> !OccursAt(s, pat, k)
    ensures !Occurs(s[..n], pat)
  {
    if Occurs(s[..n], pat) {
      var k :| 0 <= k <= n && OccursAt(s[..n], pat, k);
      assert s[..n][k..k + |pat|] == s[k..k + |pat|];
      assert OccursAt(s, pat, k);
      assert false;
    }
  }

  /** `s.indexOf(pat)`: the first position where pat occurs, or -1. */
  function StringIndexOf(s: string, pat: string): (i: int)
    ensures i == -1 <==> !Occurs(s, pat)
    ensures i != -1 ==> OccursAt(s, pat, i)
    ensures forall k :: 0 <= k < i ==> !OccursAt(s, pat, k)
  {
    var i := IndexOfFrom(s, pat, 0);
    assert i == -1 ==> forall k :: !OccursAt(s, pat, k);
    i
  }

  /** The search behind StringIndexOf, starting at position `from`. */
  function IndexOfFrom(s: string, pat: string, from: nat): (i: int)
    ensures i == -1 || (from <= i && OccursAt(s, pat, i))
    ensures forall k :: from <= k && (i == -1 || k < i) ==> !OccursAt(s, pat, k)
    decreases |s| - from
  {
    if from + |pat| > |s| then -1
    else if s[from..from + |pat|] == pat then from
    else IndexOfFrom(s, pat, from + 1)
  }

  /** `s.slice(start, end)` with JavaScript's negative and out-of-range indexes. */
  function Slice<T>(s: seq<T>, start: int, end: int): (r: seq<T>)
    ensures 0 <= start <= end <= |s| ==> r == s[start..end]
    ensures |r| == if RelativeIndex(|s|, start) < RelativeIndex(|s|, end)
      then RelativeIndex(|s|, end) - RelativeIndex(|s|, start) else 0
    ensures forall j :: 0 <= j < |r| ==> r[j] == s[RelativeIndex(|s|, start) + j]
  {
    var from := RelativeIndex(|s|, start);
    var to := RelativeIndex(|s|, end);
    if from < to then s[from..to] else []
  }
}

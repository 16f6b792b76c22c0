/**
 * Sequence operations behind `Array.prototype.filter` and
 * `[...new Set(xs)]`, with the facts the views rely on.
 */
module Seqs {

  /** `sub` is `s` with some elements left out and the rest kept in order. */
  predicate IsSubseq<T(==)>(sub: seq<T>, s: seq<T>)
    decreases |s|
  {
    if sub == [] then true
    else if s == [] then false
    else (sub[0] == s[0] && IsSubseq(sub[1..], s[1..])) || IsSubseq(sub, s[1..])
  }

  /** Skipping one more element of the larger sequence keeps a subsequence. */
  lemma SubseqOfCons<T>(sub: seq<T>, x: T, s: seq<T>)
    requires IsSubseq(sub, s)
    ensures IsSubseq(sub, [x] + s)
  {
    assert ([x] + s)[1..] == s;
  }

  /**
   * `s.filter(keep)`: the elements `keep` accepts, each with its
   * multiplicity, in their original order.
   */
  function Filter<T(==,!new)>(s: seq<T>, keep: T -> bool): (r: seq<T>)
    ensures |r| <= |s|
    ensures IsSubseq(r, s)
    ensures forall x :: x in r <==> x in s && keep(x)
    ensures forall x :: multiset(r)[x] == if keep(x) then multiset(s)[x] else 0
    ensures (forall x :: x in s ==> keep(x)) ==> r == s
  {
    if s == [] then []
    else
      var rest := Filter(s[1..], keep);
      assert s == [s[0]] + s[1..];
      if keep(s[0]) then
        assert ([s[0]] + rest)[1..] == rest;
        [s[0]] + rest
      else
        SubseqOfCons(rest, s[0], s[1..]);
        rest
  }

  /** A filter that accepts less keeps a subsequence of what a looser one keeps. */
  lemma {:induction false} FilterMonotone<T(!new)>(s: seq<T>, strict: T -> bool, loose: T -> bool)
    requires forall x :: x in s && strict(x) ==> loose(x)
    ensures IsSubseq(Filter(s, strict), Filter(s, loose))
  {
    if s != [] {
      FilterMonotone(s[1..], strict, loose);
      var fs, fl := Filter(s[1..], strict), Filter(s[1..], loose);
      if strict(s[0]) {
        assert Filter(s, strict) == [s[0]] + fs;
        assert Filter(s, loose) == [s[0]] + fl;
        assert ([s[0]] + fs)[1..] == fs;
        assert ([s[0]] + fl)[1..] == fl;
      } else if loose(s[0]) {
        assert Filter(s, loose) == [s[0]] + fl;
        SubseqOfCons(fs, s[0], fl);
      }
    }
  }

  /** Filters that agree on every element keep the same elements. */
  lemma {:induction false} FilterCongruent<T(!new)>(s: seq<T>, p: T -> bool, q: T -> bool)
    requires forall x :: x in s ==> p(x) == q(x)
    ensures Filter(s, p) == Filter(s, q)
  {
    if s != [] {
      FilterCongruent(s[1..], p, q);
    }
  }

  /** No value occurs twice. */
  predicate Distinct<T(==)>(s: seq<T>)
  {
    forall i, j :: 0 <= i < j < |s| ==> s[i] != s[j]
  }

  /** `s.indexOf(x)` for a value that occurs in `s`. */
  function FirstIndex<T(==)>(s: seq<T>, x: T): (i: nat)
    requires x in s
    ensures i < |s| && s[i] == x && x !in s[..i]
  {
    if s[0] == x then 0
    else
      var i := 1 + FirstIndex(s[1..], x);
      assert s[..i] == [s[0]] + s[1..][..i - 1];
      i
  }

  /** Appending a value does not move the first occurrence of a value already present. */
  lemma {:induction false} FirstIndexAppend<T>(s: seq<T>, x: T, y: T)
    requires y in s
    ensures FirstIndex(s + [x], y) == FirstIndex(s, y)
  {
    if s[0] != y {
      assert (s + [x])[1..] == s[1..] + [x];
      FirstIndexAppend(s[1..], x, y);
    }
  }

  /** A value new to `s` occurs first at the position it is appended to. */
  lemma {:induction false} FirstIndexAppendNew<T>(s: seq<T>, x: T)
    requires x !in s
    ensures FirstIndex(s + [x], x) == |s|
  {
    if s != [] {
      assert (s + [x])[1..] == s[1..] + [x];
      FirstIndexAppendNew(s[1..], x);
    }
  }

  /**
   * The iteration order of a JavaScript `Set` built from `s`: each value
   * where it is first inserted, later duplicates ignored.
   */
  function InsertionOrder<T(==,!new)>(s: seq<T>): (r: seq<T>)
    ensures Distinct(r)
    ensures forall x :: x in r <==> x in s
    decreases |s|
  {
    if s == [] then []
    else
      var front := s[..|s| - 1];
      var seen := InsertionOrder(front);
      var x := s[|s| - 1];
      assert s == front + [x];
      if x in seen then seen else seen + [x]
  }

  /** The Set order is the order of the values' first occurrences in `s`. */
  lemma {:induction false} InsertionOrderFollowsFirstOccurrence<T(!new)>(s: seq<T>, i: int, j: int)
    requires 0 <= i < j < |InsertionOrder(s)|
    ensures InsertionOrder(s)[i] in s && InsertionOrder(s)[j] in s
    ensures FirstIndex(s, InsertionOrder(s)[i]) < FirstIndex(s, InsertionOrder(s)[j])
  {
    var r := InsertionOrder(s);
    var front := s[..|s| - 1];
    var x := s[|s| - 1];
    var seen := InsertionOrder(front);
    assert s == front + [x];
    assert r[i] in r && r[j] in r;
    if j < |seen| {
      assert r[i] == seen[i] && r[j] == seen[j];
      InsertionOrderFollowsFirstOccurrence(front, i, j);
      assert seen[i] in front && seen[j] in front;
      FirstIndexAppend(front, x, seen[i]);
      FirstIndexAppend(front, x, seen[j]);
    } else {
      assert x !in seen && r == seen + [x] && r[j] == x && r[i] == seen[i];
      assert seen[i] in seen;
      FirstIndexAppend(front, x, seen[i]);
      FirstIndexAppendNew(front, x);
    }
  }
}

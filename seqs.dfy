/**
 * Sequence helpers for the scans the source writes with `find`, `filter`,
 * `for ... break` and `sort`.
 */
module Seqs {
  import opened Wrappers

  /** Index of the first element satisfying `p` (`Array.prototype.findIndex`), if any. */
  function FirstIndex<T>(s: seq<T>, p: T -> bool): (r: Option<nat>)
    ensures r.Some? ==> r.value < |s| && p(s[r.value])
    ensures r.Some? ==> forall j :: 0 <= j < r.value ==> !p(s[j])
    ensures r.None? <==> forall j :: 0 <= j < |s| ==> !p(s[j])
  {
    if s == [] then None
    else if p(s[0]) then Some(0)
    else match FirstIndex(s[1..], p)
      case None => None
      case Some(k) => Some(k + 1)
  }

  /** A scan that stops at the first match, or runs to the end without one, agrees with `FirstIndex`. */
  lemma FirstIndexOfScan<T>(s: seq<T>, p: T -> bool, hit: Option<nat>)
    requires hit.Some? ==> hit.value < |s| && p(s[hit.value])
    requires forall j :: 0 <= j < |s| && (hit.None? || j < hit.value) ==> !p(s[j])
    ensures FirstIndex(s, p) == hit
  {
  }

  /** The elements satisfying `p`, in order (`Array.prototype.filter`). */
  function Filter<T>(s: seq<T>, p: T -> bool): (r: seq<T>)
    ensures |r| <= |s|
    ensures forall k :: 0 <= k < |r| ==> p(r[k])
  {
    if s == [] then [] else Filter(s[..|s| - 1], p) + (if p(s[|s| - 1]) then [s[|s| - 1]] else [])
  }

  lemma FilterElements<T>(s: seq<T>, p: T -> bool)
    ensures forall x :: x in Filter(s, p) <==> x in s && p(x)
  {
    if s != [] {
      FilterElements(s[..|s| - 1], p);
      assert s == s[..|s| - 1] + [s[|s| - 1]];
    }
  }

  lemma {:induction false} FilterAppend<T>(a: seq<T>, b: seq<T>, p: T -> bool)
    ensures Filter(a + b, p) == Filter(a, p) + Filter(b, p)
    decreases |b|
  {
    if b != [] {
      var b' := b[..|b| - 1];
      assert (a + b)[..|a + b| - 1] == a + b';
      FilterAppend(a, b', p);
    } else {
      assert a + b == a;
    }
  }

  lemma {:induction false} FilterNone<T>(s: seq<T>, p: T -> bool)
    requires forall k :: 0 <= k < |s| ==> !p(s[k])
    ensures Filter(s, p) == []
  {
    if s != [] {
      FilterNone(s[..|s| - 1], p);
    }
  }

  lemma {:induction false} FilterAll<T>(s: seq<T>, p: T -> bool)
    requires forall k :: 0 <= k < |s| ==> p(s[k])
    ensures Filter(s, p) == s
  {
    if s != [] {
      FilterAll(s[..|s| - 1], p);
    }
  }

  /** Exactly one of the three holds. */
  predicate OneOf(a: bool, b: bool, c: bool) {
    (a && !b && !c) || (!a && b && !c) || (!a && !b && c)
  }

  /** Filtering a sequence with one more element adds it at the end when it matches. */
  lemma FilterSnoc<T>(init: seq<T>, x: T, p: T -> bool)
    ensures Filter(init + [x], p) == Filter(init, p) + (if p(x) then [x] else [])
  {
    assert (init + [x])[..|init|] == init;
  }

  /** Three filters by classes that split the elements give back every element once. */
  lemma {:induction false} FilterPartition<T>(s: seq<T>, p: T -> bool, q: T -> bool, r: T -> bool)
    requires forall k :: 0 <= k < |s| ==> OneOf(p(s[k]), q(s[k]), r(s[k]))
    ensures multiset(Filter(s, p)) + multiset(Filter(s, q)) + multiset(Filter(s, r)) == multiset(s)
  {
    if s != [] {
      var init, x := s[..|s| - 1], s[|s| - 1];
      assert s == init + [x];
      FilterPartition(init, p, q, r);
      assert OneOf(p(x), q(x), r(x));
      FilterSnoc(init, x, p);
      FilterSnoc(init, x, q);
      FilterSnoc(init, x, r);
    }
  }

  /** The filtered sequence is empty exactly when nothing matches, and starts with the first match. */
  lemma {:induction false} FilterHead<T>(s: seq<T>, p: T -> bool)
    ensures Filter(s, p) == [] <==> FirstIndex(s, p).None?
    ensures Filter(s, p) != [] ==> Filter(s, p)[0] == s[FirstIndex(s, p).value]
  {
    if s != [] {
      var init := s[..|s| - 1];
      FilterHead(init, p);
      var fi := FirstIndex(init, p);
      var fs := FirstIndex(s, p);
      if fi.Some? {
        assert p(s[fi.value]);
        assert forall j :: 0 <= j < fi.value ==> s[j] == init[j];
        assert fs == fi;
      } else if p(s[|s| - 1]) {
        assert forall j :: 0 <= j < |s| - 1 ==> s[j] == init[j];
        assert fs == Some(|s| - 1);
      } else {
        assert forall j :: 0 <= j < |s| - 1 ==> s[j] == init[j];
      }
    }
  }

  predicate SortedUp(s: seq<real>) {
    forall i, j :: 0 <= i < j < |s| ==> s[i] <= s[j]
  }

  lemma SortedCons(h: real, t: seq<real>)
    requires SortedUp(t) && (t == [] || h <= t[0])
    ensures SortedUp([h] + t)
  {
    var r := [h] + t;
    forall i, j | 0 <= i < j < |r| ensures r[i] <= r[j] {
      if i == 0 {
        assert r[j] == t[j - 1] && t[0] <= t[j - 1];
      } else {
        assert r[i] == t[i - 1] && r[j] == t[j - 1];
      }
    }
  }

  /** Inserts `x` before the first element that is larger. */
  function InsertUp(x: real, s: seq<real>): (r: seq<real>)
    requires SortedUp(s)
    ensures SortedUp(r)
    ensures |r| == |s| + 1
    ensures multiset(r) == multiset(s) + multiset{x}
    ensures r[0] == x || (s != [] && r[0] == s[0])
  {
    if s == [] then [x]
    else if x <= s[0] then
      SortedCons(x, s);
      [x] + s
    else
      assert SortedUp(s[1..]) by { assert forall i :: 0 <= i < |s| - 1 ==> s[1..][i] == s[i + 1]; }
      var rest := InsertUp(x, s[1..]);
      assert multiset(s) == multiset{s[0]} + multiset(s[1..]) by { assert s == [s[0]] + s[1..]; }
      SortedCons(s[0], rest);
      [s[0]] + rest
  }

  /** Python's `list.sort()` on numbers, as an insertion sort. */
  function SortUp(s: seq<real>): (r: seq<real>)
    ensures SortedUp(r)
    ensures |r| == |s|
    ensures multiset(r) == multiset(s)
  {
    if s == [] then []
    else
      assert s == [s[0]] + s[1..];
      InsertUp(s[0], SortUp(s[1..]))
  }

  /** `[...s].reverse()`: a reversed copy. */
  function Reverse<T>(s: seq<T>): (r: seq<T>)
    ensures |r| == |s|
    ensures forall k :: 0 <= k < |s| ==> r[k] == s[|s| - 1 - k]
  {
    if s == [] then [] else Reverse(s[1..]) + [s[0]]
  }

  /** Reversing twice gives the original order back. */
  lemma ReverseInvolution<T>(s: seq<T>)
    ensures Reverse(Reverse(s)) == s
  {
    var r := Reverse(Reverse(s));
    assert forall k :: 0 <= k < |s| ==> r[k] == s[k];
  }
}

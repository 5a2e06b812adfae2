/** Shared vocabulary: optional values and duplicate-free sequences. */
module Basics {

  newtype byte = b: int | 0 <= b < 256
  type pos = n: nat | 0 < n witness 1

  datatype Option<+T> = None | Some(value: T)

  ghost predicate NoDup<T>(q: seq<T>) {
    forall i, j :: 0 <= i < j < |q| ==> q[i] != q[j]
  }

  /** Unlinks the first occurrence of x; a queue without x is returned as it is. */
  function Without<T(==)>(q: seq<T>, x: T): (r: seq<T>)
    ensures x !in q ==> r == q
    ensures x in q ==> |r| == |q| - 1
    ensures forall y :: y in r ==> y in q
    ensures forall y :: y in q && y != x ==> y in r
    ensures NoDup(q) ==> NoDup(r) && x !in r
  {
    if q == [] then []
    else if q[0] == x then
      assert q == [x] + q[1..];
      q[1..]
    else
      assert q == [q[0]] + q[1..];
      assert NoDup(q) ==> NoDup(q[1..]) && q[0] !in q[1..];
      var rest := Without(q[1..], x);
      assert NoDup(q) ==> q[0] !in rest;
      [q[0]] + rest
  }

  /** xs is obtained from ys by deleting entries, keeping the order of the rest. */
  ghost predicate IsSubsequence<T>(xs: seq<T>, ys: seq<T>) {
    || xs == []
    || (ys != [] && xs[|xs| - 1] == ys[|ys| - 1] && IsSubsequence(xs[..|xs| - 1], ys[..|ys| - 1]))
    || (ys != [] && IsSubsequence(xs, ys[..|ys| - 1]))
  }

  /** The entries for which p holds, in order. */
  function Filter<T>(xs: seq<T>, p: T -> bool): seq<T> {
    if xs == [] then []
    else Filter(xs[..|xs| - 1], p) + if p(xs[|xs| - 1]) then [xs[|xs| - 1]] else []
  }

  function Not<T>(p: T -> bool): T -> bool {
    x => !p(x)
  }

  /** It has just those. */
  lemma {:induction false} FilterHas<T>(xs: seq<T>, p: T -> bool)
    ensures forall x :: x in Filter(xs, p) <==> x in xs && p(x)
    decreases |xs|
  {
    if xs != [] {
      var n := |xs| - 1;
      FilterHas(xs[..n], p);
      assert xs == xs[..n] + [xs[n]];
    }
  }

  /** In the order in which xs has them. */
  lemma {:induction false} FilterInOrder<T>(xs: seq<T>, p: T -> bool)
    ensures IsSubsequence(Filter(xs, p), xs)
    decreases |xs|
  {
    if xs != [] {
      var n := |xs| - 1;
      FilterInOrder(xs[..n], p);
      var ys := Filter(xs, p);
      assert p(xs[n]) ==> ys[..|ys| - 1] == Filter(xs[..n], p);
      assert !p(xs[n]) ==> ys == Filter(xs[..n], p);
    }
  }

  /** As often: it and what it leaves out are as many as xs. */
  lemma {:induction false} FilterSplits<T>(xs: seq<T>, p: T -> bool)
    ensures |Filter(xs, p)| + |Filter(xs, Not(p))| == |xs|
    decreases |xs|
  {
    if xs != [] {
      var n := |xs| - 1;
      FilterSplits(xs[..n], p);
    }
  }

  /** All of xs when p always holds. */
  lemma {:induction false} FilterAll<T>(xs: seq<T>, p: T -> bool)
    requires forall x :: x in xs ==> p(x)
    ensures Filter(xs, p) == xs && Filter(xs, Not(p)) == []
    decreases |xs|
  {
    if xs != [] {
      var n := |xs| - 1;
      FilterAll(xs[..n], p);
      assert xs == xs[..n] + [xs[n]];
    }
  }

  lemma FilterNext<T>(xs: seq<T>, i: nat, p: T -> bool)
    requires i < |xs|
    ensures Filter(xs[..i + 1], p) == Filter(xs[..i], p) + if p(xs[i]) then [xs[i]] else []
  {
    assert xs[..i + 1][..i] == xs[..i];
  }

  lemma FilterGrows<T>(before: seq<T>, xs: seq<T>, i: nat, p: T -> bool)
    requires i < |xs|
    ensures before + Filter(xs[..i + 1], p) == before + Filter(xs[..i], p) + if p(xs[i]) then [xs[i]] else []
  {
    FilterNext(xs, i, p);
  }

  /** No finite set uses up the identities. */
  lemma FreshId(used: set<int>)
    ensures exists k :: k !in used
  {
    var top := Above(used);
    assert top !in used;
  }

  ghost function Above(used: set<int>): (top: int)
    ensures forall k :: k in used ==> k < top
  {
    if forall k :: k !in used then 0
    else
      var k :| k in used;
      var rest := Above(used - {k});
      assert used == used - {k} + {k};
      if k < rest then rest else k + 1
  }
}

/** Order-preserving selection from a list. */
module Filtering {

  /** The elements of `xs` that satisfy `p`, in order. */
  function Filter<T>(xs: seq<T>, p: T -> bool): seq<T> {
    if xs == [] then []
    else
      var n := |xs| - 1;
      if p(xs[n]) then Filter(xs[..n], p) + [xs[n]] else Filter(xs[..n], p)
  }

  lemma FilterOne<T>(xs: seq<T>, x: T, p: T -> bool)
    ensures Filter(xs + [x], p) == if p(x) then Filter(xs, p) + [x] else Filter(xs, p)
  {
    assert (xs + [x])[..|xs|] == xs;
  }

  /**
   * Selection said without recursion: the k-th element kept sits at position `at[k]` of the
   * input, the positions increase strictly, and they are exactly those where `p` holds.
   */
  ghost predicate KeepsExactly<T(!new)>(xs: seq<T>, p: T -> bool, ys: seq<T>, at: seq<int>) {
    && |at| == |ys|
    && (forall k :: 0 <= k < |at| ==> 0 <= at[k] < |xs| && xs[at[k]] == ys[k] && p(ys[k]))
    && (forall j, k :: 0 <= j < k < |at| ==> at[j] < at[k])
    && (forall i :: 0 <= i < |xs| && p(xs[i]) ==> i in at)
  }

  lemma {:induction false} FilterMembers<T>(xs: seq<T>, p: T -> bool, x: T)
    ensures x in Filter(xs, p) <==> x in xs && p(x)
  {
    if xs == [] {
    } else {
      var n := |xs| - 1;
      FilterMembers(xs[..n], p, x);
      assert xs == xs[..n] + [xs[n]];
    }
  }

  /** Tests that agree on the list select alike. */
  lemma {:induction false} FilterAlike<T>(xs: seq<T>, p: T -> bool, q: T -> bool)
    requires forall i :: 0 <= i < |xs| ==> p(xs[i]) == q(xs[i])
    ensures Filter(xs, p) == Filter(xs, q)
  {
    if xs == [] {
    } else {
      FilterAlike(xs[..|xs| - 1], p, q);
    }
  }

  /** `ys` contains what `xs` contains. */
  lemma Extended<T>(xs: seq<T>, y: T, x: T)
    requires x in xs || x == y
    ensures x in xs + [y]
  {
    assert (xs + [y])[|xs|] == y;
  }

  lemma KeepsLast<T(!new)>(xs: seq<T>, p: T -> bool, ys: seq<T>, at: seq<int>)
    requires xs != [] && p(xs[|xs| - 1])
    requires KeepsExactly(xs[..|xs| - 1], p, ys, at)
    ensures KeepsExactly(xs, p, ys + [xs[|xs| - 1]], at + [|xs| - 1])
  {
    var n := |xs| - 1;
    forall i | 0 <= i < |xs| && p(xs[i]) ensures i in at + [n] {
      if i < n {
        assert xs[..n][i] == xs[i];
      }
      Extended(at, n, i);
    }
  }

  lemma DropsLast<T(!new)>(xs: seq<T>, p: T -> bool, ys: seq<T>, at: seq<int>)
    requires xs != [] && !p(xs[|xs| - 1])
    requires KeepsExactly(xs[..|xs| - 1], p, ys, at)
    ensures KeepsExactly(xs, p, ys, at)
  {
    var n := |xs| - 1;
    forall i | 0 <= i < |xs| && p(xs[i]) ensures i in at {
      assert i < n && xs[..n][i] == xs[i];
    }
  }

  lemma {:induction false} FilterKeepsExactly<T(!new)>(xs: seq<T>, p: T -> bool) returns (at: seq<int>)
    ensures KeepsExactly(xs, p, Filter(xs, p), at)
  {
    if xs == [] {
      at := [];
    } else {
      var n := |xs| - 1;
      at := FilterKeepsExactly(xs[..n], p);
      if p(xs[n]) {
        KeepsLast(xs, p, Filter(xs[..n], p), at);
        at := at + [n];
      } else {
        DropsLast(xs, p, Filter(xs[..n], p), at);
      }
    }
  }
}

/**
 * `Array.prototype.filter` over an immutable sequence, and what it
 * guarantees: the result is exactly the kept elements, in their original
 * order and with their original multiplicities.
 */
module Sequences {

  /** `xs.filter(keep)`. */
  function FilterBy<T>(xs: seq<T>, keep: T -> bool): (r: seq<T>)
    ensures |r| <= |xs|
    ensures forall x :: x in r ==> x in xs && keep(x)
    ensures forall x :: x in xs && keep(x) ==> x in r
  {
    if xs == [] then []
    else
      var init, last := xs[..|xs| - 1], xs[|xs| - 1];
      assert xs == init + [last];
      var kept := FilterBy(init, keep);
      if keep(last) then kept + [last] else kept
  }

  /** The indices of `xs` whose element is kept, in increasing order. */
  function Positions<T>(xs: seq<T>, keep: T -> bool): (pos: seq<nat>)
    ensures forall k :: 0 <= k < |pos| ==> pos[k] < |xs|
  {
    if xs == [] then []
    else
      var n := |xs| - 1;
      var init := Positions(xs[..n], keep);
      if keep(xs[n]) then init + [n] else init
  }

  /** The indices kept by the filter increase strictly, and an index is
      among them exactly when its element passes `keep`. */
  lemma {:induction false} PositionsAreKeptIndices<T>(xs: seq<T>, keep: T -> bool)
    ensures var pos := Positions(xs, keep);
      && (forall k, l :: 0 <= k < l < |pos| ==> pos[k] < pos[l])
      && (forall i :: 0 <= i < |xs| ==> (keep(xs[i]) <==> i in pos))
  {
    if xs != [] {
      var n := |xs| - 1;
      var init := xs[..n];
      PositionsAreKeptIndices(init, keep);
      var pos0 := Positions(init, keep);
      assert n !in pos0;
      forall i | 0 <= i < n ensures xs[i] == init[i] && (i in Positions(xs, keep) <==> i in pos0) {
      }
    }
  }

  /** The k-th element of the result is the element of `xs` at the k-th
      kept index. */
  lemma {:induction false} FilterByAtPositions<T>(xs: seq<T>, keep: T -> bool)
    ensures var r, pos := FilterBy(xs, keep), Positions(xs, keep);
      && |pos| == |r|
      && (forall k :: 0 <= k < |pos| ==> r[k] == xs[pos[k]])
  {
    if xs != [] {
      var n := |xs| - 1;
      var init := xs[..n];
      FilterByAtPositions(init, keep);
      var r0, pos0 := FilterBy(init, keep), Positions(init, keep);
      forall k | 0 <= k < |pos0| ensures xs[pos0[k]] == init[pos0[k]] {
      }
    }
  }

  /** Order preservation: the result lists exactly the kept elements, in
      the order of their indices in `xs`. */
  lemma FilterBySelectsInOrder<T>(xs: seq<T>, keep: T -> bool)
    ensures var r, pos := FilterBy(xs, keep), Positions(xs, keep);
      && |pos| == |r|
      && (forall k :: 0 <= k < |pos| ==> r[k] == xs[pos[k]])
      && (forall k, l :: 0 <= k < l < |pos| ==> pos[k] < pos[l])
      && (forall i :: 0 <= i < |xs| ==> (keep(xs[i]) <==> i in pos))
  {
    PositionsAreKeptIndices(xs, keep);
    FilterByAtPositions(xs, keep);
  }

  /** Multiplicity: each kept value occurs as often as in `xs`, every other
      value not at all. */
  lemma {:induction false} FilterByCounts<T>(xs: seq<T>, keep: T -> bool, x: T)
    ensures multiset(FilterBy(xs, keep))[x] == if keep(x) then multiset(xs)[x] else 0
  {
    if xs != [] {
      var init, last := xs[..|xs| - 1], xs[|xs| - 1];
      assert xs == init + [last];
      FilterByCounts(init, keep, x);
    }
  }

  /** A sequence whose every element is kept passes through unchanged. */
  lemma {:induction false} FilterByKeepsAll<T>(xs: seq<T>, keep: T -> bool)
    requires forall x :: x in xs ==> keep(x)
    ensures FilterBy(xs, keep) == xs
  {
    if xs != [] {
      var init, last := xs[..|xs| - 1], xs[|xs| - 1];
      assert xs == init + [last];
      FilterByKeepsAll(init, keep);
    }
  }

  /** Filtering twice with the same test is filtering once. */
  lemma {:induction false} FilterByIdempotent<T>(xs: seq<T>, keep: T -> bool)
    ensures FilterBy(FilterBy(xs, keep), keep) == FilterBy(xs, keep)
  {
    FilterByKeepsAll(FilterBy(xs, keep), keep);
  }

  /** Two tests that agree on every element of `xs` filter it alike. */
  lemma {:induction false} FilterByExtensional<T>(xs: seq<T>, f: T -> bool, g: T -> bool)
    requires forall x :: x in xs ==> f(x) == g(x)
    ensures FilterBy(xs, f) == FilterBy(xs, g)
  {
    if xs != [] {
      var init, last := xs[..|xs| - 1], xs[|xs| - 1];
      assert xs == init + [last];
      FilterByExtensional(init, f, g);
    }
  }

  /** The result is empty exactly when no element is kept. */
  lemma FilterByEmptyIff<T>(xs: seq<T>, keep: T -> bool)
    ensures FilterBy(xs, keep) == [] <==> forall x :: x in xs ==> !keep(x)
  {
    if FilterBy(xs, keep) != [] {
      assert FilterBy(xs, keep)[0] in FilterBy(xs, keep);
    }
  }
}

/** Query helpers shared by every store in the backend: the `.filter(...).first()`
    and `.filter(...).all()` shapes of the SQL and Mongo queries, over a table
    held as a sequence in insertion order. */
module Seqs {

  datatype Option<T> = None | Some(value: T)

  /** Index of the first element that satisfies `p`, or None when there is none. */
  function FirstIndex<T>(xs: seq<T>, p: T -> bool): (r: Option<nat>)
    ensures r.Some? ==> r.value < |xs| && p(xs[r.value])
    ensures r.Some? ==> forall j :: 0 <= j < r.value ==> !p(xs[j])
    ensures r.None? ==> forall j :: 0 <= j < |xs| ==> !p(xs[j])
    decreases |xs|
  {
    if |xs| == 0 then None
    else if p(xs[0]) then Some(0)
    else match FirstIndex(xs[1..], p)
      case None => None
      case Some(i) => Some(i + 1)
  }

  /** The first element that satisfies `p`: what `.first()` returns. */
  function First<T>(xs: seq<T>, p: T -> bool): (r: Option<T>)
    ensures r.Some? ==> exists j :: 0 <= j < |xs| && xs[j] == r.value && p(r.value)
    ensures r.None? <==> forall j :: 0 <= j < |xs| ==> !p(xs[j])
  {
    match FirstIndex(xs, p)
    case None => None
    case Some(i) => Some(xs[i])
  }

  /** The elements that satisfy `p`, in their original order: what `.all()` returns. */
  function Filter<T>(xs: seq<T>, p: T -> bool): (r: seq<T>)
    ensures |r| <= |xs|
    ensures forall k :: 0 <= k < |r| ==> p(r[k])
    decreases |xs|
  {
    if |xs| == 0 then []
    else (if p(xs[0]) then [xs[0]] else []) + Filter(xs[1..], p)
  }

  /** Filtering distributes over concatenation; in particular appending one
      row changes a filtered count by at most one. */
  lemma {:induction false} FilterAppend<T>(xs: seq<T>, ys: seq<T>, p: T -> bool)
    ensures Filter(xs + ys, p) == Filter(xs, p) + Filter(ys, p)
    decreases |xs|
  {
    if |xs| == 0 {
      assert xs + ys == ys;
    } else {
      assert (xs + ys)[1..] == xs[1..] + ys;
      FilterAppend(xs[1..], ys, p);
    }
  }

  /** An element is kept by Filter exactly when it occurs in the input and satisfies `p`. */
  lemma {:induction false} FilterMembership<T>(xs: seq<T>, p: T -> bool, x: T)
    ensures x in Filter(xs, p) <==> x in xs && p(x)
    decreases |xs|
  {
    if |xs| > 0 {
      FilterMembership(xs[1..], p, x);
      assert xs == [xs[0]] + xs[1..];
    }
  }

  /** Filtering with a predicate that holds everywhere on the input changes nothing. */
  lemma {:induction false} FilterAll<T>(xs: seq<T>, p: T -> bool)
    requires forall k :: 0 <= k < |xs| ==> p(xs[k])
    ensures Filter(xs, p) == xs
    decreases |xs|
  {
    if |xs| > 0 {
      FilterAll(xs[1..], p);
      assert xs == [xs[0]] + xs[1..];
    }
  }

  /** Filtering with a predicate that holds nowhere on the input yields nothing. */
  lemma {:induction false} FilterNone<T>(xs: seq<T>, p: T -> bool)
    requires forall k :: 0 <= k < |xs| ==> !p(xs[k])
    ensures Filter(xs, p) == []
    decreases |xs|
  {
    if |xs| > 0 {
      FilterNone(xs[1..], p);
    }
  }

  /** Two predicates that agree on every element filter alike. */
  lemma {:induction false} FilterCongruent<T>(xs: seq<T>, p: T -> bool, q: T -> bool)
    requires forall k :: 0 <= k < |xs| ==> p(xs[k]) == q(xs[k])
    ensures Filter(xs, p) == Filter(xs, q)
    decreases |xs|
  {
    if |xs| > 0 {
      FilterCongruent(xs[1..], p, q);
    }
  }

  /** Replacing one element by another that `p` judges the same way leaves
      the filtered count unchanged. */
  lemma {:induction false} FilterCountUpdate<T>(xs: seq<T>, i: nat, y: T, p: T -> bool)
    requires i < |xs| && p(xs[i]) == p(y)
    ensures |Filter(xs[i := y], p)| == |Filter(xs, p)|
    decreases |xs|
  {
    if i > 0 {
      assert xs[i := y][1..] == xs[1..][i - 1 := y];
      FilterCountUpdate(xs[1..], i - 1, y, p);
    } else {
      assert xs[i := y][1..] == xs[1..];
    }
  }

  /** Appending rows does not change what `.first()` finds among the earlier ones. */
  lemma {:induction false} FirstIndexAppend<T>(xs: seq<T>, ys: seq<T>, p: T -> bool)
    requires FirstIndex(xs, p).Some?
    ensures FirstIndex(xs + ys, p) == FirstIndex(xs, p)
    ensures First(xs + ys, p) == First(xs, p)
    decreases |xs|
  {
    if !p(xs[0]) {
      assert (xs + ys)[1..] == xs[1..] + ys;
      FirstIndexAppend(xs[1..], ys, p);
    }
  }

  /** The first satisfying index is determined by the elements before it. */
  lemma FirstIndexIs<T>(xs: seq<T>, p: T -> bool, i: nat)
    requires i < |xs| && p(xs[i])
    requires forall j :: 0 <= j < i ==> !p(xs[j])
    ensures FirstIndex(xs, p) == Some(i)
  {
  }

  /** No index is found when no element satisfies the predicate. */
  lemma FirstIndexNone<T>(xs: seq<T>, p: T -> bool)
    requires forall j :: 0 <= j < |xs| ==> !p(xs[j])
    ensures FirstIndex(xs, p) == None
  {
  }
}

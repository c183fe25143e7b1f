/** The two orders in which a backtracking regex engine tries candidates, and
    the filter-and-map shape of a PHP `foreach` that appends selectively. */
module Search {
  import opened Wrappers

  /** The first success of `f` among lo, lo+1, ..., hi, tried in that order:
      how a lazy quantifier grows its match, and how the engine advances the
      start position of an unanchored pattern. */
  function First<X>(lo: nat, hi: nat, f: nat -> Option<X>): (r: Option<X>)
    ensures r.Some? <==> exists k :: lo <= k <= hi && f(k).Some?
    ensures r.Some? ==> exists k :: lo <= k <= hi && f(k) == r && forall j :: lo <= j < k ==> f(j).None?
    decreases hi + 1 - lo
  {
    if lo > hi then None
    else if f(lo).Some? then f(lo)
    else First(lo + 1, hi, f)
  }

  /** The first success of `f` among hi, hi-1, ..., lo, tried in that order:
      how a greedy quantifier gives back one character at a time. */
  function Last<X>(lo: nat, hi: nat, f: nat -> Option<X>): (r: Option<X>)
    ensures r.Some? <==> exists k :: lo <= k <= hi && f(k).Some?
    ensures r.Some? ==> exists k :: lo <= k <= hi && f(k) == r && forall j :: k < j <= hi ==> f(j).None?
    decreases hi
  {
    if hi < lo then None
    else if f(hi).Some? then f(hi)
    else if hi == lo then None
    else Last(lo, hi - 1, f)
  }

  /** `First` returns the candidate that succeeds before every other. */
  lemma FirstAt<X>(lo: nat, hi: nat, f: nat -> Option<X>, k: nat)
    requires lo <= k <= hi && f(k).Some?
    requires forall j :: lo <= j < k ==> f(j).None?
    ensures First(lo, hi, f) == f(k)
  {
  }

  /** `Last` returns the candidate that succeeds after every other. */
  lemma LastAt<X>(lo: nat, hi: nat, f: nat -> Option<X>, k: nat)
    requires lo <= k <= hi && f(k).Some?
    requires forall j :: k < j <= hi ==> f(j).None?
    ensures Last(lo, hi, f) == f(k)
  {
  }

  /** The elements `f` maps to a value, in order: a loop that appends
      `f($x)` whenever it is not null. */
  function FilterMap<A, B>(xs: seq<A>, f: A -> Option<B>): (r: seq<B>)
    ensures |r| <= |xs|
  {
    if xs == [] then [] else f(xs[0]).ToSeq() + FilterMap(xs[1..], f)
  }

  /** Filtering distributes over concatenation. */
  lemma {:induction false} FilterMapAppend<A, B>(xs: seq<A>, ys: seq<A>, f: A -> Option<B>)
    ensures FilterMap(xs + ys, f) == FilterMap(xs, f) + FilterMap(ys, f)
    decreases |xs|
  {
    if xs == [] {
      assert xs + ys == ys;
    } else {
      assert (xs + ys)[1..] == xs[1..] + ys;
      FilterMapAppend(xs[1..], ys, f);
    }
  }

  /** `FilterMap` keeps nothing exactly when `f` rejects every element. */
  lemma {:induction false} FilterMapEmpty<A, B>(xs: seq<A>, f: A -> Option<B>)
    ensures FilterMap(xs, f) == [] <==> forall i :: 0 <= i < |xs| ==> f(xs[i]).None?
    decreases |xs|
  {
    if xs != [] {
      FilterMapEmpty(xs[1..], f);
      assert forall i :: 1 <= i < |xs| ==> xs[i] == xs[1..][i - 1];
    }
  }

  /** Where each element of `FilterMap(xs, f)` comes from: every position of
      `xs` at which `f` succeeds, each once, in increasing order. */
  ghost function Kept<A, B>(xs: seq<A>, f: A -> Option<B>): (o: seq<nat>)
    ensures |o| == |FilterMap(xs, f)|
    ensures forall j :: 0 <= j < |o| ==> o[j] < |xs| && f(xs[o[j]]) == Some(FilterMap(xs, f)[j])
    ensures forall j, k :: 0 <= j < k < |o| ==> o[j] < o[k]
    ensures forall i :: 0 <= i < |xs| && f(xs[i]).Some? ==> i in o
  {
    assert xs[0..] == xs;
    KeptFromOrigins(xs, f, 0);
    KeptFrom(xs, f, 0)
  }

  /** The positions at or after `i` at which `f` succeeds, in increasing order. */
  ghost function KeptFrom<A, B>(xs: seq<A>, f: A -> Option<B>, i: nat): seq<nat>
    requires i <= |xs|
    decreases |xs| - i
  {
    if i == |xs| then []
    else (if f(xs[i]).Some? then [i] else []) + KeptFrom(xs, f, i + 1)
  }

  lemma {:induction false} KeptFromOrigins<A, B>(xs: seq<A>, f: A -> Option<B>, i: nat)
    requires i <= |xs|
    ensures var o, r := KeptFrom(xs, f, i), FilterMap(xs[i..], f);
      && |o| == |r|
      && (forall j :: 0 <= j < |o| ==> i <= o[j] < |xs| && f(xs[o[j]]) == Some(r[j]))
      && (forall j, k :: 0 <= j < k < |o| ==> o[j] < o[k])
      && (forall k :: i <= k < |xs| && f(xs[k]).Some? ==> k in o)
    decreases |xs| - i
  {
    if i < |xs| {
      KeptFromOrigins(xs, f, i + 1);
      KeptFromStep(xs, f, i);
    }
  }

  lemma KeptFromStep<A, B>(xs: seq<A>, f: A -> Option<B>, i: nat)
    requires i < |xs|
    requires var o, r := KeptFrom(xs, f, i + 1), FilterMap(xs[i + 1..], f);
      && |o| == |r|
      && (forall j :: 0 <= j < |o| ==> i + 1 <= o[j] < |xs| && f(xs[o[j]]) == Some(r[j]))
      && (forall j, k :: 0 <= j < k < |o| ==> o[j] < o[k])
      && (forall k :: i + 1 <= k < |xs| && f(xs[k]).Some? ==> k in o)
    ensures var o, r := KeptFrom(xs, f, i), FilterMap(xs[i..], f);
      && |o| == |r|
      && (forall j :: 0 <= j < |o| ==> i <= o[j] < |xs| && f(xs[o[j]]) == Some(r[j]))
      && (forall j, k :: 0 <= j < k < |o| ==> o[j] < o[k])
      && (forall k :: i <= k < |xs| && f(xs[k]).Some? ==> k in o)
  {
    var o, r := KeptFrom(xs, f, i), FilterMap(xs[i..], f);
    var o', r' := KeptFrom(xs, f, i + 1), FilterMap(xs[i + 1..], f);
    assert xs[i..][1..] == xs[i + 1..];
    assert r == f(xs[i]).ToSeq() + r';
    if f(xs[i]).Some? {
      assert o == [i] + o';
      assert r == [f(xs[i]).value] + r';
    } else {
      assert o == o' && r == r';
    }
  }

  /** A filter that keeps no more than another keeps fewer elements. */
  lemma {:induction false} FilterMapFewer<A, B, C>(xs: seq<A>, f: A -> Option<B>, g: A -> Option<C>)
    requires forall x :: f(x).Some? ==> g(x).Some?
    ensures |FilterMap(xs, f)| <= |FilterMap(xs, g)|
    decreases |xs|
  {
    if xs != [] {
      FilterMapFewer(xs[1..], f, g);
    }
  }
}

/** Filters and maps over sequences, as the services' queries and `map` calls use them. */
module Sequences {

  /** The elements satisfying `p`, in their original order. */
  function Filter<T>(p: T -> bool, xs: seq<T>): seq<T> {
    if xs == [] then []
    else
      var n := |xs| - 1;
      Filter(p, xs[..n]) + (if p(xs[n]) then [xs[n]] else [])
  }

  function Map<A, B>(f: A -> B, xs: seq<A>): (r: seq<B>)
    ensures |r| == |xs|
    ensures forall k :: 0 <= k < |xs| ==> r[k] == f(xs[k])
  {
    seq(|xs|, k requires 0 <= k < |xs| => f(xs[k]))
  }

  lemma FilterAppend<T>(p: T -> bool, xs: seq<T>, x: T)
    ensures Filter(p, xs + [x]) == Filter(p, xs) + (if p(x) then [x] else [])
  {
    assert (xs + [x])[..|xs|] == xs;
  }

  lemma {:induction false} FilterConcat<T>(p: T -> bool, xs: seq<T>, ys: seq<T>)
    ensures Filter(p, xs + ys) == Filter(p, xs) + Filter(p, ys)
  {
    if ys == [] {
      assert xs + ys == xs;
    } else {
      var n := |ys| - 1;
      FilterConcat(p, xs, ys[..n]);
      FilterAppend(p, xs + ys[..n], ys[n]);
      assert xs + ys == (xs + ys[..n]) + [ys[n]];
    }
  }

  lemma {:induction false} FilterMember<T>(p: T -> bool, xs: seq<T>, x: T)
    ensures x in Filter(p, xs) <==> x in xs && p(x)
  {
    if xs != [] {
      var n := |xs| - 1;
      FilterMember(p, xs[..n], x);
      assert xs == xs[..n] + [xs[n]];
    }
  }

  /** A filter is empty exactly when nothing satisfies the predicate. */
  lemma FilterEmpty<T>(p: T -> bool, xs: seq<T>)
    ensures Filter(p, xs) == [] <==> forall x :: x in xs ==> !p(x)
  {
    forall x | x in xs && p(x)
      ensures Filter(p, xs) != []
    {
      FilterMember(p, xs, x);
    }
    if Filter(p, xs) != [] {
      FilterMember(p, xs, Filter(p, xs)[0]);
    }
  }

  /** Filtering twice can only shrink what another filter selects. */
  lemma {:induction false} FilterShrinks<T>(p: T -> bool, q: T -> bool, xs: seq<T>)
    ensures |Filter(p, Filter(q, xs))| <= |Filter(p, xs)|
  {
    if xs != [] {
      var n := |xs| - 1;
      FilterShrinks(p, q, xs[..n]);
      if q(xs[n]) {
        FilterAppend(p, Filter(q, xs[..n]), xs[n]);
      }
      assert q(xs[n]) || Filter(q, xs) == Filter(q, xs[..n]);
    }
  }

  /** If `q` accepts everything `p` accepts in `xs`, filtering by `q` first loses nothing. */
  lemma {:induction false} FilterThrough<T>(p: T -> bool, q: T -> bool, xs: seq<T>)
    requires forall x :: x in xs && p(x) ==> q(x)
    ensures Filter(p, Filter(q, xs)) == Filter(p, xs)
  {
    if xs != [] {
      var n := |xs| - 1;
      FilterThrough(p, q, xs[..n]);
      if q(xs[n]) {
        FilterAppend(p, Filter(q, xs[..n]), xs[n]);
      }
      assert q(xs[n]) || Filter(q, xs) == Filter(q, xs[..n]);
    }
  }

  /** Replacing one element changes how many satisfy `p` by at most that element. */
  lemma {:induction false} CountUpdate<T>(p: T -> bool, xs: seq<T>, n: nat, x: T)
    requires n < |xs|
    ensures |Filter(p, xs[n := x])|
         == |Filter(p, xs)| - (if p(xs[n]) then 1 else 0) + (if p(x) then 1 else 0)
  {
    var m := |xs| - 1;
    if n == m {
      assert xs[n := x][..m] == xs[..m];
    } else {
      assert xs[n := x][..m] == xs[..m][n := x];
      CountUpdate(p, xs[..m], n, x);
    }
  }

  lemma {:induction false} FilterSame<T>(p: T -> bool, q: T -> bool, xs: seq<T>)
    requires forall x :: x in xs ==> (p(x) <==> q(x))
    ensures Filter(p, xs) == Filter(q, xs)
  {
    if xs != [] {
      FilterSame(p, q, xs[..|xs| - 1]);
      assert xs[|xs| - 1] in xs;
    }
  }

  /** The first element a filter keeps is the first that satisfies the predicate. */
  lemma {:induction false} FirstKept<T>(p: T -> bool, xs: seq<T>, k: nat)
    requires k < |xs| && p(xs[k]) && forall j :: 0 <= j < k ==> !p(xs[j])
    ensures Filter(p, xs) != [] && Filter(p, xs)[0] == xs[k]
  {
    var n := |xs| - 1;
    if k < n {
      FirstKept(p, xs[..n], k);
    } else {
      assert Filter(p, xs[..n]) == [] by {
        FilterEmpty(p, xs[..n]);
      }
    }
  }

  lemma {:induction false} SomeFirst<T>(p: T -> bool, xs: seq<T>) returns (k: nat)
    requires exists x :: x in xs && p(x)
    ensures k < |xs| && p(xs[k]) && forall j :: 0 <= j < k ==> !p(xs[j])
  {
    var n := |xs| - 1;
    if exists x :: x in xs[..n] && p(x) {
      k := SomeFirst(p, xs[..n]);
    } else {
      k := n;
      assert forall j :: 0 <= j < n ==> xs[j] in xs[..n];
    }
  }
}

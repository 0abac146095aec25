/** Counting and measuring the entries of a sequence that changes one entry at a time. */
module Counting {

  function Where<T>(xs: seq<T>, p: T -> bool): set<nat> {
    set i: nat | i < |xs| && p(xs[i])
  }

  lemma WhereUpdate<T>(xs: seq<T>, i: nat, x: T, p: T -> bool)
    requires i < |xs|
    ensures Where(xs[i := x], p) == if p(x) then Where(xs, p) + {i} else Where(xs, p) - {i}
    ensures |Where(xs[i := x], p)| == |Where(xs, p)| - (if p(xs[i]) then 1 else 0) + (if p(x) then 1 else 0)
  {
    var a, b := Where(xs, p), Where(xs[i := x], p);
    assert b == if p(x) then a + {i} else a - {i};
    assert i in a <==> p(xs[i]);
  }

  function Total<T>(xs: seq<T>, f: T -> nat): nat {
    if xs == [] then 0 else f(xs[0]) + Total(xs[1..], f)
  }

  lemma {:induction false} TotalUpdate<T>(xs: seq<T>, i: nat, x: T, f: T -> nat)
    requires i < |xs|
    ensures Total(xs[i := x], f) == Total(xs, f) - f(xs[i]) + f(x)
  {
    if i == 0 {
      assert xs[0 := x][1..] == xs[1..];
    } else {
      assert xs[i := x][1..] == xs[1..][i - 1 := x];
      TotalUpdate(xs[1..], i - 1, x, f);
    }
  }

  lemma {:induction false} SubsetSize<T>(a: set<T>, b: set<T>)
    requires a <= b
    ensures |a| <= |b|
  {
    if a != {} {
      var x :| x in a;
      SubsetSize(a - {x}, b - {x});
    }
  }

  predicate Any<T>(x: T) {
    true
  }

  lemma {:induction false} WhereAny<T>(xs: seq<T>)
    ensures |Where(xs, Any)| == |xs|
  {
    if xs == [] {
      assert Where(xs, Any) == {};
    } else {
      var n, init := |xs| - 1, xs[..|xs| - 1];
      WhereAny(init);
      assert Where(xs, Any) == Where(init, Any) + {n};
    }
  }

  function PlacesOf<T(==)>(xs: seq<T>, x: T): set<nat> {
    set i: nat | i < |xs| && xs[i] == x
  }

  /** How often `x` occurs is at how many places it does. */
  lemma {:induction false} OccurrencesAre<T>(xs: seq<T>, x: T)
    ensures multiset(xs)[x] == |PlacesOf(xs, x)|
  {
    if xs == [] {
      assert PlacesOf(xs, x) == {};
    } else {
      var n, init := |xs| - 1, xs[..|xs| - 1];
      OccurrencesAre(init, x);
      assert xs == init + [xs[n]];
      assert PlacesOf(xs, x) == PlacesOf(init, x) + if xs[n] == x then {n} else {};
    }
  }

  /** A set that maps one-to-one into another has no more elements. */
  lemma {:induction false} ImageSize<A(!new), B>(a: set<A>, b: set<B>, h: A -> B)
    requires forall x | x in a :: h(x) in b
    requires forall x, y | x in a && y in a && x != y :: h(x) != h(y)
    ensures |a| <= |b|
  {
    if a != {} {
      var x :| x in a;
      ImageSize(a - {x}, b - {h(x)}, h);
    }
  }

  lemma {:induction false} BelowSize(a: set<nat>, n: nat)
    requires forall x | x in a :: x < n
    ensures |a| <= n
  {
    if n == 0 {
      assert a == {};
    } else {
      BelowSize(a - {n - 1}, n - 1);
    }
  }
}

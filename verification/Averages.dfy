/** shared/utils/math.go: the mean every stored average rests on. */
module Averages {
  import opened Wrappers

  function Sum(xs: seq<real>): real {
    if xs == [] then 0.0 else Sum(xs[..|xs| - 1]) + xs[|xs| - 1]
  }

  function IntSum(xs: seq<int>): int {
    if xs == [] then 0 else xs[0] + IntSum(xs[1..])
  }

  /** The mean; None is Go's NaN, which only the empty slice gives. */
  function Mean(xs: seq<real>): Option<real> {
    if xs == [] then None else Some(Sum(xs) / |xs| as real)
  }

  /** Average of a slice, dividing by its length also when that is zero (NaN). */
  method GetSliceAvg(slice: seq<real>) returns (avg: Option<real>)
    ensures avg == Mean(slice)
    ensures avg.None? <==> slice == []
    ensures avg.Some? ==> avg.value * |slice| as real == Sum(slice)
  {
    var total := 0.0;
    for i := 0 to |slice|
      invariant total == Sum(slice[..i])
    {
      assert slice[..i + 1][..i] == slice[..i];
      total := total + slice[i];
    }
    assert slice[..|slice|] == slice;
    avg := if |slice| == 0 then None else Some(total / |slice| as real);
    if |slice| > 0 {
      DivideMultiply(total, |slice| as real);
    }
  }

  lemma DivideMultiply(x: real, d: real)
    requires d != 0.0
    ensures x / d * d == x
  {
  }

  lemma {:induction false} SumAppend(xs: seq<real>, ys: seq<real>)
    ensures Sum(xs + ys) == Sum(xs) + Sum(ys)
  {
    if ys == [] {
      assert xs + ys == xs;
    } else {
      SumAppend(xs, ys[..|ys| - 1]);
      assert (xs + ys)[..|xs + ys| - 1] == xs + ys[..|ys| - 1];
    }
  }

  lemma MeanTimesCount(xs: seq<real>)
    requires xs != []
    ensures Mean(xs).value * |xs| as real == Sum(xs)
  {
    DivideMultiply(Sum(xs), |xs| as real);
  }
}

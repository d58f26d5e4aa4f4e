/**
  Exact-arithmetic versions of the two reductions the dashboard applies to
  scores: Python's `sum(...) / len(...)` in analyze_sentiment and the pandas
  `mean` of the news view. Floating-point rounding is not modelled.
 */
module Stats {

  /** The sum of a sequence of reals, defined from the front. */
  function Sum(xs: seq<real>): real
  {
    if |xs| == 0 then 0.0 else xs[0] + Sum(xs[1..])
  }

  /** Python's `sum(xs, start)`: starting from `acc`, add the elements one at
      a time from the left. It agrees with `Sum`, so `sum(xs)` (start 0) is
      `Sum(xs)`. */
  function SumFrom(acc: real, xs: seq<real>): (r: real)
    ensures r == acc + Sum(xs)
    decreases |xs|
  {
    if |xs| == 0 then acc else SumFrom(acc + xs[0], xs[1..])
  }

  /** The arithmetic mean of a non-empty sequence: the one value whose
      |xs|-fold multiple is the sum. */
  function Mean(xs: seq<real>): (m: real)
    requires |xs| > 0
    ensures m * (|xs| as real) == Sum(xs)
  {
    Sum(xs) / (|xs| as real)
  }

  /** Every element of `xs` is at most `hi`. */
  predicate AllAtMost(xs: seq<real>, hi: real)
  {
    forall i :: 0 <= i < |xs| ==> xs[i] <= hi
  }

  /** Every element of `xs` is at least `lo`. */
  predicate AllAtLeast(xs: seq<real>, lo: real)
  {
    forall i :: 0 <= i < |xs| ==> lo <= xs[i]
  }

  /** A sum of n values, none above hi, is at most n * hi. */
  lemma {:induction false} SumAtMost(xs: seq<real>, hi: real)
    requires AllAtMost(xs, hi)
    ensures Sum(xs) <= (|xs| as real) * hi
  {
    if |xs| > 0 {
      var rest := xs[1..];
      assert AllAtMost(rest, hi) by {
        forall i | 0 <= i < |rest| ensures rest[i] <= hi {
          assert rest[i] == xs[i + 1];
        }
      }
      SumAtMost(rest, hi);
      assert (|xs| as real) * hi == hi + (|rest| as real) * hi;
    }
  }

  /** A sum of n values, none below lo, is at least n * lo. */
  lemma {:induction false} SumAtLeast(xs: seq<real>, lo: real)
    requires AllAtLeast(xs, lo)
    ensures (|xs| as real) * lo <= Sum(xs)
  {
    if |xs| > 0 {
      var rest := xs[1..];
      assert AllAtLeast(rest, lo) by {
        forall i | 0 <= i < |rest| ensures lo <= rest[i] {
          assert rest[i] == xs[i + 1];
        }
      }
      SumAtLeast(rest, lo);
      assert (|xs| as real) * lo == lo + (|rest| as real) * lo;
    }
  }

  /** The mean of values none of which exceeds hi does not exceed hi. */
  lemma MeanAtMost(xs: seq<real>, hi: real)
    requires |xs| > 0
    requires AllAtMost(xs, hi)
    ensures Mean(xs) <= hi
  {
    SumAtMost(xs, hi);
  }

  /** The mean of values none of which is below lo is not below lo. */
  lemma MeanAtLeast(xs: seq<real>, lo: real)
    requires |xs| > 0
    requires AllAtLeast(xs, lo)
    ensures lo <= Mean(xs)
  {
    SumAtLeast(xs, lo);
  }

  /** The mean of values from [lo, hi] lies in [lo, hi]. */
  lemma MeanBounds(xs: seq<real>, lo: real, hi: real)
    requires |xs| > 0
    requires AllAtLeast(xs, lo) && AllAtMost(xs, hi)
    ensures lo <= Mean(xs) <= hi
  {
    MeanAtLeast(xs, lo);
    MeanAtMost(xs, hi);
  }
}

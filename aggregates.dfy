/**
 * The figures the dashboard and the reports page derive from their series:
 * a `reduce` sum, and `Math.round(sum / length)` as a rounded mean.
 */
module Aggregates {
  import opened Wrappers

  /** `xs.reduce((sum, x) => sum + x, 0)`. */
  function Sum(xs: seq<int>): int {
    if xs == [] then 0 else Sum(xs[..|xs| - 1]) + xs[|xs| - 1]
  }

  /** Summing one more term of a series. */
  lemma SumStep(xs: seq<int>, k: nat)
    requires k < |xs|
    ensures Sum(xs[..k + 1]) == Sum(xs[..k]) + xs[k]
  {
    assert xs[..k + 1][..k] == xs[..k];
  }

  /**
   * `Math.round(s / n)` for a positive count: the integer nearest to `s / n`,
   * halves rounded up.
   */
  function RoundDiv(s: int, n: int): (r: int)
    requires n > 0
    ensures n * (2 * r - 1) <= 2 * s < n * (2 * r + 1)
  {
    var q := (2 * s + n) / (2 * n);
    assert 2 * s + n == (2 * n) * q + (2 * s + n) % (2 * n);
    q
  }

  /** The rounded mean of a series; `None` for an empty one, where the page shows NaN. */
  function RoundedMean(xs: seq<int>): (r: Option<int>)
    ensures r.Some? <==> xs != []
    ensures xs != [] ==> |xs| * (2 * r.value - 1) <= 2 * Sum(xs) < |xs| * (2 * r.value + 1)
  {
    if xs == [] then None else Some(RoundDiv(Sum(xs), |xs|))
  }

  /** The rounding bound of `RoundedMean`, for a value already known to be its result. */
  lemma RoundedMeanBounds(xs: seq<int>, n: int, r: int)
    requires xs != [] && n == |xs| && r == RoundedMean(xs).value
    ensures n * (2 * r - 1) <= 2 * Sum(xs) < n * (2 * r + 1)
  {
  }

  function Min(xs: seq<int>): (m: int)
    requires xs != []
    ensures m in xs && forall k :: 0 <= k < |xs| ==> m <= xs[k]
  {
    if |xs| == 1 then xs[0]
    else
      var m := Min(xs[..|xs| - 1]);
      assert forall k :: 0 <= k < |xs| - 1 ==> xs[..|xs| - 1][k] == xs[k];
      if xs[|xs| - 1] < m then xs[|xs| - 1] else m
  }

  function Max(xs: seq<int>): (m: int)
    requires xs != []
    ensures m in xs && forall k :: 0 <= k < |xs| ==> xs[k] <= m
  {
    if |xs| == 1 then xs[0]
    else
      var m := Max(xs[..|xs| - 1]);
      assert forall k :: 0 <= k < |xs| - 1 ==> xs[..|xs| - 1][k] == xs[k];
      if xs[|xs| - 1] > m then xs[|xs| - 1] else m
  }

  /** A sum lies between `n` times the smallest and `n` times the largest term. */
  lemma {:induction false} SumBetween(xs: seq<int>, lo: int, hi: int)
    requires forall k :: 0 <= k < |xs| ==> lo <= xs[k] <= hi
    ensures |xs| * lo <= Sum(xs) <= |xs| * hi
    decreases |xs|
  {
    if xs != [] {
      var init, n := xs[..|xs| - 1], |xs| - 1;
      assert forall k :: 0 <= k < |init| ==> init[k] == xs[k];
      SumBetween(init, lo, hi);
      assert Sum(xs) == Sum(init) + xs[n];
      assert |xs| * lo == n * lo + lo && |xs| * hi == n * hi + hi;
    }
  }

  /** `a * n < b * n` with `n > 0` forces `a < b`. */
  lemma {:induction false} CancelPositive(n: nat, a: int, b: int)
    requires n > 0 && n * a < n * b
    ensures a < b
    decreases n
  {
    if n > 1 {
      if a >= b {
        assert n * a == (n - 1) * a + a;
        assert n * b == (n - 1) * b + b;
        CancelPositive(n - 1, a, b);
      }
    }
  }

  /** A rounding of `s / n` cannot exceed a bound `m` with `s <= n * m`. */
  lemma RoundedAtMost(n: nat, s: int, r: int, m: int)
    requires n > 0 && n * (2 * r - 1) <= 2 * s && s <= n * m
    ensures r <= m
  {
    assert n * (2 * m + 1) == 2 * (n * m) + n;
    CancelPositive(n, 2 * r - 1, 2 * m + 1);
  }

  /** A rounding of `s / n` cannot fall below a bound `m` with `n * m <= s`. */
  lemma RoundedAtLeast(n: nat, s: int, r: int, m: int)
    requires n > 0 && 2 * s < n * (2 * r + 1) && n * m <= s
    ensures m <= r
  {
    assert n * (2 * m - 1) == 2 * (n * m) - n;
    CancelPositive(n, 2 * m - 1, 2 * r + 1);
  }

  /** The rounded mean of a non-empty series lies between its smallest and largest term. */
  lemma MeanWithinRange(xs: seq<int>)
    requires xs != []
    ensures Min(xs) <= RoundedMean(xs).value <= Max(xs)
  {
    SumBetween(xs, Min(xs), Max(xs));
    RoundedAtMost(|xs|, Sum(xs), RoundedMean(xs).value, Max(xs));
    RoundedAtLeast(|xs|, Sum(xs), RoundedMean(xs).value, Min(xs));
  }

  /** With no negative terms, every term is at most the sum. */
  lemma {:induction false} TermAtMostSum(xs: seq<int>, k: nat)
    requires forall j :: 0 <= j < |xs| ==> 0 <= xs[j]
    requires k < |xs|
    ensures xs[k] <= Sum(xs)
    decreases |xs|
  {
    var init := xs[..|xs| - 1];
    SumBetween(init, 0, Max(xs));
    if k < |xs| - 1 {
      TermAtMostSum(init, k);
    }
  }
}

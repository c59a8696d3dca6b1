/** `Math.max(...s)`, `Math.min(...s)` and the mean of a non-empty list of
    amounts, and how they bound one another: the figures the salary report,
    the salary statistics and the projections print. */
module Aggregates {
  import opened Common

  /** `Math.max(...s)` */
  function Max(s: seq<real>): (m: real)
    requires |s| > 0
    ensures forall i :: 0 <= i < |s| ==> s[i] <= m
    ensures m in s
  {
    if |s| == 1 then s[0]
    else
      var m' := Max(s[..|s| - 1]);
      if s[|s| - 1] > m' then s[|s| - 1] else m'
  }

  /** `Math.min(...s)` */
  function Min(s: seq<real>): (m: real)
    requires |s| > 0
    ensures forall i :: 0 <= i < |s| ==> m <= s[i]
    ensures m in s
  {
    if |s| == 1 then s[0]
    else
      var m' := Min(s[..|s| - 1]);
      if s[|s| - 1] < m' then s[|s| - 1] else m'
  }

  /** `reduce((a, b) => a + b, 0) / s.length` */
  function Mean(s: seq<real>): real
    requires |s| > 0
  {
    Sum(s) / (|s| as real)
  }

  lemma {:induction false} SumAppend(s: seq<real>, t: seq<real>)
    ensures Sum(s + t) == Sum(s) + Sum(t)
    decreases |t|
  {
    if t != [] {
      assert (s + t)[..|s + t| - 1] == s + t[..|t| - 1];
      SumAppend(s, t[..|t| - 1]);
    } else {
      assert s + t == s;
    }
  }

  /** A sum lies between `n` times the least and `n` times the greatest
      of its `n` terms, whatever bounds are taken. */
  lemma {:induction false} SumBetween(s: seq<real>, lo: real, hi: real)
    requires forall i :: 0 <= i < |s| ==> lo <= s[i] <= hi
    ensures (|s| as real) * lo <= Sum(s) <= (|s| as real) * hi
  {
    if s != [] {
      SumBetween(s[..|s| - 1], lo, hi);
    }
  }

  /** A total between `n` times two bounds has its `n`-th part between
      the bounds. */
  lemma PartBetween(total: real, n: real, lo: real, hi: real)
    requires n > 0.0 && n * lo <= total <= n * hi
    ensures lo <= total / n <= hi
  {
    assert total / n - lo == (total - n * lo) / n;
    assert hi - total / n == (n * hi - total) / n;
  }

  lemma MeanTimesCount(s: seq<real>)
    requires |s| > 0
    ensures Sum(s) == Mean(s) * (|s| as real)
  {
    var n, total := |s| as real, Sum(s);
    assert Mean(s) == total / n;
    Cancel(total, n);
  }

  lemma Cancel(total: real, n: real)
    requires n > 0.0
    ensures total == (total / n) * n
  {
  }

  /** Least, mean and greatest of a non-empty list come in that order, and
      the sum is the mean times the count. */
  lemma MeanBetween(s: seq<real>)
    requires |s| > 0
    ensures Min(s) <= Mean(s) <= Max(s)
    ensures Sum(s) == Mean(s) * (|s| as real)
  {
    MeanWithin(s, Min(s), Max(s));
    MeanTimesCount(s);
  }

  /** Bounds on every term bound the mean. */
  lemma MeanWithin(s: seq<real>, lo: real, hi: real)
    requires |s| > 0
    requires forall i :: 0 <= i < |s| ==> lo <= s[i] <= hi
    ensures lo <= Mean(s) <= hi
  {
    SumBetween(s, lo, hi);
    PartBetween(Sum(s), |s| as real, lo, hi);
  }

  /** A sum of non-negative terms is non-negative. */
  lemma SumNonNegative(s: seq<real>)
    requires forall i :: 0 <= i < |s| ==> s[i] >= 0.0
    ensures Sum(s) >= 0.0
  {
    SumBetween(s, 0.0, 0.0 + (if |s| == 0 then 0.0 else Max(s)));
  }
}

// Sums, powers and extrema over real-valued series: the iterator folds the
// indicator code is written with, and the facts about them it relies on.
module Series {
  import opened Reals

  function Max(x: real, y: real): real { if x > y then x else y }

  function Min(x: real, y: real): real { if x < y then x else y }

  function Abs(x: real): real { if x < 0.0 then -x else x }

  /** Rust's `f64::round`: to the nearest integer, halves away from zero. */
  function Round(x: real): int {
    if x >= 0.0 then (x + 0.5).Floor else -((-x + 0.5).Floor)
  }

  /** s[lo] + ... + s[hi - 1] */
  function Sum(s: seq<real>, lo: nat, hi: nat): real
    requires lo <= hi <= |s|
  {
    if lo == hi then 0.0 else Sum(s, lo, hi - 1) + s[hi - 1]
  }

  /** The mean of the `n` elements from s[lo] on. */
  function Mean(s: seq<real>, lo: nat, n: nat): real
    requires n >= 1 && lo + n <= |s|
  {
    Sum(s, lo, lo + n) / n as real
  }

  /** What each percentage lacks to 100. */
  function Complements(s: seq<real>): (t: seq<real>)
    ensures |t| == |s| && forall i :: 0 <= i < |s| ==> t[i] == 100.0 - s[i]
  {
    seq(|s|, i requires 0 <= i < |s| => 100.0 - s[i])
  }

  function Pow(b: real, e: nat): real {
    if e == 0 then 1.0 else b * Pow(b, e - 1)
  }

  lemma {:induction false} PowBounds(b: real, e: nat)
    requires 0.0 <= b <= 1.0
    ensures 0.0 <= Pow(b, e) <= 1.0
  {
    if e > 0 {
      PowBounds(b, e - 1);
      ProductInUnit(b, Pow(b, e - 1));
    }
  }

  lemma ProductInUnit(x: real, y: real)
    requires 0.0 <= x <= 1.0 && 0.0 <= y <= 1.0
    ensures 0.0 <= x * y <= 1.0
  {
    MulNonNeg(x, y);
    MulNonNeg(1.0 - x, y);
    assert (1.0 - x) * y == y - x * y;
  }

  lemma {:induction false} SumBounds(s: seq<real>, lo: nat, hi: nat, a: real, b: real)
    requires lo <= hi <= |s|
    requires forall i :: lo <= i < hi ==> a <= s[i] <= b
    ensures (hi - lo) as real * a <= Sum(s, lo, hi) <= (hi - lo) as real * b
  {
    if lo < hi {
      SumBounds(s, lo, hi - 1, a, b);
      var n := (hi - 1 - lo) as real;
      assert (hi - lo) as real == n + 1.0;
      assert (n + 1.0) * a == n * a + a && (n + 1.0) * b == n * b + b;
    }
  }

  lemma {:induction false} SumLe(s: seq<real>, t: seq<real>, lo: nat, hi: nat)
    requires lo <= hi <= |s| && hi <= |t|
    requires forall i :: lo <= i < hi ==> s[i] <= t[i]
    ensures Sum(s, lo, hi) <= Sum(t, lo, hi)
  {
    if lo < hi {
      SumLe(s, t, lo, hi - 1);
    }
  }

  /** Sums agree when the terms do, at a common offset `d`. */
  lemma {:induction false} SumShift(s: seq<real>, t: seq<real>, lo: nat, hi: nat, d: nat)
    requires lo <= hi && hi + d <= |s| && hi <= |t|
    requires forall i :: lo <= i < hi ==> t[i] == s[i + d]
    ensures Sum(t, lo, hi) == Sum(s, lo + d, hi + d)
  {
    if lo < hi {
      SumShift(s, t, lo, hi - 1, d);
    }
  }

  lemma {:induction false} SumAdd(s: seq<real>, t: seq<real>, u: seq<real>, lo: nat, hi: nat)
    requires lo <= hi <= |s| && hi <= |t| && hi <= |u|
    requires forall i :: lo <= i < hi ==> u[i] == s[i] + t[i]
    ensures Sum(u, lo, hi) == Sum(s, lo, hi) + Sum(t, lo, hi)
  {
    if lo < hi {
      SumAdd(s, t, u, lo, hi - 1);
    }
  }

  lemma {:induction false} SumScale(s: seq<real>, t: seq<real>, b: real, lo: nat, hi: nat)
    requires lo <= hi <= |s| && hi <= |t|
    requires forall i :: lo <= i < hi ==> t[i] == b * s[i]
    ensures Sum(t, lo, hi) == b * Sum(s, lo, hi)
  {
    if lo < hi {
      SumScale(s, t, b, lo, hi - 1);
    }
  }

  /** The first term can be peeled off as well as the last. */
  lemma {:induction false} SumFirst(s: seq<real>, lo: nat, hi: nat)
    requires lo < hi <= |s|
    ensures Sum(s, lo, hi) == s[lo] + Sum(s, lo + 1, hi)
  {
    if lo + 1 < hi {
      SumFirst(s, lo, hi - 1);
    }
  }

  /** A sum of non-negative terms vanishes exactly when every term does. */
  lemma {:induction false} SumZeroIff(s: seq<real>, lo: nat, hi: nat)
    requires lo <= hi <= |s|
    requires forall i :: lo <= i < hi ==> 0.0 <= s[i]
    ensures 0.0 <= Sum(s, lo, hi)
    ensures Sum(s, lo, hi) == 0.0 <==> forall i :: lo <= i < hi ==> s[i] == 0.0
  {
    if lo < hi {
      SumZeroIff(s, lo, hi - 1);
    }
  }

  /** The deviations from the mean of a non-empty window add up to zero. */
  lemma {:induction false} DeviationSum(s: seq<real>, d: seq<real>, c: real, n: nat)
    requires n <= |s| && n <= |d|
    requires forall i :: 0 <= i < n ==> d[i] == s[i] - c
    ensures Sum(d, 0, n) == Sum(s, 0, n) - n as real * c
  {
    if n > 0 {
      DeviationSum(s, d, c, n - 1);
    }
  }

  lemma MeanTotal(s: seq<real>, lo: nat, n: nat)
    requires n >= 1 && lo + n <= |s|
    ensures n as real * Mean(s, lo, n) == Sum(s, lo, lo + n)
  {
    DivMul(Sum(s, lo, lo + n), n as real);
  }

  lemma RoundError(x: real)
    ensures -0.5 <= Round(x) as real - x <= 0.5
  {
  }

  lemma RoundMonotone(x: real, y: real)
    requires x <= y
    ensures Round(x) <= Round(y)
  {
  }

  lemma RoundInteger(n: int)
    ensures Round(n as real) == n
  {
  }
}

// The nonlinear facts about the reals the proofs use, one per lemma, so that
// no other proof has to search for them.
module Reals {

  lemma MulNonNeg(x: real, y: real)
    requires 0.0 <= x && 0.0 <= y
    ensures 0.0 <= x * y
  {
  }

  lemma MulPos(x: real, y: real)
    requires 0.0 < x && 0.0 < y
    ensures 0.0 < x * y
  {
  }

  lemma MulLe(z: real, x: real, y: real)
    requires x <= y && 0.0 <= z
    ensures z * x <= z * y
  {
    MulNonNeg(z, y - x);
    assert z * (y - x) == z * y - z * x;
  }

  lemma MulAssoc(x: real, y: real, z: real)
    ensures x * (y * z) == (x * y) * z
  {
  }

  lemma MulSub(x: real, y: real, z: real)
    ensures x * (y - z) == x * y - x * z
  {
  }

  lemma DivMul(x: real, y: real)
    requires y != 0.0
    ensures x / y * y == x
  {
  }

  lemma DivUnique(x: real, y: real, q: real)
    requires y != 0.0 && q * y == x
    ensures x / y == q
  {
  }

  lemma DivAsProduct(x: real, y: real)
    requires y != 0.0
    ensures x / y == 1.0 / y * x
  {
  }

  lemma DivAdd(x: real, y: real, d: real)
    requires d != 0.0
    ensures (x + y) / d == x / d + y / d
  {
    DivMul(x, d);
    DivMul(y, d);
    DivUnique(x + y, d, x / d + y / d);
  }

  lemma DivLe(x: real, y: real, b: real)
    requires 0.0 < y
    ensures x <= b * y <==> x / y <= b
    ensures b * y <= x <==> b <= x / y
    ensures x < b * y <==> x / y < b
  {
    DivMul(x, y);
    if x / y <= b { MulLe(y, x / y, b); } else { MulPos(y, x / y - b); }
    if b <= x / y { MulLe(y, b, x / y); } else { MulPos(y, b - x / y); }
  }

  /** A convex combination, kept behind a name: proofs that only move it around hide its body. */
  function Blend(a: real, x: real, y: real): real { a * x + (1.0 - a) * y }

  lemma BlendLe(a: real, x: real, y: real, x': real, y': real)
    requires 0.0 <= a <= 1.0 && x <= x' && y <= y'
    ensures Blend(a, x, y) <= Blend(a, x', y')
  {
    MulNonNeg(a, x' - x);
    MulNonNeg(1.0 - a, y' - y);
  }

  lemma BlendBounds(a: real, x: real, y: real, lo: real, hi: real)
    requires 0.0 <= a <= 1.0 && lo <= x <= hi && lo <= y <= hi
    ensures lo <= Blend(a, x, y) <= hi
  {
    BlendLe(a, lo, lo, x, y);
    BlendLe(a, x, y, hi, hi);
    assert Blend(a, lo, lo) == lo && Blend(a, hi, hi) == hi;
  }

  lemma BlendZeroIff(a: real, x: real, y: real)
    requires 0.0 < a < 1.0 && 0.0 <= x && 0.0 <= y
    ensures 0.0 <= Blend(a, x, y)
    ensures Blend(a, x, y) == 0.0 <==> x == 0.0 && y == 0.0
  {
    MulNonNeg(a, x);
    MulNonNeg(1.0 - a, y);
    if x > 0.0 { MulPos(a, x); }
    if y > 0.0 { MulPos(1.0 - a, y); }
  }

  lemma BlendAdd(a: real, x: real, y: real, x': real, y': real)
    ensures Blend(a, x + x', y + y') == Blend(a, x, y) + Blend(a, x', y')
  {
  }

  lemma BlendParts(a: real, x: real, y: real, p: real, q: real)
    requires p == a * x && q == (1.0 - a) * y
    ensures q + p == Blend(a, x, y)
  {
  }

  /** Blending the same value in shrinks a gap by the factor 1 - a. */
  lemma BlendGap(a: real, x: real, y: real, y': real, q: real, q': real, gap: real)
    requires y - y' == q * gap && q' == (1.0 - a) * q
    ensures Blend(a, x, y) - Blend(a, x, y') == q' * gap
  {
    MulAssoc(1.0 - a, q, gap);
    MulSub(1.0 - a, y, y');
  }

  /** Wilder's form (y * (p - 1) + x) / p is a blend with weight 1/p. */
  lemma BlendWilder(x: real, y: real, p: real)
    requires p != 0.0
    ensures (y * (p - 1.0) + x) / p == Blend(1.0 / p, x, y)
  {
    var q := 1.0 / p;
    assert q * p == 1.0;
    assert (q * x + (1.0 - q) * y) * p == (q * p) * x + (p - q * p) * y;
  }

  lemma DivOut(b: real, x: real, p: real)
    requires p != 0.0
    ensures b * x / p == b * (x / p)
  {
    DivMul(x, p);
    MulAssoc(b, x / p, p);
    DivUnique(b * x, p, b * (x / p));
  }

  lemma SquareNonNeg(x: real)
    ensures 0.0 <= x * x
  {
  }
}

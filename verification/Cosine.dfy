/** Cosine similarity over the reals (orchestrator/src/memory/store.ts); `sqrt` stands for the host's square root. */
module Cosine {

  function Min(a: nat, b: nat): nat
  {
    if a <= b then a else b
  }

  /** The dot product of the first `n` components. */
  function Dot(a: seq<real>, b: seq<real>, n: nat): real
    requires n <= |a| && n <= |b|
  {
    if n == 0 then 0.0 else Dot(a, b, n - 1) + a[n - 1] * b[n - 1]
  }

  ghost predicate IsSqrt(sqrt: real -> real)
  {
    forall x: real :: x >= 0.0 ==> sqrt(x) >= 0.0 && sqrt(x) * sqrt(x) == x
  }

  function Quotient(dot: real, denom: real): real
  {
    if denom == 0.0 then 0.0 else dot / denom
  }

  function Similarity(sqrt: real -> real, a: seq<real>, b: seq<real>): real
  {
    var n := Min(|a|, |b|);
    Quotient(Dot(a, b, n), sqrt(Dot(a, a, n)) * sqrt(Dot(b, b, n)))
  }

  lemma SquareNonNegative(x: real)
    ensures x * x >= 0.0
  {
  }

  lemma {:induction false} NormNonNegative(a: seq<real>, n: nat)
    requires n <= |a|
    ensures Dot(a, a, n) >= 0.0
  {
    if n > 0 {
      NormNonNegative(a, n - 1);
      SquareNonNegative(a[n - 1]);
    }
  }

  lemma SignOfProduct(p: real, x: real, product: real)
    requires p > 0.0 && product == p * x
    ensures (x < 0.0 ==> product < 0.0) && (x > 0.0 ==> product > 0.0)
  {
  }

  lemma ProductNonNegative(x: real, y: real)
    requires x >= 0.0 && y >= 0.0
    ensures x * y >= 0.0
  {
  }

  /** Twice a cross term is at most the sum of the two mixed ones. */
  lemma CrossTerm(p: real, q: real, d: real, x: real, y: real)
    requires p >= 0.0 && q >= 0.0 && d * d <= p * q
    ensures 2.0 * d * x * y <= p * (y * y) + q * (x * x)
  {
    if p == 0.0 {
      ZeroTimes(p, q);
      ZeroNorm(d, d * d);
      ZeroTimes(p, y * y);
      assert 2.0 * d * x * y == 0.0;
      SquareNonNegative(x);
      ProductNonNegative(q, x * x);
    } else {
      var gap := p * (y * y) + q * (x * x) - 2.0 * d * x * y;
      CompleteSquare(p, q, d, x, y);
      SquareNonNegative(p * y - d * x);
      SquareNonNegative(x);
      ProductNonNegative(p * q - d * d, x * x);
      SignOfProduct(p, gap, p * gap);
    }
  }

  lemma Regroup(a: real, b: real, c: real, d: real)
    ensures (a * b) * (c * d) == (a * c) * (b * d)
  {
  }

  lemma SquareOfDifference(u: real, v: real)
    ensures (u - v) * (u - v) == u * u + v * v - 2.0 * (u * v)
  {
  }

  lemma CompleteSquare(p: real, q: real, d: real, x: real, y: real)
    ensures p * (p * (y * y) + q * (x * x) - 2.0 * d * x * y)
         == (p * y - d * x) * (p * y - d * x) + (p * q - d * d) * (x * x)
  {
    var u, v := p * y, d * x;
    SquareOfDifference(u, v);
    Regroup(p, y, p, y);
    Regroup(d, x, d, x);
    assert p * (2.0 * d * x * y) == 2.0 * (u * v);
    assert p * (p * (y * y)) == u * u;
    assert p * (q * (x * x)) == (p * q) * (x * x);
    assert (p * q - d * d) * (x * x) == (p * q) * (x * x) - v * v;
    assert p * (p * (y * y) + q * (x * x) - 2.0 * d * x * y)
        == p * (p * (y * y)) + p * (q * (x * x)) - p * (2.0 * d * x * y);
  }

  lemma ZeroTimes(p: real, q: real)
    requires p == 0.0
    ensures p * q == 0.0
  {
    assert 0.0 * q == 0.0;
  }

  lemma ZeroNorm(d: real, square: real)
    requires square == d * d
    ensures d == 0.0 || square > 0.0
  {
    if d > 0.0 {
      SignOfProduct(d, d, square);
    } else if d < 0.0 {
      SignOfProduct(-d, d, -square);
    }
  }

  /** Cauchy-Schwarz for the accumulated sums. */
  lemma {:induction false} DotBounded(a: seq<real>, b: seq<real>, n: nat)
    requires n <= |a| && n <= |b|
    ensures Dot(a, b, n) * Dot(a, b, n) <= Dot(a, a, n) * Dot(b, b, n)
  {
    if n > 0 {
      var x, y := a[n - 1], b[n - 1];
      var p, q, d := Dot(a, a, n - 1), Dot(b, b, n - 1), Dot(a, b, n - 1);
      DotBounded(a, b, n - 1);
      NormNonNegative(a, n - 1);
      NormNonNegative(b, n - 1);
      CrossTerm(p, q, d, x, y);
      calc {
        (d + x * y) * (d + x * y);
        d * d + 2.0 * d * x * y + (x * x) * (y * y);
      <=
        p * q + p * (y * y) + q * (x * x) + (x * x) * (y * y);
        (p + x * x) * (q + y * y);
      }
    }
  }

  lemma QuotientBounded(dot: real, denom: real)
    requires denom >= 0.0 && dot * dot <= denom * denom
    ensures -1.0 <= Quotient(dot, denom) <= 1.0
  {
    if denom > 0.0 {
      assert dot <= denom by { if dot > denom { SquareGrows(denom, dot); } }
      assert -dot <= denom by { if -dot > denom { SquareGrows(denom, -dot); } }
      var r := dot / denom;
      assert r * denom == dot;
      if r > 1.0 { ScaleUp(r, denom); }
      if r < -1.0 { ScaleUp(-r, denom); }
    }
  }

  lemma SquareGrows(x: real, y: real)
    requires 0.0 <= x < y
    ensures x * x < y * y
  {
    SignOfProduct(y - x, y + x, (y - x) * (y + x));
    assert (y - x) * (y + x) == y * y - x * x;
  }

  lemma ScaleUp(r: real, d: real)
    requires r > 1.0 && d > 0.0
    ensures r * d > d
  {
    assert (r - 1.0) * d > 0.0;
  }

  /** Whatever the lengths of the two vectors, their similarity lies in [-1, 1]. */
  lemma SimilarityBounded(sqrt: real -> real, a: seq<real>, b: seq<real>)
    requires IsSqrt(sqrt)
    ensures -1.0 <= Similarity(sqrt, a, b) <= 1.0
  {
    var n := Min(|a|, |b|);
    var p, q := Dot(a, a, n), Dot(b, b, n);
    DotBounded(a, b, n);
    NormNonNegative(a, n);
    NormNonNegative(b, n);
    var denom := sqrt(p) * sqrt(q);
    ProductNonNegative(sqrt(p), sqrt(q));
    Regroup(sqrt(p), sqrt(q), sqrt(p), sqrt(q));
    QuotientBounded(Dot(a, b, n), denom);
  }

  method CosineSimilarity(sqrt: real -> real, a: seq<real>, b: seq<real>) returns (r: real)
    ensures r == Similarity(sqrt, a, b)
  {
    var dot, na, nb := 0.0, 0.0, 0.0;
    var n := Min(|a|, |b|);
    for i := 0 to n
      invariant dot == Dot(a, b, i) && na == Dot(a, a, i) && nb == Dot(b, b, i)
    {
      dot := dot + a[i] * b[i];
      na := na + a[i] * a[i];
      nb := nb + b[i] * b[i];
    }
    var denom := sqrt(na) * sqrt(nb);
    r := if denom == 0.0 then 0.0 else dot / denom;
  }

  // ---- what the similarity measures ----

  lemma Distributes(x: real, y: real, z: real)
    ensures x * (y + z) == x * y + x * z
  {
  }

  /** The dot product adds up componentwise. */
  lemma {:induction false} DotAdds(a: seq<real>, b: seq<real>, c: seq<real>, sum: seq<real>, n: nat)
    requires n <= |a| && n <= |b| && n <= |c| && n <= |sum| && forall i :: 0 <= i < n ==> sum[i] == b[i] + c[i]
    ensures Dot(a, sum, n) == Dot(a, b, n) + Dot(a, c, n)
  {
    if n > 0 {
      DotAdds(a, b, c, sum, n - 1);
      Distributes(a[n - 1], b[n - 1], c[n - 1]);
    }
  }

  lemma Associates(x: real, k: real, y: real)
    ensures x * (k * y) == k * (x * y)
  {
  }

  lemma {:induction false} DotScales(a: seq<real>, b: seq<real>, k: real, scaled: seq<real>, n: nat)
    requires n <= |a| && n <= |b| && n <= |scaled| && forall i :: 0 <= i < n ==> scaled[i] == k * b[i]
    ensures Dot(a, scaled, n) == k * Dot(a, b, n)
  {
    if n > 0 {
      DotScales(a, b, k, scaled, n - 1);
      Associates(a[n - 1], k, b[n - 1]);
      Distributes(k, Dot(a, b, n - 1), a[n - 1] * b[n - 1]);
    }
  }

  /** Against the unit vector of a component it is that component. */
  lemma {:induction false} DotOfUnit(a: seq<real>, unit: seq<real>, i: nat, n: nat)
    requires n <= |a| && n <= |unit| && forall j :: 0 <= j < n ==> unit[j] == if j == i then 1.0 else 0.0
    ensures Dot(a, unit, n) == if i < n then a[i] else 0.0
  {
    if n > 0 { DotOfUnit(a, unit, i, n - 1); }
  }

  lemma QuotientExactly(dot: real, denom: real)
    ensures denom == 0.0 ==> Quotient(dot, denom) == 0.0
    ensures denom != 0.0 ==> Quotient(dot, denom) * denom == dot
  {
  }

  lemma SignsAgree(q: real, denom: real, dot: real)
    requires denom > 0.0 && q * denom == dot
    ensures (q > 0.0 <==> dot > 0.0) && (q < 0.0 <==> dot < 0.0)
  {
  }

  /** A root vanishes exactly with its square. */
  lemma RootVanishes(root: real, square: real)
    requires root >= 0.0 && root * root == square
    ensures square > 0.0 <==> root > 0.0
    ensures square >= 0.0
  {
    if root == 0.0 { ZeroTimes(root, root); } else { SignOfProduct(root, root, square); }
  }

  /** A quotient by a product of two roots, in terms of what they are roots of. */
  lemma QuotientMeasures(q: real, ab: real, ra: real, rb: real, denom: real)
    requires ra >= 0.0 && rb >= 0.0 && denom == ra * rb && q == Quotient(ab, denom)
    ensures ra == 0.0 || rb == 0.0 ==> q == 0.0
    ensures ra > 0.0 && rb > 0.0 ==> q * denom == ab && (q > 0.0 <==> ab > 0.0) && (q < 0.0 <==> ab < 0.0)
  {
    QuotientExactly(ab, denom);
    if ra == 0.0 {
      ZeroTimes(ra, rb);
    } else if rb == 0.0 {
      ZeroTimes(rb, ra);
    } else {
      SignOfProduct(ra, rb, denom);
      SignsAgree(q, denom, ab);
    }
  }

  /**
   * Over the common prefix, the similarity times the lengths is the dot product, and it has its sign; a vector without
   * length is similar to nothing.
   */
  lemma SimilarityExactly(sqrt: real -> real, a: seq<real>, b: seq<real>)
    requires IsSqrt(sqrt)
    ensures var n, s := Min(|a|, |b|), Similarity(sqrt, a, b);
      var aa, bb, ab := Dot(a, a, n), Dot(b, b, n), Dot(a, b, n);
      && (aa == 0.0 || bb == 0.0 ==> s == 0.0)
      && (aa > 0.0 && bb > 0.0 ==> s * (sqrt(aa) * sqrt(bb)) == ab && (s > 0.0 <==> ab > 0.0) && (s < 0.0 <==> ab < 0.0))
  {
    hide Dot;
    var n := Min(|a|, |b|);
    NormNonNegative(a, n);
    NormNonNegative(b, n);
    var aa, bb := Dot(a, a, n), Dot(b, b, n);
    var denom := sqrt(aa) * sqrt(bb);
    assert Similarity(sqrt, a, b) == Quotient(Dot(a, b, n), denom);
    RootVanishes(sqrt(aa), aa);
    RootVanishes(sqrt(bb), bb);
    QuotientMeasures(Similarity(sqrt, a, b), Dot(a, b, n), sqrt(aa), sqrt(bb), denom);
  }

  lemma OnlyOne(q: real, square: real, x: real)
    requires square == x && x > 0.0 && q * square == x
    ensures q == 1.0
  {
    assert x / x == 1.0;
    assert q == x / square;
  }

  /** A vector with a length is as similar to itself as can be. */
  lemma SelfSimilar(sqrt: real -> real, a: seq<real>)
    requires IsSqrt(sqrt) && Dot(a, a, |a|) > 0.0
    ensures Similarity(sqrt, a, a) == 1.0
  {
    hide Dot;
    SimilarityExactly(sqrt, a, a);
    var q, aa := Similarity(sqrt, a, a), Dot(a, a, |a|);
    var root := sqrt(aa);
    assert root * root == aa;
    OnlyOne(q, root * root, aa);
  }
}

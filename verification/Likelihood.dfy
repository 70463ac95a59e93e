/** Unimodality of the binomial likelihood x^u (1-x)^v, proved from the inequality of arithmetic
    and geometric means for u copies of one number and v copies of another. */
module Likelihood {
  import opened Numbers

  function Binomial(x: real, u: nat, v: nat): real {
    Pow(x, u) * Pow(1.0 - x, v)
  }

  /** i copies of x added up. */
  function Copies(i: nat, x: real): real {
    if i == 0 then 0.0 else Copies(i - 1, x) + x
  }

  lemma {:induction false} CopiesAreMultiples(i: nat, x: real)
    ensures Copies(i, x) == i as real * x
  {
    if i > 0 { CopiesAreMultiples(i - 1, x); }
  }

  lemma {:induction false} CopiesOfLarge(i: nat, x: real)
    requires x >= 1.0
    ensures Copies(i, x) >= i as real
    ensures x > 1.0 && i > 0 ==> Copies(i, x) > i as real
  {
    if i > 0 { CopiesOfLarge(i - 1, x); }
  }

  /** i copies of a, j copies of b and one c whose average is at most one have product at most one.
      The proof repeatedly merges c with a number on the other side of one. */
  lemma {:induction false} CarriedMeans(a: real, b: real, c: real, i: nat, j: nat)
    requires 0.0 <= a <= 1.0 <= b && c >= 0.0
    requires Copies(i, a) + Copies(j, b) + c <= (i + j + 1) as real
    ensures Pow(a, i) * Pow(b, j) * c <= 1.0
    decreases i + j
  {
    hide Pow;
    PowNext(a, 0);
    PowNext(b, 0);
    if i == 0 && j == 0 {
    } else if c >= 1.0 && i > 0 {
      MergeBelow(a, c);
      PowNext(a, i - 1);
      PowNonnegative(a, i - 1);
      PowNonnegative(b, j);
      CarriedMeans(a, b, a + c - 1.0, i - 1, j);
      MergeScaled(a, c, a + c - 1.0, Pow(a, i - 1), Pow(b, j), Pow(a, i));
    } else if c >= 1.0 {
      CopiesOfLarge(j, b);
      PowOne(j);
    } else if j > 0 {
      MergeBelow(b, c);
      PowNext(b, j - 1);
      PowNonnegative(b, j - 1);
      PowNonnegative(a, i);
      CarriedMeans(a, b, b + c - 1.0, i, j - 1);
      MergeScaled(b, c, b + c - 1.0, Pow(b, j - 1), Pow(a, i), Pow(b, j));
    } else {
      PowUnit(a, i);
      ProductUnit(Pow(a, i), c);
    }
  }

  /** Two numbers on opposite sides of one: x*y <= x+y-1. */
  lemma MergeBelow(x: real, y: real)
    requires (x <= 1.0 <= y || y <= 1.0 <= x) && x >= 0.0 && y >= 0.0
    ensures x * y <= x + y - 1.0
  {
    var p, q := 1.0 - x, y - 1.0;
    if x <= 1.0 <= y {
      NonnegativeProduct(p, q);
    } else {
      NonnegativeProduct(-p, -q);
    }
    assert x * y == (1.0 - p) * (1.0 + q);
  }

  lemma MergeScaled(x: real, y: real, m: real, p: real, q: real, r: real)
    requires x * y <= m && p >= 0.0 && q >= 0.0 && r == x * p
    ensures r * q * y <= p * q * m
    ensures q * r * y <= q * p * m
  {
    var z, w := p * q, x * y;
    NonnegativeProduct(p, q);
    var d := m - w;
    NonnegativeProduct(z, d);
    assert z * d == z * m - z * w;
    assert r * q * y == z * w;
  }

  lemma Means(a: real, b: real, u: nat, v: nat)
    requires a >= 0.0 && b >= 0.0
    requires u as real * a + v as real * b <= (u + v) as real
    ensures Pow(a, u) * Pow(b, v) <= 1.0
  {
    CopiesAreMultiples(u, a);
    CopiesAreMultiples(v, b);
    if a <= 1.0 <= b {
      CarriedMeans(a, b, 1.0, u, v);
    } else if b <= 1.0 <= a {
      CarriedMeans(b, a, 1.0, v, u);
    } else if a <= 1.0 {
      PowUnit(a, u);
      PowUnit(b, v);
      ProductUnit(Pow(a, u), Pow(b, v));
    } else {
      CopiesOfLarge(u, a);
      CopiesOfLarge(v, b);
    }
  }

  /** The binomial likelihood at y is at least that at x whenever y lies between x and the observed
      rate u/(u+v), or is that rate. */
  lemma CloserToRate(x: real, y: real, u: nat, v: nat)
    requires 0.0 <= x <= 1.0 && 0.0 < y < 1.0
    requires (y - x) * (u as real - y * (u + v) as real) >= 0.0
    ensures Binomial(x, u, v) <= Binomial(y, u, v)
  {
    hide Pow;
    RatiosBounded(x, y, u, v);
    PowerRatio(x, y, u);
    PowerRatio(1.0 - x, 1.0 - y, v);
    ScaleDown(Pow(x / y, u), Pow((1.0 - x) / (1.0 - y), v), Pow(x, u), Pow(1.0 - x, v), Pow(y, u), Pow(1.0 - y, v));
  }

  lemma RatiosBounded(x: real, y: real, u: nat, v: nat)
    requires 0.0 <= x <= 1.0 && 0.0 < y < 1.0
    requires (y - x) * (u as real - y * (u + v) as real) >= 0.0
    ensures Pow(x / y, u) * Pow((1.0 - x) / (1.0 - y), v) <= 1.0
  {
    hide Pow;
    RatiosNonnegative(x, y);
    AverageAtMostOne(x, y, u as real, v as real);
    Means(x / y, (1.0 - x) / (1.0 - y), u, v);
  }

  lemma PowerRatio(x: real, y: real, n: nat)
    requires y > 0.0
    ensures Pow(x, n) == Pow(x / y, n) * Pow(y, n)
    ensures Pow(y, n) > 0.0
  {
    hide Pow;
    PowOfProduct(x, x / y, y, n);
    PowPositive(y, n);
  }

  lemma ScaleDown(p: real, q: real, x: real, x': real, y: real, y': real)
    requires x == p * y && x' == q * y' && p * q <= 1.0 && y >= 0.0 && y' >= 0.0
    ensures x * x' <= y * y'
  {
    var w, s := y * y', 1.0 - p * q;
    assert w >= 0.0;
    NonnegativeProduct(s, w);
    assert x * x' == (p * q) * w;
  }

  lemma RatiosNonnegative(x: real, y: real)
    requires 0.0 <= x <= 1.0 && 0.0 < y < 1.0
    ensures x / y >= 0.0 && (1.0 - x) / (1.0 - y) >= 0.0
  {
    NonnegativeQuotient(x, y);
    NonnegativeQuotient(1.0 - x, 1.0 - y);
  }

  lemma NonnegativeQuotient(x: real, y: real)
    requires x >= 0.0 && y > 0.0
    ensures x / y >= 0.0
  {
    var r := x / y;
    assert r * y == x;
    Cancel(r, 0.0, y);
  }

  lemma AverageAtMostOne(x: real, y: real, u: real, v: real)
    requires 0.0 < y < 1.0 && u >= 0.0 && v >= 0.0
    requires (y - x) * (u - y * (u + v)) >= 0.0
    ensures u * (x / y) + v * ((1.0 - x) / (1.0 - y)) <= u + v
  {
    var a, b, c := x / y, (1.0 - x) / (1.0 - y), y * (1.0 - y);
    assert a * y == x && b * (1.0 - y) == 1.0 - x;
    assert c > 0.0;
    var left, right := u * a + v * b, u + v;
    assert (u * a) * c == u * (1.0 - y) * (a * y) == u * (1.0 - y) * x;
    assert (v * b) * c == v * y * (b * (1.0 - y)) == v * y * (1.0 - x);
    assert left * c == u * (1.0 - y) * x + v * y * (1.0 - x);
    assert right * c - left * c == (y - x) * (u - y * (u + v)) by { AverageAlgebra(x, y, u, v); }
    Cancel(right, left, c);
  }

  lemma AverageAlgebra(x: real, y: real, u: real, v: real)
    ensures (u + v) * (y * (1.0 - y)) - (u * (1.0 - y) * x + v * y * (1.0 - x))
         == (y - x) * (u - y * (u + v))
  {
  }

  /** The likelihood rises up to the observed rate u/m ... */
  lemma RisesToRate(x: real, y: real, u: nat, v: nat)
    requires 0.0 <= x <= y && y * (u + v) as real <= u as real && y <= 1.0
    ensures Binomial(x, u, v) <= Binomial(y, u, v)
  {
    if 0.0 < y < 1.0 {
      assert (y - x) * (u as real - y * (u + v) as real) >= 0.0;
      CloserToRate(x, y, u, v);
    } else if y == 1.0 {
      assert v == 0;
      PowUnit(x, u);
      PowOne(u);
    }
  }

  /** ... and falls after it. */
  lemma FallsFromRate(x: real, y: real, u: nat, v: nat)
    requires 0.0 <= y <= x <= 1.0 && y * (u + v) as real >= u as real
    ensures Binomial(x, u, v) <= Binomial(y, u, v)
  {
    if 0.0 < y < 1.0 {
      assert (y - x) * (u as real - y * (u + v) as real) >= 0.0;
      CloserToRate(x, y, u, v);
    } else if y == 0.0 {
      assert u == 0;
      PowUnit(1.0 - x, v);
      PowOne(v);
    }
  }

  /** Hence the observed rate is the maximum over [0, 1]. */
  lemma PeaksAtRate(x: real, u: nat, m: nat)
    requires 0.0 <= x <= 1.0 && u <= m && m > 0
    ensures Binomial(x, u, m - u) <= Binomial(Fraction(u, m), u, m - u)
  {
    FractionUnit(u, m);
    FractionTimes(u, m);
    if x <= Fraction(u, m) {
      RisesToRate(x, Fraction(u, m), u, m - u);
    } else {
      FallsFromRate(x, Fraction(u, m), u, m - u);
    }
  }

  // ----- strictness

  lemma {:induction false} PowStrict(x: real, y: real, n: nat)
    requires 0.0 <= x < y && n > 0
    ensures Pow(x, n) < Pow(y, n)
  {
    if n > 1 {
      PowStrict(x, y, n - 1);
      PowNonnegative(x, n - 1);
      StrictProduct(x, y, Pow(x, n - 1), Pow(y, n - 1));
    }
  }

  lemma StrictProduct(x: real, y: real, p: real, q: real)
    requires 0.0 <= x < y && 0.0 <= p <= q && q > 0.0
    ensures x * p < y * q
  {
    NonnegativeProduct(x, q - p);
    assert x * (q - p) == x * q - x * p;
    assert (y - x) * q > 0.0 && (y - x) * q == y * q - x * q;
  }

  lemma PowsOrdered(x: real, y: real, n: nat)
    requires 0.0 <= x <= y
    ensures 0.0 <= Pow(x, n) <= Pow(y, n)
    ensures x < y && n > 0 ==> Pow(x, n) < Pow(y, n)
  {
    PowNonnegative(x, n);
    PowMonotone(x, y, n);
    if x < y && n > 0 { PowStrict(x, y, n); }
  }

  /** Powers at a midpoint beat the geometric mean of the powers at the ends. */
  lemma PowAtMidpoint(x: real, y: real, mid: real, n: nat)
    requires 0.0 <= x && 0.0 <= y && mid + mid == x + y
    ensures 0.0 <= Pow(x, n) * Pow(y, n) <= Pow(mid, n) * Pow(mid, n)
    ensures x != y && n > 0 ==> Pow(x, n) * Pow(y, n) < Pow(mid, n) * Pow(mid, n)
  {
    hide Pow;
    var ends, middle := x * y, mid * mid;
    SquareOfMidpoint(x, y, mid, ends, middle);
    PowOfProduct(ends, x, y, n);
    PowOfProduct(middle, mid, mid, n);
    PowsOrdered(ends, middle, n);
  }

  lemma SquareOfMidpoint(x: real, y: real, mid: real, ends: real, middle: real)
    requires 0.0 <= x && 0.0 <= y && mid + mid == x + y && ends == x * y && middle == mid * mid
    ensures 0.0 <= ends <= middle
    ensures x != y ==> ends < middle
  {
    NonnegativeProduct(x, y);
    var half := mid - x;
    var square := half * half;
    SquareSign(half, square);
    DifferenceOfSquares(x, y, mid, half);
  }

  lemma SquareSign(x: real, square: real)
    requires square == x * x
    ensures square >= 0.0
    ensures x != 0.0 ==> square > 0.0
  {
    if x > 0.0 {
      PositiveProduct(x, x, square);
    } else if x < 0.0 {
      var y := -x;
      assert y * y == x * x;
      PositiveProduct(y, y, square);
    }
  }

  lemma PositiveProduct(x: real, y: real, product: real)
    requires x > 0.0 && y > 0.0 && product == x * y
    ensures product > 0.0
  {
  }

  lemma DifferenceOfSquares(x: real, y: real, mid: real, half: real)
    requires x == mid - half && y == mid + half
    ensures x * y == mid * mid - half * half
  {
  }

  /** The likelihood is logarithmically concave, strictly so once something was observed. */
  lemma LikelihoodAtMidpoint(x: real, y: real, mid: real, u: nat, v: nat)
    requires 0.0 <= x <= 1.0 && 0.0 <= y <= 1.0 && mid + mid == x + y && u + v > 0
    ensures 0.0 <= Binomial(x, u, v) * Binomial(y, u, v) <= Binomial(mid, u, v) * Binomial(mid, u, v)
    ensures x != y ==> Binomial(x, u, v) * Binomial(y, u, v) < Binomial(mid, u, v) * Binomial(mid, u, v)
  {
    hide Pow;
    PowAtMidpoint(x, y, mid, u);
    PowAtMidpoint(1.0 - x, 1.0 - y, 1.0 - mid, v);
    if x != y {
      PowPositive(mid, u);
      PowPositive(1.0 - mid, v);
    }
    MidpointAlgebra(Pow(x, u), Pow(1.0 - x, v), Pow(y, u), Pow(1.0 - y, v), Pow(mid, u), Pow(1.0 - mid, v),
                    Binomial(x, u, v), Binomial(y, u, v), Binomial(mid, u, v));
  }

  lemma MidpointAlgebra(a: real, b: real, c: real, d: real, p: real, q: real, ab: real, cd: real, pq: real)
    requires 0.0 <= a * c <= p * p && 0.0 <= b * d <= q * q && ab == a * b && cd == c * d && pq == p * q
    ensures 0.0 <= ab * cd <= pq * pq
    ensures (a * c < p * p || b * d < q * q) && p > 0.0 && q > 0.0 ==> ab * cd < pq * pq
  {
    var ac, bd, pp, qq := a * c, b * d, p * p, q * q;
    SquareSign(p, pp);
    SquareSign(q, qq);
    MidpointOrder(ac, bd, pp, qq);
    Regroup(a, b, c, d);
    Regroup(p, q, p, q);
    assert ab * cd == ac * bd;
    assert pq * pq == pp * qq;
  }

  lemma MidpointOrder(x: real, y: real, p: real, q: real)
    requires 0.0 <= x <= p && 0.0 <= y <= q
    ensures 0.0 <= x * y <= p * q
    ensures (x < p || y < q) && p > 0.0 && q > 0.0 ==> x * y < p * q
  {
    NonnegativeProduct(x, y);
    ProductMonotone(x, p, y, q);
    if p > 0.0 && q > 0.0 {
      if x < p {
        StrictProduct(x, p, y, q);
      } else if y < q {
        StrictProduct(y, q, x, p);
      }
    }
  }
}

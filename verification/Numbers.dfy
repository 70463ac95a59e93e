/** Exact arithmetic shared by the four estimators: powers, rising factorials, binomial
    coefficients and finite sums, together with the algebra the estimator proofs rest on. */
module Numbers {

  function Pow(x: real, n: nat): real {
    if n == 0 then 1.0 else x * Pow(x, n - 1)
  }

  /** The rising factorial x (x+1) ... (x+n-1). */
  function Poch(x: real, n: nat): real {
    if n == 0 then 1.0 else Poch(x, n - 1) * (x + (n - 1) as real)
  }

  function Choose(n: nat, k: nat): nat {
    if k == 0 then 1 else if n == 0 then 0 else Choose(n - 1, k - 1) + Choose(n - 1, k)
  }

  /** g(0) + ... + g(n-1). */
  function Sum(n: nat, g: nat -> real): real {
    if n == 0 then 0.0 else Sum(n - 1, g) + g(n - 1)
  }

  // ----- finite sums

  lemma {:induction false} SumCongruence(n: nat, g: nat -> real, h: nat -> real)
    requires forall i: nat :: i < n ==> g(i) == h(i)
    ensures Sum(n, g) == Sum(n, h)
  {
    if n > 0 { SumCongruence(n - 1, g, h); }
  }

  lemma {:induction false} SumScale(n: nat, c: real, g: nat -> real)
    ensures Sum(n, (i: nat) => c * g(i)) == c * Sum(n, g)
  {
    if n > 0 { SumScale(n - 1, c, g); }
  }

  /** The first term of a sum split off. */
  lemma {:induction false} SumFirst(n: nat, g: nat -> real)
    ensures Sum(n + 1, g) == g(0) + Sum(n, (i: nat) => g(i + 1))
  {
    if n > 0 { SumFirst(n - 1, g); }
  }

  // ----- powers

  lemma PowNext(x: real, n: nat)
    ensures Pow(x, n + 1) == x * Pow(x, n)
    ensures Pow(x, 0) == 1.0
  {
  }

  lemma {:induction false} PowAdd(x: real, m: nat, n: nat)
    ensures Pow(x, m + n) == Pow(x, m) * Pow(x, n)
  {
    hide Pow;
    if m == 0 {
      PowNext(x, 0);
    } else {
      PowAdd(x, m - 1, n);
      PowNext(x, m - 1 + n);
      PowNext(x, m - 1);
      Reassociate(x, Pow(x, m - 1), Pow(x, n), Pow(x, m));
    }
  }

  lemma {:induction false} PowOfProduct(z: real, x: real, y: real, n: nat)
    requires z == x * y
    ensures Pow(z, n) == Pow(x, n) * Pow(y, n)
  {
    if n > 0 {
      PowOfProduct(z, x, y, n - 1);
      assert Pow(z, n) == (x * y) * (Pow(x, n - 1) * Pow(y, n - 1));
    }
  }

  lemma {:induction false} PowUnit(x: real, n: nat)
    requires 0.0 <= x <= 1.0
    ensures 0.0 <= Pow(x, n) <= 1.0
  {
    if n > 0 {
      PowUnit(x, n - 1);
      ProductUnit(x, Pow(x, n - 1));
    }
  }

  lemma {:induction false} PowPositive(x: real, n: nat)
    requires x > 0.0
    ensures Pow(x, n) > 0.0
  {
    if n > 0 { PowPositive(x, n - 1); }
  }

  lemma {:induction false} PowNonnegative(x: real, n: nat)
    requires x >= 0.0
    ensures Pow(x, n) >= 0.0
  {
    if n > 0 { PowNonnegative(x, n - 1); }
  }

  lemma {:induction false} PowOne(n: nat)
    ensures Pow(1.0, n) == 1.0
  {
    if n > 0 { PowOne(n - 1); }
  }

  lemma {:induction false} PowMonotone(x: real, y: real, n: nat)
    requires 0.0 <= x <= y
    ensures Pow(x, n) <= Pow(y, n)
  {
    if n > 0 {
      PowMonotone(x, y, n - 1);
      PowNonnegative(x, n - 1);
      ProductMonotone(x, y, Pow(x, n - 1), Pow(y, n - 1));
    }
  }

  // ----- products

  lemma ProductUnit(x: real, y: real)
    requires 0.0 <= x <= 1.0 && 0.0 <= y <= 1.0
    ensures 0.0 <= x * y <= 1.0 && x * y <= x && x * y <= y
  {
    assert x * (1.0 - y) >= 0.0;
    assert y * (1.0 - x) >= 0.0;
  }

  lemma ProductMonotone(x: real, x': real, y: real, y': real)
    requires 0.0 <= x <= x' && 0.0 <= y <= y'
    ensures 0.0 <= x * y <= x' * y'
  {
    assert (x' - x) * y >= 0.0;
    assert x' * (y' - y) >= 0.0;
  }

  lemma Distribute(c: real, x: real, y: real, z: real)
    requires z == x + y
    ensures c * z == c * x + c * y
  {
  }

  lemma Reassociate(x: real, y: real, z: real, xy: real)
    requires xy == x * y
    ensures xy * z == x * (y * z)
  {
  }

  lemma Regroup(x: real, x': real, y: real, y': real)
    ensures (x * x') * (y * y') == (x * y) * (x' * y')
  {
  }

  lemma NonnegativeProduct(x: real, y: real)
    requires x >= 0.0 && y >= 0.0
    ensures x * y >= 0.0
  {
  }

  /** Scaling by a nonnegative factor keeps an order; by a positive one, a strict order. */
  lemma ScaleOrder(p: real, x: real, y: real)
    requires p >= 0.0 && x <= y
    ensures p * x <= p * y
    ensures p > 0.0 && x < y ==> p * x < p * y
  {
    ScaleGap(p, x, y, y - x);
  }

  lemma ScaleGap(p: real, x: real, y: real, d: real)
    requires p >= 0.0 && d >= 0.0 && y == x + d
    ensures p * x <= p * y
    ensures p > 0.0 && d > 0.0 ==> p * x < p * y
  {
    assert p * d >= 0.0;
    assert p > 0.0 && d > 0.0 ==> p * d > 0.0;
  }

  lemma Cancel(x: real, y: real, c: real)
    requires c > 0.0
    ensures x * c < y * c <==> x < y
    ensures x * c == y * c <==> x == y
  {
    if x < y {
      assert (y - x) * c > 0.0;
    } else if x > y {
      assert (x - y) * c > 0.0;
    }
  }

  lemma QuotientUnit(x: real, y: real)
    requires 0.0 <= x <= y && y > 0.0
    ensures 0.0 <= x / y <= 1.0
  {
    assert x / y * y == x;
  }

  lemma QuotientMonotone(x: real, y: real, c: real)
    requires x <= y && c > 0.0
    ensures x / c <= y / c
  {
    var p, q := x / c, y / c;
    assert p * c == x && q * c == y;
    Cancel(q, p, c);
  }

  lemma QuotientSum(x: real, y: real, c: real)
    requires c != 0.0
    ensures x / c + y / c == (x + y) / c
    ensures c / c == 1.0
  {
    var p, q := x / c, y / c;
    assert p * c == x && q * c == y;
    assert (p + q) * c == x + y;
    QuotientUnique(p + q, x + y, c);
    QuotientUnique(1.0, c, c);
  }

  /** x/y <= v/w, decided by cross multiplication. */
  lemma QuotientOrder(x: real, y: real, v: real, w: real)
    requires y > 0.0 && w > 0.0
    ensures x / y <= v / w <==> x * w <= v * y
  {
    var p, q := x / y, v / w;
    assert p * y == x && q * w == v;
    assert x * w == p * (y * w) && v * y == q * (y * w);
    assert y * w > 0.0;
    if p <= q {
      assert (q - p) * (y * w) >= 0.0;
    } else {
      assert (p - q) * (y * w) > 0.0;
    }
  }

  /** A quotient is determined by its defining product. */
  lemma QuotientUnique(q: real, x: real, y: real)
    requires y != 0.0 && q * y == x
    ensures q == x / y
  {
    assert (q - x / y) * y == 0.0;
  }

  lemma ProperQuotient(x: real, y: real)
    requires 0.0 < x < y
    ensures 0.0 < x / y < 1.0
  {
    var r := x / y;
    assert r * y == x;
    Cancel(0.0, r, y);
    Cancel(r, 1.0, y);
  }

  lemma ComplementQuotient(x: real, v: real, y: real)
    requires y == x + v && y != 0.0
    ensures v / y == 1.0 - x / y
  {
    var p, q := x / y, 1.0 - x / y;
    assert p * y == x;
    assert q * y == y - p * y;
    QuotientUnique(q, v, y);
  }

  lemma RatioOfProducts(x: real, y: real, v: real, w: real)
    requires y != 0.0 && w != 0.0
    ensures y * w != 0.0 && (x / y) * (v / w) == (x * v) / (y * w)
  {
    var p, q := x / y, v / w;
    assert p * y == x && q * w == v;
    assert (p * q) * (y * w) == (p * y) * (q * w);
    QuotientUnique(p * q, x * v, y * w);
  }

  /** The quotient of two counts. */
  function Fraction(x: nat, y: nat): real
    requires y > 0
  {
    x as real / y as real
  }

  lemma FractionUnit(x: nat, y: nat)
    requires x <= y && y > 0
    ensures 0.0 <= Fraction(x, y) <= 1.0
  {
    QuotientUnit(x as real, y as real);
  }

  lemma FractionTimes(x: nat, y: nat)
    requires y > 0
    ensures Fraction(x, y) * y as real == x as real
  {
  }

  lemma FractionOrder(x: nat, y: nat, v: nat, w: nat)
    requires y > 0 && w > 0
    ensures Fraction(x, y) <= Fraction(v, w) <==> x * w <= v * y
  {
    ProductCast(x, w);
    ProductCast(v, y);
    QuotientOrder(x as real, y as real, v as real, w as real);
  }

  lemma {:induction false} ProductCast(x: nat, y: nat)
    ensures (x * y) as real == x as real * y as real
  {
    if x > 0 {
      ProductCast(x - 1, y);
      assert x * y == (x - 1) * y + y;
    }
  }

  // ----- rising factorials

  lemma {:induction false} PochPositive(x: real, n: nat)
    requires x > 0.0
    ensures Poch(x, n) > 0.0
  {
    if n > 0 { PochPositive(x, n - 1); }
  }

  lemma PochNext(x: real, n: nat)
    ensures Poch(x, n + 1) == Poch(x, n) * (x + n as real)
  {
  }

  lemma PochOne(x: real)
    ensures Poch(x, 1) == x
  {
    assert Poch(x, 0) == 1.0;
  }

  lemma {:induction false} PochNonnegative(x: real, n: nat)
    requires x >= 0.0
    ensures Poch(x, n) >= 0.0
  {
    if n > 0 { PochNonnegative(x, n - 1); }
  }

  lemma PochEmpty(x: real)
    ensures Poch(x, 0) == 1.0
  {
  }

  /** Splitting a rising factorial is what makes the Beta and Dirichlet updates conjugate. */
  lemma {:induction false} PochSplit(x: real, m: nat, n: nat)
    ensures Poch(x, m + n) == Poch(x, m) * Poch(x + m as real, n)
  {
    hide Poch;
    if n == 0 {
      PochEmpty(x + m as real);
    } else {
      PochSplit(x, m, n - 1);
      PochNext(x, m + n - 1);
      PochNext(x + m as real, n - 1);
      Reassociate(Poch(x, m), Poch(x + m as real, n - 1), x + (m + n - 1) as real, Poch(x, m + n - 1));
    }
  }

  // ----- binomial coefficients

  lemma {:induction false} ChooseOutside(n: nat, k: nat)
    requires k > n
    ensures Choose(n, k) == 0
  {
    if n > 0 {
      ChooseOutside(n - 1, k - 1);
      ChooseOutside(n - 1, k);
    }
  }

  lemma {:induction false} ChoosePositive(n: nat, k: nat)
    requires k <= n
    ensures Choose(n, k) > 0
  {
    if k > 0 { ChoosePositive(n - 1, k - 1); }
  }

  lemma {:induction false} ChooseMonotone(n: nat, m: nat, k: nat)
    requires n <= m
    ensures Choose(n, k) <= Choose(m, k)
  {
    if n < m { ChooseMonotone(n, m - 1, k); }
  }

  lemma {:induction false} ChooseAbsorb(n: nat, k: nat)
    requires k <= n
    ensures (k + 1) * Choose(n, k + 1) == (n - k) * Choose(n, k)
  {
    if n == k {
      ChooseOutside(n, k + 1);
    } else if k == 0 {
      ChooseAbsorb(n - 1, 0);
    } else {
      ChooseAbsorb(n - 1, k);
      ChooseAbsorb(n - 1, k - 1);
      AbsorbStep(n, k, Choose(n - 1, k - 1), Choose(n - 1, k), Choose(n - 1, k + 1));
    }
  }

  lemma AbsorbStep(n: int, k: int, a: int, b: int, c: int)
    requires k * b == (n - k) * a && (k + 1) * c == (n - 1 - k) * b
    ensures (k + 1) * (b + c) == (n - k) * (a + b)
  {
    calc {
      (k + 1) * (b + c);
      (k + 1) * b + (k + 1) * c;
      (k + 1) * b + (n - 1 - k) * b;
      (k + 1 + (n - 1 - k)) * b;
      (k + (n - k)) * b;
      k * b + (n - k) * b;
      (n - k) * a + (n - k) * b;
    }
  }

  /** Choosing s and then a of the rest is choosing a and then s of the rest. */
  lemma {:induction false} ChooseSwap(t: nat, s: nat, a: nat)
    requires s <= t && a <= t
    ensures Choose(t, s) * Choose(t - s, a) == Choose(t, a) * Choose(t - a, s)
  {
    if s == 0 || a == 0 {
    } else if a == t {
      ChooseSwapEdge(t, s);
    } else if s == t {
      ChooseSwapEdge(t, a);
    } else {
      ChooseSwapStep(t, s, a);
      ChooseSwapStep(t, a, s);
      ChooseSwap(t - 1, s - 1, a);
      ChooseSwap(t - 1, s, a - 1);
      ChooseSwap(t - 1, s, a);
    }
  }

  lemma ChooseSwapEdge(t: nat, s: nat)
    requires 0 < s <= t
    ensures Choose(t, s) * Choose(t - s, t) == Choose(t, t) * Choose(0, s)
  {
    ChooseOutside(t - s, t);
  }

  lemma ChooseSwapStep(t: nat, s: nat, a: nat)
    requires 0 < s < t && 0 < a
    ensures Choose(t, s) * Choose(t - s, a)
         == Choose(t - 1, s - 1) * Choose(t - s, a)
          + Choose(t - 1, s) * Choose(t - 1 - s, a - 1) + Choose(t - 1, s) * Choose(t - 1 - s, a)
  {
    TwoSplits(Choose(t, s), Choose(t - 1, s - 1), Choose(t - 1, s),
              Choose(t - s, a), Choose(t - 1 - s, a - 1), Choose(t - 1 - s, a));
  }

  lemma TwoSplits(c: int, p: int, q: int, d: int, v: int, w: int)
    requires c == p + q && d == v + w
    ensures c * d == p * d + q * v + q * w
  {
  }
}

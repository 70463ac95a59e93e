/** Closed-form expected products under Beta and Dirichlet distributions, and the laws that make
    them expectations: normalisation, positivity, total probability and conjugacy. */
module Moments {
  import opened Numbers

  /** E[q^s (1-q)^f] for q ~ Beta(a, b). */
  function BetaMoment(a: real, b: real, s: nat, f: nat): real
    requires a + b > 0.0
  {
    PochPositive(a + b, s + f);
    Poch(a, s) * Poch(b, f) / Poch(a + b, s + f)
  }

  lemma BetaEmpty(a: real, b: real)
    requires a + b > 0.0
    ensures BetaMoment(a, b, 0, 0) == 1.0
  {
  }

  lemma BetaMean(a: real, b: real)
    requires a + b > 0.0
    ensures BetaMoment(a, b, 1, 0) == a / (a + b)
    ensures BetaMoment(a, b, 0, 1) == b / (a + b)
  {
    PochOne(a);
    PochOne(b);
    PochOne(a + b);
  }

  lemma BetaNonnegative(a: real, b: real, s: nat, f: nat)
    requires a >= 0.0 && b >= 0.0 && a + b > 0.0
    ensures BetaMoment(a, b, s, f) >= 0.0
  {
    PochNonnegative(a, s);
    PochNonnegative(b, f);
    PochPositive(a + b, s + f);
    NonnegativeRatio(Poch(a, s), Poch(b, f), Poch(a + b, s + f));
  }

  lemma NonnegativeRatio(x: real, y: real, z: real)
    requires x >= 0.0 && y >= 0.0 && z > 0.0
    ensures x * y / z >= 0.0
  {
    assert x * y >= 0.0;
    var r := x * y / z;
    assert r * z == x * y;
    Cancel(r, 0.0, z);
  }

  /** Conjugacy: observing s successes and f failures first turns Beta(a, b) into Beta(a+s, b+f). */
  lemma BetaConjugate(a: real, b: real, s: nat, f: nat, s': nat, f': nat)
    requires a >= 0.0 && b >= 0.0 && a + b > 0.0
    ensures BetaMoment(a, b, s + s', f + f')
         == BetaMoment(a, b, s, f) * BetaMoment(a + s as real, b + f as real, s', f')
  {
    hide Poch;
    PochSplit(a, s, s');
    PochSplit(b, f, f');
    PochSplit(a + b, s + f, s' + f');
    assert a + s as real + (b + f as real) == a + b + (s + f) as real;
    PochPositive(a + b, s + f);
    PochPositive(a + b + (s + f) as real, s' + f');
    assert s + s' + (f + f') == s + f + (s' + f');
    RatioRegroup(Poch(a, s), Poch(b, f), Poch(a + b, s + f),
                 Poch(a + s as real, s'), Poch(b + f as real, f'), Poch(a + b + (s + f) as real, s' + f'));
  }

  /** The same with every quantity named. */
  lemma BetaUpdate(a: real, b: real, s: nat, f: nat, s': nat, f': nat, a': real, b': real, n: nat, m: nat,
                   x: real, y: real, z: real)
    requires a >= 0.0 && b >= 0.0 && a + b > 0.0
    requires a' == a + s as real && b' == b + f as real && n == s + s' && m == f + f'
    requires x == BetaMoment(a, b, n, m) && y == BetaMoment(a, b, s, f) && z == BetaMoment(a', b', s', f')
    ensures x == y * z
  {
    hide BetaMoment;
    BetaConjugate(a, b, s, f, s', f');
  }

  lemma RatioRegroup(x: real, y: real, z: real, x': real, y': real, z': real)
    requires z != 0.0 && z' != 0.0
    ensures z * z' != 0.0
    ensures (x * x') * (y * y') / (z * z') == (x * y / z) * (x' * y' / z')
  {
    RatioOfProducts(x * y, z, x' * y', z');
    assert (x * x') * (y * y') == (x * y) * (x' * y');
  }

  /** Total probability: the next trial either succeeds or fails. */
  lemma BetaTotal(a: real, b: real, s: nat, f: nat)
    requires a >= 0.0 && b >= 0.0 && a + b > 0.0
    ensures BetaMoment(a, b, s, f) == BetaMoment(a, b, s + 1, f) + BetaMoment(a, b, s, f + 1)
  {
    hide BetaMoment;
    var a', b' := a + s as real, b + f as real;
    BetaConjugate(a, b, s, f, 1, 0);
    BetaConjugate(a, b, s, f, 0, 1);
    BetaMean(a', b');
    SharesAddUp(a', b', BetaMoment(a, b, s, f));
  }

  lemma SharesAddUp(a: real, b: real, m: real)
    requires a + b > 0.0
    ensures m == m * (a / (a + b)) + m * (b / (a + b))
  {
    var p, q := a / (a + b), b / (a + b);
    assert p * (a + b) == a && q * (a + b) == b;
    assert (p + q) * (a + b) == a + b;
    Cancel(p + q, 1.0, a + b);
    assert m * p + m * q == m * (p + q);
  }

  // ----- Dirichlet

  function Total(d: seq<real>): real {
    if d == [] then 0.0 else d[0] + Total(d[1..])
  }

  function Count(r: seq<nat>): nat {
    if r == [] then 0 else r[0] + Count(r[1..])
  }

  function PochProduct(d: seq<real>, r: seq<nat>): real
    requires |d| == |r|
  {
    if d == [] then 1.0 else Poch(d[0], r[0]) * PochProduct(d[1..], r[1..])
  }

  /** E[prod_j pi_j^(r_j)] for pi ~ Dirichlet(d); a zero concentration excludes its category. */
  function DirichletMoment(d: seq<real>, r: seq<nat>): real
    requires |d| == |r| && Total(d) > 0.0
  {
    PochPositive(Total(d), Count(r));
    PochProduct(d, r) / Poch(Total(d), Count(r))
  }

  predicate NonnegativeShapes(d: seq<real>) {
    forall j :: 0 <= j < |d| ==> d[j] >= 0.0
  }

  /** The concentrations after counts r have been observed. */
  function Observe(d: seq<real>, r: seq<nat>): (e: seq<real>)
    requires |d| == |r|
    ensures |e| == |d|
    ensures forall j :: 0 <= j < |d| ==> e[j] == d[j] + r[j] as real
  {
    seq(|d|, j requires 0 <= j < |d| => d[j] + r[j] as real)
  }

  function AddCounts(r: seq<nat>, q: seq<nat>): (t: seq<nat>)
    requires |r| == |q|
    ensures |t| == |r| && forall j :: 0 <= j < |r| ==> t[j] == r[j] + q[j]
  {
    seq(|r|, j requires 0 <= j < |r| => r[j] + q[j])
  }

  function Bump(r: seq<nat>, j: nat): (t: seq<nat>)
    requires j < |r|
    ensures |t| == |r|
  {
    r[j := r[j] + 1]
  }

  lemma {:induction false} TotalNonnegative(d: seq<real>)
    requires NonnegativeShapes(d)
    ensures Total(d) >= 0.0
    ensures forall j :: 0 <= j < |d| ==> d[j] <= Total(d)
  {
    if d != [] { TotalNonnegative(d[1..]); }
  }

  lemma {:induction false} TotalObserve(d: seq<real>, r: seq<nat>)
    requires |d| == |r|
    ensures Total(Observe(d, r)) == Total(d) + Count(r) as real
  {
    if d != [] {
      TotalObserve(d[1..], r[1..]);
      assert Observe(d, r)[1..] == Observe(d[1..], r[1..]);
    }
  }

  lemma {:induction false} CountAdd(r: seq<nat>, q: seq<nat>)
    requires |r| == |q|
    ensures Count(AddCounts(r, q)) == Count(r) + Count(q)
  {
    if r != [] {
      CountAdd(r[1..], q[1..]);
      assert AddCounts(r, q)[1..] == AddCounts(r[1..], q[1..]);
    }
  }

  lemma {:induction false} CountBump(r: seq<nat>, j: nat)
    requires j < |r|
    ensures Count(Bump(r, j)) == Count(r) + 1
  {
    if j > 0 {
      CountBump(r[1..], j - 1);
      assert Bump(r, j)[1..] == Bump(r[1..], j - 1);
    }
  }

  lemma {:induction false} PochProductNonnegative(d: seq<real>, r: seq<nat>)
    requires |d| == |r| && NonnegativeShapes(d)
    ensures PochProduct(d, r) >= 0.0
  {
    if d != [] {
      PochProductNonnegative(d[1..], r[1..]);
      PochNonnegative(d[0], r[0]);
      ProductMonotone(0.0, Poch(d[0], r[0]), 0.0, PochProduct(d[1..], r[1..]));
    }
  }

  lemma DirichletNonnegative(d: seq<real>, r: seq<nat>)
    requires |d| == |r| && NonnegativeShapes(d) && Total(d) > 0.0
    ensures DirichletMoment(d, r) >= 0.0
  {
    PochProductNonnegative(d, r);
    PochPositive(Total(d), Count(r));
    NonnegativeRatio(1.0, PochProduct(d, r), Poch(Total(d), Count(r)));
  }

  lemma {:induction false} PochProductSplit(d: seq<real>, r: seq<nat>, q: seq<nat>)
    requires |d| == |r| == |q|
    ensures PochProduct(d, AddCounts(r, q)) == PochProduct(d, r) * PochProduct(Observe(d, r), q)
  {
    hide Poch;
    if d != [] {
      PochProductSplit(d[1..], r[1..], q[1..]);
      assert AddCounts(r, q)[1..] == AddCounts(r[1..], q[1..]);
      assert Observe(d, r)[1..] == Observe(d[1..], r[1..]);
      PochSplit(d[0], r[0], q[0]);
      Regroup(Poch(d[0], r[0]), Poch(d[0] + r[0] as real, q[0]),
              PochProduct(d[1..], r[1..]), PochProduct(Observe(d[1..], r[1..]), q[1..]));
    }
  }

  /** Conjugacy: observing counts r turns Dirichlet(d) into Dirichlet(d + r). */
  lemma DirichletConjugate(d: seq<real>, r: seq<nat>, q: seq<nat>)
    requires |d| == |r| == |q| && NonnegativeShapes(d) && Total(d) > 0.0
    ensures Total(Observe(d, r)) > 0.0
    ensures DirichletMoment(d, AddCounts(r, q)) == DirichletMoment(d, r) * DirichletMoment(Observe(d, r), q)
  {
    hide Poch, PochProduct, Total, Count;
    TotalObserve(d, r);
    CountAdd(r, q);
    PochProductSplit(d, r, q);
    PochSplit(Total(d), Count(r), Count(q));
    PochPositive(Total(d), Count(r));
    PochPositive(Total(d) + Count(r) as real, Count(q));
    RatioOfProducts(PochProduct(d, r), Poch(Total(d), Count(r)),
                    PochProduct(Observe(d, r), q), Poch(Total(d) + Count(r) as real, Count(q)));
  }

  /** The factor a further draw of category j contributes. */
  function BumpProduct(d: seq<real>, r: seq<nat>, j: nat): real
    requires |d| == |r|
  {
    if j < |d| then PochProduct(d, Bump(r, j)) else 0.0
  }

  lemma BumpRest(d: seq<real>, r: seq<nat>, j: nat)
    requires |d| == |r| > 0
    ensures BumpProduct(d, r, j + 1) == Poch(d[0], r[0]) * BumpProduct(d[1..], r[1..], j)
  {
    hide Poch;
    if j + 1 < |d| {
      assert Bump(r, j + 1)[1..] == Bump(r[1..], j);
    }
  }

  lemma BumpFirst(d: seq<real>, r: seq<nat>)
    requires |d| == |r| > 0
    ensures BumpProduct(d, r, 0) == Poch(d[0], r[0]) * (d[0] + r[0] as real) * PochProduct(d[1..], r[1..])
  {
    hide Poch;
    assert Bump(r, 0)[1..] == r[1..];
    PochNext(d[0], r[0]);
  }

  lemma {:induction false} BumpProductTotal(d: seq<real>, r: seq<nat>)
    requires |d| == |r|
    ensures Sum(|d|, (j: nat) => BumpProduct(d, r, j)) == PochProduct(d, r) * (Total(d) + Count(r) as real)
  {
    hide Poch, BumpProduct;
    if d != [] {
      var n, d', r', p := |d| - 1, d[1..], r[1..], Poch(d[0], r[0]);
      var h := (j: nat) => BumpProduct(d', r', j);
      BumpProductTotal(d', r');
      SumFirst(n, (j: nat) => BumpProduct(d, r, j));
      forall j: nat ensures BumpProduct(d, r, j + 1) == p * h(j) {
        BumpRest(d, r, j);
      }
      SumCongruence(n, (j: nat) => ((j: nat) => BumpProduct(d, r, j))(j + 1), (j: nat) => p * h(j));
      SumScale(n, p, h);
      BumpFirst(d, r);
      BumpAlgebra(p, d[0] + r[0] as real, PochProduct(d', r'), Total(d') + Count(r') as real);
    }
  }

  lemma BumpAlgebra(p: real, x: real, q: real, y: real)
    ensures p * x * q + p * (q * y) == p * q * (x + y)
  {
  }

  /** The expected product after one more draw of category j; zero outside the categories. */
  function DirichletBump(d: seq<real>, r: seq<nat>, j: nat): real
    requires |d| == |r| && Total(d) > 0.0
  {
    if j < |d| then DirichletMoment(d, Bump(r, j)) else 0.0
  }

  /** Total probability: the next draw falls into exactly one category. */
  lemma DirichletTotal(d: seq<real>, r: seq<nat>)
    requires |d| == |r| && Total(d) > 0.0
    ensures Sum(|d|, (j: nat) => DirichletBump(d, r, j)) == DirichletMoment(d, r)
  {
    hide Total, Count, PochProduct, Poch, BumpProduct, DirichletBump;
    var t, c := Total(d), Count(r);
    PochPositive(t, c);
    PochPositive(t, c + 1);
    PochNext(t, c);
    var i := 1.0 / Poch(t, c + 1);
    var g, h := (j: nat) => BumpProduct(d, r, j), (j: nat) => DirichletBump(d, r, j);
    forall j: nat | j < |d| ensures h(j) == i * g(j) {
      BumpRatio(d, r, j);
    }
    SumCongruence(|d|, h, (j: nat) => i * g(j));
    SumScale(|d|, i, g);
    BumpProductTotal(d, r);
    CancelFactor(PochProduct(d, r), t + c as real, Poch(t, c));
  }

  lemma BumpRatio(d: seq<real>, r: seq<nat>, j: nat)
    requires |d| == |r| && Total(d) > 0.0 && j < |d|
    ensures Poch(Total(d), Count(r) + 1) > 0.0
    ensures DirichletBump(d, r, j) == (1.0 / Poch(Total(d), Count(r) + 1)) * BumpProduct(d, r, j)
  {
    hide Total, Count, PochProduct, Poch;
    PochPositive(Total(d), Count(r) + 1);
    CountBump(r, j);
    InverseTimes(PochProduct(d, Bump(r, j)), Poch(Total(d), Count(r) + 1));
  }

  lemma InverseTimes(x: real, y: real)
    requires y != 0.0
    ensures x / y == (1.0 / y) * x
  {
    var i := 1.0 / y;
    assert i * y == 1.0;
    assert (i * x) * y == x * (i * y);
    QuotientUnique(i * x, x, y);
  }

  lemma CancelFactor(p: real, x: real, z: real)
    requires x > 0.0 && z > 0.0
    ensures z * x != 0.0
    ensures (1.0 / (z * x)) * (p * x) == p / z
  {
    assert z * x > 0.0;
    var i, q := 1.0 / (z * x), p / z;
    assert i * (z * x) == 1.0 && q * z == p;
    assert i * (p * x) == i * (q * z * x) == q * (i * (z * x));
  }

  /** The first category separates from the relative shares of the rest: the full moment is the
      Beta moment of the first category times the Dirichlet moment of the later shares. */
  lemma DirichletFactors(d: seq<real>, r: seq<nat>)
    requires |d| == |r| > 0 && NonnegativeShapes(d) && Total(d[1..]) > 0.0
    ensures Total(d) > 0.0
    ensures DirichletMoment(d, r)
         == BetaMoment(d[0], Total(d[1..]), r[0], Count(r[1..])) * DirichletMoment(d[1..], r[1..])
  {
    var t, c := Total(d[1..]), Count(r[1..]);
    PochPositive(t, c);
    PochPositive(d[0] + t, r[0] + c);
    FactorAlgebra(Poch(d[0], r[0]), Poch(t, c), Poch(d[0] + t, r[0] + c), PochProduct(d[1..], r[1..]));
  }

  lemma FactorAlgebra(x: real, y: real, z: real, p: real)
    requires y > 0.0 && z > 0.0
    ensures x * p / z == (x * y / z) * (p / y)
  {
    RatioOfProducts(x * y, z, p, y);
    assert z * y > 0.0;
    assert (x * y) * p == (x * p) * y;
    var q := x * p / z;
    assert q * z == x * p;
    assert q * (z * y) == (x * p) * y;
    QuotientUnique(q, (x * p) * y, z * y);
  }
}

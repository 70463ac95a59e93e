/** With alpha and pi known, expectations are plain products: the tuple expansion of the
    regularised estimator then reproduces, term by term, the plain estimator's prediction. */
module KnownParameters {
  import opened Numbers
  import opened Expectations
  import opened Trajectories
  import DE = DiscoveryExecution

  function BlockProduct(pi: seq<real>, blocks: multiset<nat>, n: nat): real
    requires n <= |pi|
  {
    if n == 0 then 1.0 else BlockProduct(pi, blocks, n - 1) * Pow(pi[n - 1], blocks[n - 1])
  }

  /** The monomial's value at alpha and pi. */
  function Value(alpha: real, pi: seq<real>): Functional {
    (m: Monomial) => Pow(alpha, m.s) * Pow(1.0 - alpha, m.f) * BlockProduct(pi, m.blocks, |pi|)
  }

  lemma {:induction false} BlockProductTimes(pi: seq<real>, a: multiset<nat>, b: multiset<nat>, n: nat)
    requires n <= |pi|
    ensures BlockProduct(pi, a + b, n) == BlockProduct(pi, a, n) * BlockProduct(pi, b, n)
  {
    hide Pow;
    if n > 0 {
      BlockProductTimes(pi, a, b, n - 1);
      PowAdd(pi[n - 1], a[n - 1], b[n - 1]);
      assert (a + b)[n - 1] == a[n - 1] + b[n - 1];
      Merge(BlockProduct(pi, a + b, n - 1), BlockProduct(pi, a, n - 1), BlockProduct(pi, b, n - 1),
            Pow(pi[n - 1], (a + b)[n - 1]), Pow(pi[n - 1], a[n - 1]), Pow(pi[n - 1], b[n - 1]));
    }
  }

  lemma Merge(x: real, x1: real, x2: real, y: real, y1: real, y2: real)
    requires x == x1 * x2 && y == y1 * y2
    ensures x * y == (x1 * y1) * (x2 * y2)
  {
  }

  lemma ValueTimes(alpha: real, pi: seq<real>, m: Monomial, t: Monomial)
    ensures Value(alpha, pi)(m.Times(t)) == Value(alpha, pi)(m) * Value(alpha, pi)(t)
  {
    hide Pow, BlockProduct;
    PowAdd(alpha, m.s, t.s);
    PowAdd(1.0 - alpha, m.f, t.f);
    BlockProductTimes(pi, m.blocks, t.blocks, |pi|);
    Merge(Pow(alpha, m.s + t.s), Pow(alpha, m.s), Pow(alpha, t.s),
          Pow(1.0 - alpha, m.f + t.f), Pow(1.0 - alpha, m.f), Pow(1.0 - alpha, t.f));
    Merge(Pow(alpha, m.s + t.s) * Pow(1.0 - alpha, m.f + t.f), Pow(alpha, m.s) * Pow(1.0 - alpha, m.f),
          Pow(alpha, t.s) * Pow(1.0 - alpha, t.f), BlockProduct(pi, m.blocks + t.blocks, |pi|),
          BlockProduct(pi, m.blocks, |pi|), BlockProduct(pi, t.blocks, |pi|));
  }

  lemma {:induction false} BlockProductUnit(pi: seq<real>, n: nat)
    requires n <= |pi|
    ensures BlockProduct(pi, multiset{}, n) == 1.0
  {
    if n > 0 { BlockProductUnit(pi, n - 1); }
  }

  lemma ValueUnit(alpha: real, pi: seq<real>)
    ensures Value(alpha, pi)(UNIT) == 1.0
  {
    BlockProductUnit(pi, |pi|);
  }

  lemma {:induction false} ActValue(alpha: real, pi: seq<real>, terms: seq<Monomial>, m: Monomial)
    ensures Act(Value(alpha, pi), terms, m) == Value(alpha, pi)(m) * Act(Value(alpha, pi), terms, UNIT)
  {
    hide Value, Monomial.Times;
    if terms != [] {
      ActValue(alpha, pi, terms[1..], m);
      ValueTimes(alpha, pi, m, terms[0]);
      TimesLaws(terms[0], UNIT, UNIT);
      var e := Value(alpha, pi);
      Distribute(e(m), e(terms[0]), Act(e, terms[1..], UNIT), Act(e, terms, UNIT));
    }
  }

  /** Powers of a sum of terms are powers of its value ... */
  lemma {:induction false} PowerOfValue(alpha: real, pi: seq<real>, terms: seq<Monomial>, n: nat, m: Monomial)
    ensures var e := Value(alpha, pi);
      Power(e, terms, n)(m) == Pow(Act(e, terms, UNIT), n) * e(m)
  {
    hide Value, Act, Power, Pow;
    var e := Value(alpha, pi);
    var s := Act(e, terms, UNIT);
    PowNext(s, 0);
    PowerUnfold(e, terms, n, m);
    PowerUnfold(e, terms, 0, m);
    if n > 0 {
      var p := Power(e, terms, n - 1);
      forall v: Monomial ensures p(v) == Pow(s, n - 1) * e(v) {
        PowerOfValue(alpha, pi, terms, n - 1, v);
      }
      ScaledAct(p, Pow(s, n - 1), e, terms, m);
      ActValue(alpha, pi, terms, m);
      PowNext(s, n - 1);
      ValueAlgebra(e(m), s, Pow(s, n - 1), Pow(s, n), Act(e, terms, m));
    }
  }

  /** ... and powers of its complement are powers of the complement's value. */
  lemma {:induction false} ComplementOfValue(alpha: real, pi: seq<real>, terms: seq<Monomial>, n: nat, m: Monomial)
    ensures var e := Value(alpha, pi);
      ComplementPower(e, terms, n)(m) == Pow(1.0 - Act(e, terms, UNIT), n) * e(m)
  {
    hide Value, Act, ComplementPower;
    var e := Value(alpha, pi);
    var a := Act(e, terms, UNIT);
    PowNext(1.0 - a, 0);
    ComplementUnfold(e, terms, n, m);
    ComplementUnfold(e, terms, 0, m);
    if n > 0 {
      var c, p := ComplementPower(e, terms, n - 1), Pow(1.0 - a, n - 1);
      forall v: Monomial ensures c(v) == p * e(v) {
        ComplementOfValue(alpha, pi, terms, n - 1, v);
      }
      ScaledAct(c, p, e, terms, m);
      ActValue(alpha, pi, terms, m);
      PowNext(1.0 - a, n - 1);
      Difference(p, e(m), a, Act(e, terms, m), Pow(1.0 - a, n));
    }
  }

  lemma Difference(p: real, e: real, a: real, x: real, p': real)
    requires x == e * a && p' == (1.0 - a) * p
    ensures p * e - p * x == p' * e
  {
  }

  lemma ScaledAct(e': Functional, c: real, e: Functional, terms: seq<Monomial>, m: Monomial)
    requires forall v :: e'(v) == c * e(v)
    ensures Act(e', terms, m) == c * Act(e, terms, m)
  {
    hide Act;
    var zero := (v: Monomial) => 0.0;
    forall v: Monomial ensures e'(v) == zero(v) + c * e(v) {}
    ActLinear(e', zero, c, e, terms, m);
    ActZero(zero, terms, m);
  }

  lemma ValueAlgebra(e: real, s: real, p: real, p': real, a: real)
    requires a == e * s && p' == s * p
    ensures p * a == p' * e
  {
  }

  // ----- the path sum is the convolution

  /** pi_0 + ... + pi_(n-1). */
  function Prefix(pi: seq<real>, n: nat): real
    requires n <= |pi|
  {
    if n == 0 then 0.0 else Prefix(pi, n - 1) + pi[n - 1]
  }

  /** The cumulative execution curve of shares pi; the last share is noncompletion. */
  function Curve(pi: seq<real>): (epsilon: seq<real>)
    requires pi != []
    ensures |epsilon| == |pi| - 1
  {
    seq(|pi| - 1, j requires 0 <= j < |pi| - 1 => Prefix(pi, j + 1))
  }

  lemma {:induction false} SingleBlock(pi: seq<real>, j: nat, n: nat)
    requires n <= |pi|
    ensures BlockProduct(pi, multiset{j}, n) == if j < n then pi[j] else 1.0
  {
    if n > 0 {
      SingleBlock(pi, j, n - 1);
      assert Pow(pi[n - 1], 0) == 1.0;
      assert Pow(pi[n - 1], 1) == pi[n - 1] * Pow(pi[n - 1], 0);
      assert multiset{j}[n - 1] == if j == n - 1 then 1 else 0;
    }
  }

  lemma PathValue(alpha: real, pi: seq<real>, p: Path)
    requires p.block < |pi|
    ensures Value(alpha, pi)(p.Term()) == alpha * Pow(1.0 - alpha, p.failures) * pi[p.block]
  {
    SingleBlock(pi, p.block, |pi|);
    assert Pow(alpha, 1) == alpha * Pow(alpha, 0);
  }

  lemma {:induction false} RowValue(alpha: real, pi: seq<real>, failures: nat, lo: nat, hi: nat)
    requires lo <= hi <= |pi|
    ensures Act(Value(alpha, pi), Terms(Row(failures, lo, hi)), UNIT)
         == alpha * Pow(1.0 - alpha, failures) * (Prefix(pi, hi) - Prefix(pi, lo))
    decreases hi - lo
  {
    hide Value, Pow, Monomial.Times, Path.Term;
    if lo < hi {
      RowValue(alpha, pi, failures, lo + 1, hi);
      PathValue(alpha, pi, Path(failures, lo));
      TimesLaws(Path(failures, lo).Term(), UNIT, UNIT);
      RowUnfold(Value(alpha, pi), failures, lo, hi);
      assert Prefix(pi, lo + 1) == Prefix(pi, lo) + pi[lo];
      Distribute(alpha * Pow(1.0 - alpha, failures), pi[lo], Prefix(pi, hi) - Prefix(pi, lo + 1),
                 Prefix(pi, hi) - Prefix(pi, lo));
    } else {
      ActEmpty(Value(alpha, pi), UNIT);
    }
  }

  lemma RowUnfold(e: Functional, failures: nat, lo: nat, hi: nat)
    requires lo < hi
    ensures Act(e, Terms(Row(failures, lo, hi)), UNIT)
         == e(UNIT.Times(Path(failures, lo).Term())) + Act(e, Terms(Row(failures, lo + 1, hi)), UNIT)
  {
    assert Terms(Row(failures, lo, hi)) == [Path(failures, lo).Term()] + Terms(Row(failures, lo + 1, hi));
  }

  lemma {:induction false} PathsAreConvolution(alpha: real, pi: seq<real>, k: nat, from: nat)
    requires from <= k < |pi|
    ensures DE.Convolution(alpha, Curve(pi), k, from) + Act(Value(alpha, pi), Terms(PathsFrom(k, from)), UNIT)
         == DE.Convolution(alpha, Curve(pi), k, k)
    decreases k - from
  {
    hide Value, Pow, Row, Act, Terms, DE.Convolution, Curve;
    if from < k {
      assert PathsFrom(k, from) == Row(from, 0, k - from) + PathsFrom(k, from + 1);
      PathsAreConvolution(alpha, pi, k, from + 1);
      ConvolutionUnfold(alpha, pi, k, from);
      RowValue(alpha, pi, from, 0, k - from);
      ActTerms(Value(alpha, pi), Row(from, 0, k - from), PathsFrom(k, from + 1), UNIT);
      var a := Act(Value(alpha, pi), Terms(Row(from, 0, k - from)), UNIT);
      var b := Act(Value(alpha, pi), Terms(PathsFrom(k, from + 1)), UNIT);
      assert Act(Value(alpha, pi), Terms(PathsFrom(k, from)), UNIT) == a + b;
      assert DE.Convolution(alpha, Curve(pi), k, from + 1) == DE.Convolution(alpha, Curve(pi), k, from) + a;
      assert DE.Convolution(alpha, Curve(pi), k, from + 1) + b == DE.Convolution(alpha, Curve(pi), k, k);
    } else {
      assert Terms([]) == [] by { NoTerms(); }
      ActEmpty(Value(alpha, pi), UNIT);
    }
  }

  lemma NoTerms()
    ensures Terms([]) == []
  {
  }

  lemma ConvolutionUnfold(alpha: real, pi: seq<real>, k: nat, step: nat)
    requires step < k < |pi|
    ensures DE.Convolution(alpha, Curve(pi), k, step + 1)
         == DE.Convolution(alpha, Curve(pi), k, step)
          + alpha * Pow(1.0 - alpha, step) * (Prefix(pi, k - step) - Prefix(pi, 0))
  {
    hide Pow;
    assert Curve(pi)[k - step - 1] == Prefix(pi, k - step);
    assert Prefix(pi, 0) == 0.0;
  }

  /** The sum over all success paths is the plain estimator's convolution when its execution curve is
      the prefix sum of the shares. */
  lemma PathSumIsConvolution(alpha: real, pi: seq<real>, k: nat)
    requires k < |pi|
    ensures Act(Value(alpha, pi), Terms(SuccessPaths(k)), UNIT) == DE.TrajectorySuccess(alpha, Curve(pi), k)
  {
    hide Value, Act, Terms;
    PathsAreConvolution(alpha, pi, k, 0);
  }

  /** Summed over all ordered r-tuples, the paths give the r-th power of one arm's success. */
  lemma TuplesArePowers(alpha: real, pi: seq<real>, k: nat, r: nat)
    requires k < |pi|
    ensures SelectionSum(Value(alpha, pi), Selections(SuccessPaths(k), r), UNIT)
         == Pow(DE.TrajectorySuccess(alpha, Curve(pi), k), r)
  {
    hide *;
    PathSumIsConvolution(alpha, pi, k);
    ValueUnit(alpha, pi);
    SelectionsArePower(Value(alpha, pi), SuccessPaths(k), r, UNIT);
    PowerOfValue(alpha, pi, Terms(SuccessPaths(k)), r, UNIT);
  }

  /** The whole alternating expansion gives exactly the plain estimator's any-of-n prediction. */
  lemma AgreesWithPlainEstimator(alpha: real, pi: seq<real>, n: nat, k: nat)
    requires k < |pi|
    ensures AnySuccess(Value(alpha, pi), n, k) == DE.Predicted(alpha, Curve(pi), n, k)
  {
    hide Value, Pow, Act, AlternatingSum, ComplementPower, SuccessPaths, DE.TrajectorySuccess;
    PathSumIsConvolution(alpha, pi, k);
    ValueUnit(alpha, pi);
    ComplementOfValue(alpha, pi, Terms(SuccessPaths(k)), n, UNIT);
    AlternatingIsComplement(Value(alpha, pi), Terms(SuccessPaths(k)), n, n + 1, UNIT);
  }
}

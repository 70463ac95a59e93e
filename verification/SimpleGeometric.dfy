/** The finite-sample geometric estimator: pass@(n*k) read off a sample of short trials by counting
    the attempt-sized subsets that contain only failures. */
module SimpleGeometric {
  import opened Numbers

  datatype Estimate = Estimate(value: real) | TooFewTrials

  function SuccessProbability(successes: nat, trials: nat, n: nat, k: nat): Estimate
    requires successes <= trials
  {
    if trials < n * k then TooFewTrials
    else Estimate.Estimate(PassAt(successes, trials, n * k))
  }

  /** 1 - C(T-S, a) / C(T, a). */
  function PassAt(successes: nat, trials: nat, attempts: nat): real
    requires successes <= trials && attempts <= trials
  {
    ChoosePositive(trials, attempts);
    1.0 - Fraction(Choose(trials - successes, attempts), Choose(trials, attempts))
  }

  // ----- what the quotient counts

  /** The number of ways to pick a trials out of the sample. */
  function Subsets(sample: seq<bool>, a: nat): nat {
    if a == 0 then 1
    else if sample == [] then 0
    else Subsets(sample[1..], a - 1) + Subsets(sample[1..], a)
  }

  /** The number of ways to pick a trials out of the sample so that none of them succeeded. */
  function FailingSubsets(sample: seq<bool>, a: nat): nat {
    if a == 0 then 1
    else if sample == [] then 0
    else (if sample[0] then 0 else FailingSubsets(sample[1..], a - 1)) + FailingSubsets(sample[1..], a)
  }

  function Successes(sample: seq<bool>): (s: nat)
    ensures s <= |sample|
  {
    if sample == [] then 0 else (if sample[0] then 1 else 0) + Successes(sample[1..])
  }

  lemma {:induction false} SubsetsAreChoose(sample: seq<bool>, a: nat)
    ensures Subsets(sample, a) == Choose(|sample|, a)
    ensures FailingSubsets(sample, a) == Choose(|sample| - Successes(sample), a)
  {
    if a > 0 && sample != [] {
      SubsetsAreChoose(sample[1..], a - 1);
      SubsetsAreChoose(sample[1..], a);
    }
  }

  /** The estimate is the fraction of attempt-sized subsets of the measured trials that contain a
      success, whatever the order of the trials. */
  lemma PassAtCountsSubsets(sample: seq<bool>, a: nat)
    requires a <= |sample|
    ensures Subsets(sample, a) > 0
    ensures PassAt(Successes(sample), |sample|, a) * Subsets(sample, a) as real
         == (Subsets(sample, a) - FailingSubsets(sample, a)) as real
  {
    hide Fraction, Choose, Subsets, FailingSubsets;
    SubsetsAreChoose(sample, a);
    ChoosePositive(|sample|, a);
    FractionTimes(FailingSubsets(sample, a), Subsets(sample, a));
  }

  /** A prediction is refused exactly when fewer trials were measured than it needs attempts, one for
      every block of every arm; otherwise it is the fraction of the subsets of that many measured
      trials that contain a success. */
  lemma PredictionCountsSubsets(sample: seq<bool>, n: nat, k: nat)
    ensures var prediction := SuccessProbability(Successes(sample), |sample|, n, k);
      && (prediction.TooFewTrials? <==> |sample| < n * k)
      && (!prediction.TooFewTrials? ==>
            && Subsets(sample, n * k) > 0
            && prediction.value * Subsets(sample, n * k) as real
               == (Subsets(sample, n * k) - FailingSubsets(sample, n * k)) as real)
  {
    hide PassAt, Subsets, FailingSubsets;
    if |sample| >= n * k { PassAtCountsSubsets(sample, n * k); }
  }

  // ----- unbiasedness

  /** Pr(S = s) for s successes in t independent trials of success probability q. */
  function BinomialWeight(t: nat, s: nat, q: real): real {
    if s > t then 0.0 else Choose(t, s) as real * (Pow(q, s) * Pow(1.0 - q, t - s))
  }

  function Shifted(t: nat, s: nat, q: real): real {
    if s == 0 then 0.0 else q * BinomialWeight(t, s - 1, q)
  }

  lemma BinomialEdges(t: nat, q: real)
    ensures BinomialWeight(t, t + 1, q) == 0.0
    ensures BinomialWeight(0, 0, q) == 1.0
  {
  }

  lemma BinomialOutside(t: nat, s: nat, q: real)
    requires s > t
    ensures BinomialWeight(t, s, q) == 0.0
  {
  }

  lemma BinomialStep(t: nat, s: nat, q: real)
    requires t > 0
    ensures BinomialWeight(t, s, q) == (1.0 - q) * BinomialWeight(t - 1, s, q) + Shifted(t - 1, s, q)
  {
    hide Pow, Choose;
    PowNext(q, 0);
    PowNext(1.0 - q, 0);
    ChooseOutside(t - 1, t);
    ChooseUnfold(t, s);
    if s == 0 {
      PowNext(1.0 - q, t - 1);
      BinomialAlgebra(q, 0.0, Pow(1.0 - q, t - 1), 0.0, 1.0, 1.0, 1.0, Pow(1.0 - q, t));
    } else if s < t {
      PowNext(q, s - 1);
      PowNext(1.0 - q, t - 1 - s);
      BinomialAlgebra(q, Pow(q, s - 1), Pow(1.0 - q, t - 1 - s), Choose(t - 1, s - 1) as real,
                      Choose(t - 1, s) as real, Choose(t, s) as real, Pow(q, s), Pow(1.0 - q, t - s));
    } else if s == t {
      PowNext(q, t - 1);
      BinomialAlgebra(q, Pow(q, t - 1), 0.0, Choose(t - 1, t - 1) as real, 0.0, Choose(t, t) as real, Pow(q, t), 1.0);
    }
  }

  lemma ChooseUnfold(t: nat, s: nat)
    requires t > 0
    ensures Choose(t, 0) == Choose(t - 1, 0) == 1
    ensures s > 0 ==> Choose(t, s) == Choose(t - 1, s - 1) + Choose(t - 1, s)
  {
  }

  lemma BinomialAlgebra(q: real, x: real, y: real, a: real, b: real, c: real, x': real, y': real)
    requires c == a + b && (a == 0.0 || x' == q * x) && (b == 0.0 || y' == (1.0 - q) * y)
    ensures c * (x' * y') == (1.0 - q) * (b * (x' * y)) + q * (a * (x * y'))
  {
    assert b * (x' * y') == (1.0 - q) * (b * (x' * y));
    assert a * (x' * y') == q * (a * (x * y'));
  }

  /** Pr(S < n). */
  function Mass(t: nat, n: nat, q: real): real {
    if n == 0 then 0.0 else Mass(t, n - 1, q) + BinomialWeight(t, n - 1, q)
  }

  lemma {:induction false} MassStep(t: nat, n: nat, q: real)
    requires t > 0 && n > 0
    ensures Mass(t, n, q) == (1.0 - q) * Mass(t - 1, n, q) + q * Mass(t - 1, n - 1, q)
  {
    hide BinomialWeight;
    var t' := t - 1;
    BinomialStep(t, n - 1, q);
    if n == 1 {
      assert Mass(t', 1, q) == Mass(t', 0, q) + BinomialWeight(t', 0, q);
    } else {
      MassStep(t, n - 1, q);
      LinearStep(1.0 - q, q, Mass(t', n - 1, q), BinomialWeight(t', n - 1, q), Mass(t', n, q),
                 Mass(t', n - 2, q), BinomialWeight(t', n - 2, q), Mass(t', n - 1, q));
    }
  }

  lemma LinearStep(p: real, q: real, a: real, x: real, a': real, b: real, y: real, b': real)
    requires a' == a + x && b' == b + y
    ensures p * a' + q * b' == (p * a + q * b) + (p * x + q * y)
  {
  }

  /** The binomial theorem: the weights are a probability distribution on 0..t. */
  lemma {:induction false} MassTotal(t: nat, n: nat, q: real)
    requires n > t
    ensures Mass(t, n, q) == 1.0
  {
    hide BinomialWeight;
    if n > t + 1 {
      MassTotal(t, n - 1, q);
      BinomialOutside(t, n - 1, q);
    } else if t == 0 {
      BinomialEdges(0, q);
      assert Mass(0, 1, q) == Mass(0, 0, q) + BinomialWeight(0, 0, q);
    } else {
      MassTotal(t - 1, n - 1, q);
      MassTotal(t - 1, n, q);
      MassStep(t, n, q);
    }
  }

  lemma FailureTerm(t: nat, s: nat, a: nat, q: real)
    requires a <= t && s <= t
    ensures Choose(t, a) > 0
    ensures BinomialWeight(t, s, q) * Fraction(Choose(t - s, a), Choose(t, a))
         == Pow(1.0 - q, a) * BinomialWeight(t - a, s, q)
  {
    hide Choose, Pow;
    ChoosePositive(t, a);
    ChooseSwap(t, s, a);
    if s + a > t {
      ChooseOutside(t - s, a);
    } else {
      PowAdd(1.0 - q, a, t - a - s);
      ProductCast(Choose(t, s), Choose(t - s, a));
      ProductCast(Choose(t, a), Choose(t - a, s));
      FailureAlgebra(Choose(t, a) as real, Choose(t, s) as real, Choose(t - s, a) as real,
                     Choose(t - a, s) as real, Pow(q, s), Pow(1.0 - q, a), Pow(1.0 - q, t - a - s));
    }
  }

  lemma FailureAlgebra(c: real, u: real, v: real, w: real, x: real, y: real, z: real)
    requires c != 0.0 && u * v == c * w
    ensures (u * (x * (y * z))) * (v / c) == y * (w * (x * z))
  {
    var r, m := v / c, x * (y * z);
    assert r * c == v;
    assert (u * r) * c == u * v;
    assert (u * r - w) * c == 0.0;
    assert u * r == w;
    assert (u * m) * r == w * m;
    assert y * (w * (x * z)) == w * m;
  }

  /** The contribution of the outcomes S < n to the expectation of the estimate. */
  function ExpectedEstimate(t: nat, a: nat, q: real, n: nat): real
    requires a <= t && n <= t + 1
  {
    if n == 0 then 0.0
    else ExpectedEstimate(t, a, q, n - 1) + BinomialWeight(t, n - 1, q) * PassAt(n - 1, t, a)
  }

  lemma {:induction false} ExpectedEstimatePartial(t: nat, a: nat, q: real, n: nat)
    requires a <= t && n <= t + 1
    ensures ExpectedEstimate(t, a, q, n) == Mass(t, n, q) - Pow(1.0 - q, a) * Mass(t - a, n, q)
  {
    hide BinomialWeight, Fraction, Pow, Choose;
    if n > 0 {
      ExpectedEstimatePartial(t, a, q, n - 1);
      FailureTerm(t, n - 1, a, q);
      var failing := Fraction(Choose(t - (n - 1), a), Choose(t, a));
      Distribute(BinomialWeight(t, n - 1, q), 1.0 - failing, failing, 1.0);
      LinearStep(Pow(1.0 - q, a), 0.0, Mass(t - a, n - 1, q), BinomialWeight(t - a, n - 1, q),
                 Mass(t - a, n, q), 0.0, 0.0, 0.0);
    }
  }

  /** The estimator is unbiased: over t independent trials of any success probability, its
      expectation is the probability that one of a fresh attempts succeeds. */
  lemma Unbiased(t: nat, a: nat, q: real)
    requires a <= t
    ensures ExpectedEstimate(t, a, q, t + 1) == 1.0 - Pow(1.0 - q, a)
  {
    hide Pow;
    ExpectedEstimatePartial(t, a, q, t + 1);
    MassTotal(t, t + 1, q);
    MassTotal(t - a, t + 1, q);
  }

  // ----- range and monotonicity

  lemma PassAtIsProbability(s: nat, t: nat, a: nat)
    requires s <= t && a <= t
    ensures 0.0 <= PassAt(s, t, a) <= 1.0
  {
    ChoosePositive(t, a);
    ChooseMonotone(t - s, t, a);
    FractionUnit(Choose(t - s, a), Choose(t, a));
  }

  lemma PassAtGrowsWithSuccesses(s: nat, s': nat, t: nat, a: nat)
    requires s <= s' <= t && a <= t
    ensures PassAt(s, t, a) <= PassAt(s', t, a)
  {
    hide Fraction, Choose;
    ChoosePositive(t, a);
    ChooseMonotone(t - s', t - s, a);
    var x, y, c := Choose(t - s', a), Choose(t - s, a), Choose(t, a);
    assert x * c <= y * c;
    FractionOrder(x, c, y, c);
  }

  lemma {:induction false} PassAtGrowsWithAttempts(s: nat, t: nat, a: nat, a': nat)
    requires s <= t && a <= a' <= t
    ensures PassAt(s, t, a) <= PassAt(s, t, a')
  {
    hide PassAt;
    if a < a' {
      PassAtGrowsWithAttempts(s, t, a, a' - 1);
      PassAtStep(s, t, a' - 1);
    }
  }

  lemma PassAtStep(s: nat, t: nat, a: nat)
    requires s <= t && a < t
    ensures PassAt(s, t, a) <= PassAt(s, t, a + 1)
  {
    hide Fraction, Choose;
    ChoosePositive(t, a);
    ChoosePositive(t, a + 1);
    var f := t - s;
    if f < a {
      ChooseOutside(f, a);
      ChooseOutside(f, a + 1);
    } else {
      ChooseAbsorb(f, a);
      ChooseAbsorb(t, a);
      StepBound(a + 1, f - a, t - a, Choose(f, a), Choose(f, a + 1), Choose(t, a), Choose(t, a + 1));
    }
    FractionOrder(Choose(f, a + 1), Choose(t, a + 1), Choose(f, a), Choose(t, a));
  }

  lemma MultiplyThrough(b: nat, g: nat, x: nat, x': nat, y: nat, p: nat, t: nat)
    requires b * x' == g * x && p == x' * y && t == x * y
    ensures b * p == g * t
  {
    assert b * p == (b * x') * y;
    assert g * t == (g * x) * y;
  }

  lemma NaturalOrder(g: nat, h: nat, t: nat)
    requires g <= h
    ensures g * t <= h * t
  {
    assert (h - g) * t >= 0;
  }

  lemma NaturalStrict(q: nat, p: nat, b: nat)
    requires q < p && b > 0
    ensures b * q < b * p
  {
    assert b * (p - q) > 0;
  }

  lemma StepBound(b: nat, g: nat, h: nat, x: nat, x': nat, y: nat, y': nat)
    requires b > 0 && g <= h
    requires b * x' == g * x && b * y' == h * y
    ensures x' * y <= x * y'
  {
    var p, q, t := x' * y, x * y', x * y;
    MultiplyThrough(b, g, x, x', y, p, t);
    MultiplyThrough(b, h, y, y', x, q, t);
    NaturalOrder(g, h, t);
    if p > q { NaturalStrict(q, p, b); }
  }
}

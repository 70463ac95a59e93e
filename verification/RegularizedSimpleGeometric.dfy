/** The empirical-Bayes geometric estimator: integrate 1-(1-q)^(n*k) over a Beta posterior. */
module RegularizedSimpleGeometric {
  import opened Numbers
  import opened Moments

  /** Multiplies the posterior failure factors one attempt at a time. */
  method SuccessProbability(a: real, b: real, successes: nat, trials: nat, n: nat, k: nat)
    returns (probability: real)
    requires a > 0.0 && b > 0.0 && successes <= trials
    ensures probability
         == 1.0 - BetaMoment(a + successes as real, b + (trials - successes) as real, 0, n * k)
  {
    var posteriorA := a + successes as real;
    var posteriorB := b + (trials - successes) as real;
    var failure := 1.0;
    for attempt := 0 to n * k
      invariant failure == BetaMoment(posteriorA, posteriorB, 0, attempt)
    {
      BetaFailureStep(posteriorA, posteriorB, attempt, attempt + 1);
      failure := failure * ((posteriorB + attempt as real) / (posteriorA + posteriorB + attempt as real));
    }
    probability := 1.0 - failure;
  }

  /** The prediction is Bayes' rule for the measured runs: E[1-(1-q)^N | s successes, f failures] is
      E[q^s (1-q)^f (1-(1-q)^N)] over the prior probability E[q^s (1-q)^f]. */
  lemma PredictionIsPosterior(a: real, b: real, successes: nat, trials: nat, attempts: nat)
    requires a > 0.0 && b > 0.0 && successes <= trials
    ensures var f := trials - successes; var seen := BetaMoment(a, b, successes, f);
      && seen > 0.0
      && (1.0 - BetaMoment(a + successes as real, b + f as real, 0, attempts)) * seen
         == seen - BetaMoment(a, b, successes, f + attempts)
  {
    hide BetaMoment, Poch;
    var f := trials - successes;
    BetaConjugate(a, b, successes, f, 0, attempts);
    MomentPositive(a, b, successes, f);
    var seen, more := BetaMoment(a, b, successes, f), BetaMoment(a + successes as real, b + f as real, 0, attempts);
    Distribute(seen, 1.0 - more, more, 1.0);
  }

  lemma MomentPositive(a: real, b: real, s: nat, f: nat)
    requires a > 0.0 && b > 0.0
    ensures BetaMoment(a, b, s, f) > 0.0
  {
    hide Poch;
    PochPositive(a, s);
    PochPositive(b, f);
    PochPositive(a + b, s + f);
    PositiveQuotient(Poch(a, s), Poch(b, f), Poch(a + b, s + f));
  }

  lemma PositiveQuotient(x: real, y: real, z: real)
    requires x > 0.0 && y > 0.0 && z > 0.0
    ensures x * y / z > 0.0
  {
    var p := x * y;
    assert p > 0.0;
    assert p / z * z == p;
    if p / z <= 0.0 { NonnegativeProduct(-(p / z), z); }
  }

  lemma BetaFailureStep(a: real, b: real, i: nat, n: nat)
    requires a > 0.0 && b > 0.0 && n == i + 1
    ensures BetaMoment(a, b, 0, n) == BetaMoment(a, b, 0, i) * ((b + i as real) / (a + b + i as real))
  {
    hide *;
    BetaConjugate(a, b, 0, i, 0, 1);
    BetaMean(a, b + i as real);
    assert a + 0 as real == a && a + (b + i as real) == a + b + i as real;
  }

  /** One factor of the loop: the chance that the next attempt fails too. */
  lemma FailureFactor(a: real, b: real, i: real, c: real, d: real)
    requires a > 0.0 && b > 0.0 && i >= 0.0 && c == a + b && d == a + b + i
    ensures 0.0 < (b + i) / d < 1.0
    ensures b / c == 1.0 - a / c
    ensures b / c <= (b + i) / d
    ensures i > 0.0 ==> b / c < (b + i) / d
  {
    ProperQuotient(b + i, d);
    ComplementQuotient(a, b, c);
    CrossProducts(a, b, i, b + i, c, d);
    QuotientOrder(b, c, b + i, d);
    QuotientOrder(b + i, d, b, c);
  }

  lemma CrossProducts(a: real, b: real, i: real, x: real, c: real, d: real)
    requires a > 0.0 && b > 0.0 && i >= 0.0 && x == b + i && c == a + b && d == a + b + i
    ensures b * d <= x * c
    ensures i > 0.0 ==> b * d < x * c
  {
    assert x * c - b * d == i * a;
    NonnegativeProduct(i, a);
    if i > 0.0 { assert i * a > 0.0; }
  }

  /** Each further attempt leaves a strictly larger chance of success, still short of certainty. */
  lemma {:induction false} StrictlyIncreasing(a: real, b: real, m: nat, n: nat)
    requires a > 0.0 && b > 0.0 && m <= n
    ensures 0.0 < BetaMoment(a, b, 0, n) <= BetaMoment(a, b, 0, m) <= 1.0
    ensures m < n ==> BetaMoment(a, b, 0, n) < BetaMoment(a, b, 0, m)
  {
    hide BetaMoment;
    if n == 0 {
      BetaEmpty(a, b);
    } else {
      StrictlyIncreasing(a, b, if m < n then m else n - 1, n - 1);
      OneMoreAttempt(a, b, n);
    }
  }

  lemma OneMoreAttempt(a: real, b: real, n: nat)
    requires a > 0.0 && b > 0.0 && n > 0
    requires BetaMoment(a, b, 0, n - 1) > 0.0
    ensures 0.0 < BetaMoment(a, b, 0, n) < BetaMoment(a, b, 0, n - 1)
  {
    hide BetaMoment;
    var i := (n - 1) as real;
    BetaFailureStep(a, b, n - 1, n);
    FailureFactor(a, b, i, a + b, a + b + i);
    var p, r := BetaMoment(a, b, 0, n - 1), (b + i) / (a + b + i);
    ShrinkingProduct(p, r, BetaMoment(a, b, 0, n));
  }

  lemma ShrinkingProduct(p: real, r: real, x: real)
    requires p > 0.0 && 0.0 < r < 1.0 && x == p * r
    ensures 0.0 < x < p
  {
    ScaleOrder(p, 0.0, r);
    ScaleOrder(p, r, 1.0);
  }

  /** Averaging over the posterior never predicts more than plugging in its mean success rate,
      and strictly less as soon as there is a second attempt. */
  lemma {:induction false} BelowPlugIn(a: real, b: real, n: nat)
    requires a > 0.0 && b > 0.0
    ensures 1.0 - BetaMoment(a, b, 0, n) <= 1.0 - Pow(1.0 - a / (a + b), n)
    ensures n > 1 ==> 1.0 - BetaMoment(a, b, 0, n) < 1.0 - Pow(1.0 - a / (a + b), n)
  {
    hide BetaMoment;
    if n > 0 {
      var i, c := (n - 1) as real, a + b;
      BelowPlugIn(a, b, n - 1);
      BetaFailureStep(a, b, n - 1, n);
      FailureFactor(a, b, i, c, c + i);
      ProperQuotient(b, c);
      var q, r := 1.0 - a / c, (b + i) / (c + i);
      PowPositive(q, n - 1);
      PlugInStep(q, r, Pow(q, n - 1), BetaMoment(a, b, 0, n - 1), Pow(q, n), BetaMoment(a, b, 0, n));
    } else {
      BetaEmpty(a, b);
    }
  }

  lemma PlugInStep(q: real, r: real, p: real, m: real, p': real, m': real)
    requires 0.0 < q <= r && 0.0 < p <= m && p' == q * p && m' == m * r
    ensures p' <= m'
    ensures q < r ==> p' < m'
  {
    ScaleOrder(p, q, r);
    ScaleOrder(r, p, m);
  }

  /** The prediction depends on the allocation only through the total number of attempts. */
  lemma DependsOnTotalOnly(a: real, b: real, n: nat, k: nat, n': nat, k': nat)
    requires a > 0.0 && b > 0.0
    ensures 1.0 - BetaMoment(a, b, 0, n * k) == 1.0 - BetaMoment(a, b, 0, n' * k') <==> n * k == n' * k'
  {
    if n * k < n' * k' {
      StrictlyIncreasing(a, b, n * k, n' * k');
    } else if n' * k' < n * k {
      StrictlyIncreasing(a, b, n' * k', n * k);
    }
  }
}

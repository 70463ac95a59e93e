/** The per-problem discovery-execution estimator: a constrained maximum-likelihood fit that pools
    first-block evidence at the boundary, and the convolution of geometric discovery with the
    fitted execution curve. */
module DiscoveryExecution {
  import opened Numbers
  import opened Observations
  import opened Likelihood

  datatype Parameters = Parameters(alpha: real, epsilon: seq<real>, atBoundary: bool, isUnidentified: bool)

  // ----- the fit

  /** The measured execution curve C_j / o. */
  function MeasuredCurve(obs: Observation): (curve: seq<real>)
    requires obs.oracleAttempts > 0
    ensures |curve| == |obs.oracleSuccesses|
  {
    seq(|obs.oracleSuccesses|, j requires 0 <= j < |obs.oracleSuccesses| =>
      Fraction(obs.oracleSuccesses[j], obs.oracleAttempts))
  }

  /** The measured curve with its first value moved to `first`: every later checkpoint still solves
      the measured fraction of the runs left unsolved at the first one. */
  function AdjustedValue(first: real, measuredFirst: real, measured: real): real
    requires measuredFirst != 1.0
  {
    first + (1.0 - first) * LaterFraction(measuredFirst, measured)
  }

  /** Among runs unsolved at the first checkpoint, the fraction solved by this one. */
  function LaterFraction(measuredFirst: real, measured: real): real
    requires measuredFirst != 1.0
  {
    (measured - measuredFirst) / (1.0 - measuredFirst)
  }

  function AdjustedCurve(first: real, curve: seq<real>): (adjusted: seq<real>)
    requires curve != [] && curve[0] != 1.0
    ensures |adjusted| == |curve|
  {
    seq(|curve|, j requires 0 <= j < |curve| => AdjustedValue(first, curve[0], curve[j]))
  }

  function PooledRate(obs: Observation): real
    requires obs.shortAttempts > 0 && obs.oracleSuccesses != []
  {
    Fraction(obs.shortSuccesses + obs.oracleSuccesses[0], obs.shortAttempts + obs.oracleAttempts)
  }

  /** The parameters FitParameters returns; the lemmas below say what they mean. */
  function Fitted(obs: Observation, budget: nat): (fit: Parameters)
    requires budget > 0 && obs.Valid(budget)
    ensures |fit.epsilon| == budget
  {
    var curve := MeasuredCurve(obs);
    var rate := Fraction(obs.shortSuccesses, obs.shortAttempts);
    var unidentified := obs.shortSuccesses == 0 && obs.oracleSuccesses[0] == 0;
    if unidentified then
      Parameters(0.0, curve, rate > curve[0], unidentified)
    else if rate <= curve[0] then
      NonzeroRate(obs, budget);
      Parameters(rate / curve[0], curve, rate > curve[0], unidentified)
    else
      BoundaryRates(obs, budget);
      Parameters(1.0, AdjustedCurve(PooledRate(obs), curve), rate > curve[0], unidentified)
  }

  lemma NonzeroRate(obs: Observation, budget: nat)
    requires budget > 0 && obs.Valid(budget)
    requires Fraction(obs.shortSuccesses, obs.shortAttempts) <= MeasuredCurve(obs)[0]
    requires !(obs.shortSuccesses == 0 && obs.oracleSuccesses[0] == 0)
    ensures MeasuredCurve(obs)[0] > 0.0 && obs.oracleSuccesses[0] > 0
  {
    FractionTimes(obs.oracleSuccesses[0], obs.oracleAttempts);
    FractionTimes(obs.shortSuccesses, obs.shortAttempts);
    FractionPositive(obs.shortSuccesses, obs.shortAttempts);
    FractionPositive(obs.oracleSuccesses[0], obs.oracleAttempts);
  }

  lemma FractionPositive(x: nat, y: nat)
    requires y > 0
    ensures Fraction(x, y) > 0.0 <==> x > 0
  {
    FractionOrder(x, y, 0, 1);
    assert Fraction(0, 1) == 0.0;
  }

  /** In the pooling branch the pooled rate lies strictly between the two it pools. */
  lemma BoundaryRates(obs: Observation, budget: nat)
    requires budget > 0 && obs.Valid(budget)
    requires Fraction(obs.shortSuccesses, obs.shortAttempts) > MeasuredCurve(obs)[0]
    ensures 0.0 <= MeasuredCurve(obs)[0] < PooledRate(obs) < Fraction(obs.shortSuccesses, obs.shortAttempts) <= 1.0
  {
    hide Fraction;
    var u, m, c, o := obs.shortSuccesses, obs.shortAttempts, obs.oracleSuccesses[0], obs.oracleAttempts;
    obs.Cumulative(budget, 0, 0);
    FractionOrder(u, m, c, o);
    FractionOrder(u + c, m + o, c, o);
    FractionOrder(u, m, u + c, m + o);
    FractionUnit(u, m);
    FractionUnit(c, o);
    assert u * o > c * m;
    assert (u + c) * o > c * (m + o);
    assert u * (m + o) > (u + c) * m;
  }

  method FitParameters(obs: Observation, budget: nat) returns (params: Parameters)
    requires budget > 0 && obs.Valid(budget)
    ensures params == Fitted(obs, budget)
  {
    hide AdjustedValue, Fraction;
    var executionCurve: seq<real> := [];
    for j := 0 to budget
      invariant executionCurve == MeasuredCurve(obs)[..j]
    {
      executionCurve := executionCurve + [Fraction(obs.oracleSuccesses[j], obs.oracleAttempts)];
    }
    var shortRate := Fraction(obs.shortSuccesses, obs.shortAttempts);
    var epsilonFirst := executionCurve[0];
    var adjustedCurve := executionCurve;
    var isUnidentified := obs.shortSuccesses == 0 && obs.oracleSuccesses[0] == 0;
    var alpha;
    if isUnidentified {
      alpha := 0.0;
    } else if shortRate <= epsilonFirst {
      NonzeroRate(obs, budget);
      alpha := shortRate / epsilonFirst;
    } else {
      BoundaryRates(obs, budget);
      alpha := 1.0;
      var firstExecution := PooledRate(obs);
      adjustedCurve := [];
      for j := 0 to budget
        invariant adjustedCurve == AdjustedCurve(firstExecution, executionCurve)[..j]
      {
        adjustedCurve := adjustedCurve + [AdjustedValue(firstExecution, epsilonFirst, executionCurve[j])];
      }
    }
    params := Parameters(alpha, adjustedCurve, shortRate > epsilonFirst, isUnidentified);
  }

  // ----- the fit is the constrained maximum-likelihood estimate

  /** The chance that a short run solves: discovery, then execution in the first block. */
  function ShortRate(alpha: real, epsilon: real): real {
    alpha * epsilon
  }

  /** The likelihood of u of m short successes and c of o first-block oracle completions. */
  function JointLikelihood(alpha: real, epsilon: real, obs: Observation): real
    requires obs.shortSuccesses <= obs.shortAttempts && obs.oracleSuccesses != []
    requires obs.oracleSuccesses[0] <= obs.oracleAttempts
  {
    Binomial(ShortRate(alpha, epsilon), obs.shortSuccesses, obs.shortAttempts - obs.shortSuccesses)
    * Binomial(epsilon, obs.oracleSuccesses[0], obs.oracleAttempts - obs.oracleSuccesses[0])
  }

  lemma BinomialUnit(x: real, u: nat, v: nat)
    requires 0.0 <= x <= 1.0
    ensures 0.0 <= Binomial(x, u, v) <= 1.0
  {
    PowUnit(x, u);
    PowUnit(1.0 - x, v);
    ProductUnit(Pow(x, u), Pow(1.0 - x, v));
  }

  /** Pooling two samples at one rate multiplies into one sample. */
  lemma BinomialPool(x: real, u: nat, v: nat, c: nat, d: nat)
    ensures Binomial(x, u, v) * Binomial(x, c, d) == Binomial(x, u + c, v + d)
  {
    hide Pow;
    PowAdd(x, u, c);
    PowAdd(1.0 - x, v, d);
    PoolAlgebra(Pow(x, u), Pow(1.0 - x, v), Pow(x, c), Pow(1.0 - x, d), Pow(x, u + c), Pow(1.0 - x, v + d));
  }

  lemma PoolAlgebra(a: real, b: real, c: real, d: real, p: real, q: real)
    requires p == a * c && q == b * d
    ensures (a * b) * (c * d) == p * q
  {
  }

  /** No short rate q <= epsilon beats the pooled rate when the unconstrained rates are in the
      wrong order: move whichever of q, epsilon is on the wrong side of the pooled rate. */
  lemma PoolingBound(q: real, e: real, u: nat, m: nat, c: nat, o: nat)
    requires 0.0 <= q <= e <= 1.0 && u <= m && c <= o && m > 0 && o > 0
    requires Fraction(c, o) <= Fraction(u + c, m + o) <= Fraction(u, m)
    ensures Binomial(q, u, m - u) * Binomial(e, c, o - c)
         <= Binomial(Fraction(u + c, m + o), u + c, m + o - (u + c))
  {
    hide Fraction, Binomial;
    var p := Fraction(u + c, m + o);
    FractionUnit(u + c, m + o);
    BinomialUnit(q, u, m - u);
    BinomialUnit(e, c, o - c);
    if e < p {
      BelowRate(e, u, m);
      RisesToRate(q, e, u, m - u);
      ProductMonotone(Binomial(q, u, m - u), Binomial(e, u, m - u), Binomial(e, c, o - c), Binomial(e, c, o - c));
      BinomialPool(e, u, m - u, c, o - c);
      PeaksAtRate(e, u + c, m + o);
    } else if q > p {
      AboveRate(q, c, o);
      FallsFromRate(e, q, c, o - c);
      ProductMonotone(Binomial(q, u, m - u), Binomial(q, u, m - u), Binomial(e, c, o - c), Binomial(q, c, o - c));
      BinomialPool(q, u, m - u, c, o - c);
      PeaksAtRate(q, u + c, m + o);
    } else {
      BelowRate(p, u, m);
      AboveRate(p, c, o);
      RisesToRate(q, p, u, m - u);
      FallsFromRate(e, p, c, o - c);
      ProductMonotone(Binomial(q, u, m - u), Binomial(p, u, m - u), Binomial(e, c, o - c), Binomial(p, c, o - c));
      BinomialPool(p, u, m - u, c, o - c);
    }
  }

  lemma BelowRate(y: real, u: nat, m: nat)
    requires m > 0 && y <= Fraction(u, m)
    ensures y * m as real <= u as real
  {
    FractionTimes(u, m);
    Cancel(Fraction(u, m), y, m as real);
  }

  lemma AboveRate(y: real, u: nat, m: nat)
    requires m > 0 && y >= Fraction(u, m)
    ensures y * m as real >= u as real
  {
    FractionTimes(u, m);
    Cancel(y, Fraction(u, m), m as real);
  }

  /** The fitted pair maximises the joint likelihood over the whole square 0 <= alpha, epsilon <= 1,
      in the unidentified, the interior and the pooled branch alike. */
  lemma FitIsMaximumLikelihood(obs: Observation, budget: nat, alpha: real, epsilon: real)
    requires budget > 0 && obs.Valid(budget)
    requires 0.0 <= alpha <= 1.0 && 0.0 <= epsilon <= 1.0
    ensures obs.oracleSuccesses[0] <= obs.oracleAttempts
    ensures JointLikelihood(alpha, epsilon, obs)
         <= JointLikelihood(Fitted(obs, budget).alpha, Fitted(obs, budget).epsilon[0], obs)
  {
    hide Binomial, Fraction, ShortRate;
    obs.Cumulative(budget, 0, 0);
    var u, m, c, o := obs.shortSuccesses, obs.shortAttempts, obs.oracleSuccesses[0], obs.oracleAttempts;
    var q := ShortRate(alpha, epsilon);
    ShortRateBounds(alpha, epsilon);
    BinomialUnit(q, u, m - u);
    BinomialUnit(epsilon, c, o - c);
    if Fitted(obs, budget).isUnidentified {
      AtUnidentified(obs, budget);
      ProductUnit(Binomial(q, u, m - u), Binomial(epsilon, c, o - c));
    } else if Fraction(u, m) <= Fraction(c, o) {
      AtInterior(obs, budget);
      PeaksAtRate(q, u, m);
      PeaksAtRate(epsilon, c, o);
      ProductMonotone(Binomial(q, u, m - u), Binomial(Fraction(u, m), u, m - u),
                      Binomial(epsilon, c, o - c), Binomial(Fraction(c, o), c, o - c));
    } else {
      BoundaryRates(obs, budget);
      AtBoundary(obs, budget);
      PoolingBound(q, epsilon, u, m, c, o);
    }
  }

  lemma ShortRateBounds(alpha: real, epsilon: real)
    requires 0.0 <= alpha <= 1.0 && 0.0 <= epsilon <= 1.0
    ensures 0.0 <= ShortRate(alpha, epsilon) <= epsilon
  {
    ProductUnit(alpha, epsilon);
  }

  lemma AtUnidentified(obs: Observation, budget: nat)
    requires budget > 0 && obs.Valid(budget) && Fitted(obs, budget).isUnidentified
    ensures Fitted(obs, budget).alpha == 0.0 && Fitted(obs, budget).epsilon[0] == 0.0
    ensures forall alpha :: JointLikelihood(alpha, 0.0, obs) == 1.0
  {
    PowOne(obs.shortAttempts);
    PowOne(obs.oracleAttempts);
    assert Fraction(0, obs.oracleAttempts) == 0.0;
    forall alpha: real ensures JointLikelihood(alpha, 0.0, obs) == 1.0 {
      assert ShortRate(alpha, 0.0) == 0.0;
    }
  }

  lemma AtInterior(obs: Observation, budget: nat)
    requires budget > 0 && obs.Valid(budget) && !Fitted(obs, budget).isUnidentified
    requires Fraction(obs.shortSuccesses, obs.shortAttempts) <= Fraction(obs.oracleSuccesses[0], obs.oracleAttempts)
    ensures ShortRate(Fitted(obs, budget).alpha, Fitted(obs, budget).epsilon[0])
         == Fraction(obs.shortSuccesses, obs.shortAttempts)
    ensures Fitted(obs, budget).epsilon[0] == Fraction(obs.oracleSuccesses[0], obs.oracleAttempts)
  {
    hide Fraction;
    NonzeroRate(obs, budget);
    DivideBack(Fraction(obs.shortSuccesses, obs.shortAttempts), Fraction(obs.oracleSuccesses[0], obs.oracleAttempts));
  }

  lemma DivideBack(x: real, y: real)
    requires y != 0.0
    ensures x / y * y == x
  {
  }

  lemma AtBoundary(obs: Observation, budget: nat)
    requires budget > 0 && obs.Valid(budget) && obs.oracleSuccesses[0] <= obs.oracleAttempts
    requires Fraction(obs.shortSuccesses, obs.shortAttempts) > Fraction(obs.oracleSuccesses[0], obs.oracleAttempts)
    ensures !Fitted(obs, budget).isUnidentified
    ensures Fitted(obs, budget).alpha == 1.0 && Fitted(obs, budget).epsilon[0] == PooledRate(obs)
    ensures ShortRate(1.0, PooledRate(obs)) == PooledRate(obs)
    ensures JointLikelihood(1.0, PooledRate(obs), obs)
         == Binomial(PooledRate(obs), obs.shortSuccesses + obs.oracleSuccesses[0],
                     obs.shortAttempts + obs.oracleAttempts - (obs.shortSuccesses + obs.oracleSuccesses[0]))
  {
    hide Fraction, Binomial, AdjustedValue;
    BoundaryRates(obs, budget);
    var u, m, c, o := obs.shortSuccesses, obs.shortAttempts, obs.oracleSuccesses[0], obs.oracleAttempts;
    AdjustedFirst(PooledRate(obs), Fraction(c, o));
    BinomialPool(PooledRate(obs), u, m - u, c, o - c);
    ZeroRate(u, m, Fraction(c, o));
  }

  lemma AdjustedFirst(first: real, e: real)
    requires e != 1.0
    ensures AdjustedValue(first, e, e) == first
  {
    assert LaterFraction(e, e) == 0.0 by { var d := 1.0 - e; assert 0.0 / d == 0.0; }
  }

  lemma ZeroRate(u: nat, m: nat, e: real)
    requires m > 0 && e >= 0.0 && Fraction(u, m) > e
    ensures u > 0
  {
    FractionPositive(u, m);
  }

  lemma PositiveInside(x: real, u: nat, v: nat)
    requires 0.0 < x < 1.0
    ensures Binomial(x, u, v) > 0.0
  {
    PowPositive(x, u);
    PowPositive(1.0 - x, v);
  }

  lemma PositiveAtRate(u: nat, m: nat)
    requires m > 0 && u <= m
    ensures Binomial(Fraction(u, m), u, m - u) > 0.0
  {
    FractionUnit(u, m);
    FractionTimes(u, m);
    FractionPositive(u, m);
    if u == 0 {
      assert Fraction(u, m) == 0.0;
      PowOne(m);
    } else if u == m {
      Cancel(Fraction(u, m), 1.0, m as real);
      PowOne(m);
    } else {
      Cancel(Fraction(u, m), 1.0, m as real);
      PositiveInside(Fraction(u, m), u, m - u);
    }
  }

  lemma FittedRates(obs: Observation, budget: nat)
    requires budget > 0 && obs.Valid(budget) && !Fitted(obs, budget).isUnidentified
    ensures obs.oracleSuccesses[0] <= obs.oracleAttempts
    ensures var fit := Fitted(obs, budget); var e := fit.epsilon[0];
      && 0.0 < e <= 1.0
      && Binomial(e, obs.oracleSuccesses[0], obs.oracleAttempts - obs.oracleSuccesses[0]) > 0.0
      && Binomial(ShortRate(fit.alpha, e), obs.shortSuccesses, obs.shortAttempts - obs.shortSuccesses) > 0.0
      && (obs.shortSuccesses == 0 ==> ShortRate(fit.alpha, e) == 0.0)
  {
    hide Binomial, Fraction, ShortRate;
    obs.Cumulative(budget, 0, 0);
    var u, m, c, o := obs.shortSuccesses, obs.shortAttempts, obs.oracleSuccesses[0], obs.oracleAttempts;
    FractionUnit(c, o);
    if Fraction(u, m) <= Fraction(c, o) {
      AtInterior(obs, budget);
      NonzeroRate(obs, budget);
      PositiveAtRate(u, m);
      PositiveAtRate(c, o);
      FractionPositive(u, m);
      FractionUnit(u, m);
    } else {
      AtBoundary(obs, budget);
      BoundaryRates(obs, budget);
      PositiveInside(PooledRate(obs), u, m - u);
      PositiveInside(PooledRate(obs), c, o - c);
      ZeroRate(u, m, Fraction(c, o));
    }
  }

  /** Every other pair of the square is strictly worse than the fit once discovery is identified: at
      the midpoint of two maximisers a strictly concave logarithm would exceed the maximum. */
  lemma OthersAreWorse(obs: Observation, budget: nat, alpha: real, epsilon: real)
    requires budget > 0 && obs.Valid(budget) && !Fitted(obs, budget).isUnidentified
    requires 0.0 <= alpha <= 1.0 && 0.0 <= epsilon <= 1.0
    requires alpha != Fitted(obs, budget).alpha || epsilon != Fitted(obs, budget).epsilon[0]
    ensures obs.oracleSuccesses[0] <= obs.oracleAttempts
    ensures JointLikelihood(alpha, epsilon, obs)
          < JointLikelihood(Fitted(obs, budget).alpha, Fitted(obs, budget).epsilon[0], obs)
  {
    hide Binomial, ShortRate, Fitted;
    FittedRates(obs, budget);
    FitInSquare(obs, budget);
    var fit := Fitted(obs, budget);
    var u, m, c, o := obs.shortSuccesses, obs.shortAttempts, obs.oracleSuccesses[0], obs.oracleAttempts;
    var q, q', e' := ShortRate(alpha, epsilon), ShortRate(fit.alpha, fit.epsilon[0]), fit.epsilon[0];
    ShortRateBounds(alpha, epsilon);
    ShortRateBounds(fit.alpha, e');
    var qm, em := (q + q') / 2.0, (epsilon + e') / 2.0;
    var am := DividedRate(qm, em);
    FitIsMaximumLikelihood(obs, budget, am, em);
    DifferentRates(alpha, epsilon, fit.alpha, e');
    MidpointOutdoes(q, epsilon, q', e', qm, em, u, m - u, c, o - c);
  }

  /** Two different pairs of rates cannot both reach a bound that their midpoint respects. */
  lemma MidpointOutdoes(q: real, e: real, q': real, e': real, qm: real, em: real, u: nat, v: nat, c: nat, d: nat)
    requires 0.0 <= q <= 1.0 && 0.0 <= e <= 1.0 && 0.0 <= q' <= 1.0 && 0.0 <= e' <= 1.0
    requires u + v > 0 && c + d > 0 && (q != q' || e != e')
    requires Binomial(q', u, v) > 0.0 && Binomial(e', c, d) > 0.0
    requires qm + qm == q + q' && em + em == e + e'
    requires Binomial(qm, u, v) * Binomial(em, c, d) <= Binomial(q', u, v) * Binomial(e', c, d)
    ensures Binomial(q, u, v) * Binomial(e, c, d) < Binomial(q', u, v) * Binomial(e', c, d)
  {
    hide Binomial, Concave;
    ConcaveAt(q, q', qm, u, v);
    ConcaveAt(e, e', em, c, d);
    Outdone(Binomial(q, u, v), Binomial(e, c, d), Binomial(q', u, v), Binomial(e', c, d),
            Binomial(qm, u, v), Binomial(em, c, d), q == q', e == e');
  }

  /** The likelihoods a and a' at two rates, and am at their midpoint. */
  ghost predicate Concave(a: real, a': real, am: real, same: bool) {
    && 0.0 <= a && 0.0 < a' && 0.0 <= am
    && if same then a == a' == am else a * a' < am * am
  }

  lemma ConcaveAt(x: real, y: real, mid: real, u: nat, v: nat)
    requires 0.0 <= x <= 1.0 && 0.0 <= y <= 1.0 && mid + mid == x + y && u + v > 0 && Binomial(y, u, v) > 0.0
    ensures Concave(Binomial(x, u, v), Binomial(y, u, v), Binomial(mid, u, v), x == y)
  {
    hide Binomial;
    LikelihoodAtMidpoint(x, y, mid, u, v);
    BinomialUnit(x, u, v);
    BinomialUnit(mid, u, v);
    if x == y { assert mid == x; }
  }

  lemma FitInSquare(obs: Observation, budget: nat)
    requires budget > 0 && obs.Valid(budget) && !Fitted(obs, budget).isUnidentified
    ensures 0.0 <= Fitted(obs, budget).alpha <= 1.0 && 0.0 < Fitted(obs, budget).epsilon[0] <= 1.0
  {
    hide Binomial, Fraction, ShortRate;
    FittedRates(obs, budget);
    obs.Cumulative(budget, 0, 0);
    var u, m, c, o := obs.shortSuccesses, obs.shortAttempts, obs.oracleSuccesses[0], obs.oracleAttempts;
    if Fraction(u, m) <= Fraction(c, o) {
      NonzeroRate(obs, budget);
      FractionUnit(u, m);
      QuotientUnit(Fraction(u, m), Fraction(c, o));
    } else {
      AtBoundary(obs, budget);
    }
  }

  /** The discovery probability behind a short rate. */
  lemma DividedRate(q: real, e: real) returns (alpha: real)
    requires 0.0 <= q <= e && e > 0.0
    ensures 0.0 <= alpha <= 1.0 && ShortRate(alpha, e) == q
  {
    QuotientUnit(q, e);
    DivideBack(q, e);
    alpha := q / e;
  }

  lemma DifferentRates(alpha: real, e: real, alpha': real, e': real)
    requires e' > 0.0 && (alpha != alpha' || e != e')
    ensures ShortRate(alpha, e) != ShortRate(alpha', e') || e != e'
  {
    Cancel(alpha, alpha', e');
  }

  lemma Outdone(a: real, b: real, a': real, b': real, am: real, bm: real, sameA: bool, sameB: bool)
    requires Concave(a, a', am, sameA) && Concave(b, b', bm, sameB) && !(sameA && sameB) && am * bm <= a' * b'
    ensures a * b < a' * b'
  {
    NonnegativeProduct(a, a');
    NonnegativeProduct(b, b');
    PositiveRoot(am);
    PositiveRoot(bm);
    NonnegativeProduct(am, bm);
    var ab, best, mid := a * b, a' * b', am * bm;
    MidpointAlgebra(a, b, a', b', am, bm, ab, best, mid);
    Bounded(ab, mid, best);
  }

  lemma PositiveRoot(x: real)
    requires x >= 0.0
    ensures x == 0.0 ==> x * x == 0.0
  {
  }

  lemma Bounded(x: real, mid: real, best: real)
    requires x * best < mid * mid && 0.0 <= mid <= best
    ensures x < best
  {
    ProductMonotone(mid, best, mid, best);
    PositiveRoot(best);
    SquareSign(mid, mid * mid);
    if best > 0.0 { Cancel(x, best, best); }
  }

  /** The flag is exact: discovery is unidentified precisely when every alpha is a maximiser next to
      the fitted execution probability. */
  lemma UnidentifiedExactly(obs: Observation, budget: nat)
    requires budget > 0 && obs.Valid(budget)
    ensures obs.oracleSuccesses[0] <= obs.oracleAttempts
    ensures Fitted(obs, budget).isUnidentified
       <==> forall alpha | 0.0 <= alpha <= 1.0 ::
              JointLikelihood(alpha, Fitted(obs, budget).epsilon[0], obs)
              == JointLikelihood(Fitted(obs, budget).alpha, Fitted(obs, budget).epsilon[0], obs)
  {
    obs.Cumulative(budget, 0, 0);
    var fit := Fitted(obs, budget);
    if fit.isUnidentified {
      AtUnidentified(obs, budget);
    } else {
      FitInSquare(obs, budget);
      var other := if fit.alpha == 0.0 then 1.0 else 0.0;
      OthersAreWorse(obs, budget, other, fit.epsilon[0]);
    }
  }

  /** The fitted pair is the only maximiser over the square if and only if discovery is identified. */
  lemma UniqueExactly(obs: Observation, budget: nat)
    requires budget > 0 && obs.Valid(budget)
    ensures obs.oracleSuccesses[0] <= obs.oracleAttempts
    ensures !Fitted(obs, budget).isUnidentified
       <==> forall alpha, epsilon | 0.0 <= alpha <= 1.0 && 0.0 <= epsilon <= 1.0
              && JointLikelihood(alpha, epsilon, obs)
                   == JointLikelihood(Fitted(obs, budget).alpha, Fitted(obs, budget).epsilon[0], obs) ::
              alpha == Fitted(obs, budget).alpha && epsilon == Fitted(obs, budget).epsilon[0]
  {
    hide JointLikelihood, Fitted;
    obs.Cumulative(budget, 0, 0);
    if Fitted(obs, budget).isUnidentified {
      AtUnidentified(obs, budget);
      assert JointLikelihood(1.0, 0.0, obs) == 1.0;
    } else {
      forall alpha, epsilon | 0.0 <= alpha <= 1.0 && 0.0 <= epsilon <= 1.0
          && (alpha != Fitted(obs, budget).alpha || epsilon != Fitted(obs, budget).epsilon[0])
        ensures JointLikelihood(alpha, epsilon, obs)
             != JointLikelihood(Fitted(obs, budget).alpha, Fitted(obs, budget).epsilon[0], obs)
      {
        OthersAreWorse(obs, budget, alpha, epsilon);
      }
    }
  }

  // ----- the fitted curve

  /** The fitted curve is a cumulative distribution: within [0, 1] and nondecreasing. */
  predicate IsCurve(epsilon: seq<real>) {
    && (forall j :: 0 <= j < |epsilon| ==> 0.0 <= epsilon[j] <= 1.0)
    && (forall i, j :: 0 <= i <= j < |epsilon| ==> epsilon[i] <= epsilon[j])
  }

  lemma MeasuredIsCurve(obs: Observation, budget: nat)
    requires budget > 0 && obs.Valid(budget)
    ensures IsCurve(MeasuredCurve(obs))
  {
    hide Fraction;
    var curve := MeasuredCurve(obs);
    forall j | 0 <= j < budget ensures 0.0 <= curve[j] <= 1.0 {
      obs.Cumulative(budget, j, j);
      FractionUnit(obs.oracleSuccesses[j], obs.oracleAttempts);
    }
    forall i, j | 0 <= i <= j < budget ensures curve[i] <= curve[j] {
      obs.Cumulative(budget, i, j);
      assert obs.oracleSuccesses[i] * obs.oracleAttempts <= obs.oracleSuccesses[j] * obs.oracleAttempts;
      FractionOrder(obs.oracleSuccesses[i], obs.oracleAttempts, obs.oracleSuccesses[j], obs.oracleAttempts);
    }
  }

  /** What stays unsolved when the measured share (1-x)/(1-e) of first-block failures does. */
  function TailShare(first: real, e: real, x: real): real
    requires e != 1.0
  {
    (1.0 - first) * UnsolvedFraction(e, x)
  }

  function UnsolvedFraction(e: real, x: real): real
    requires e != 1.0
  {
    (1.0 - x) / (1.0 - e)
  }

  lemma FractionsFacts(e: real, x: real, y: real, d: real)
    requires 0.0 <= e < 1.0 && e <= x <= y <= 1.0 && d == 1.0 - e
    ensures 0.0 <= LaterFraction(e, x) <= LaterFraction(e, y) <= 1.0
    ensures LaterFraction(e, x) + UnsolvedFraction(e, x) == 1.0
  {
    QuotientMonotone(x - e, y - e, d);
    QuotientUnit(x - e, d);
    QuotientUnit(y - e, d);
    ComplementQuotient(x - e, 1.0 - x, d);
  }

  /** Every later checkpoint keeps its measured share of the runs unsolved at the first one. */
  lemma AdjustedFacts(first: real, e: real, x: real, y: real)
    requires 0.0 <= first <= 1.0 && 0.0 <= e < 1.0 && e <= x <= y <= 1.0
    ensures 1.0 - AdjustedValue(first, e, x) == TailShare(first, e, x)
    ensures first <= AdjustedValue(first, e, x) <= AdjustedValue(first, e, y) <= 1.0
  {
    hide LaterFraction, UnsolvedFraction;
    FractionsFacts(e, x, y, 1.0 - e);
    var s, t, z := LaterFraction(e, x), LaterFraction(e, y), UnsolvedFraction(e, x);
    AdjustUnsolved(first, s, z, AdjustedValue(first, e, x));
    AdjustOrder(first, 0.0, s, first, AdjustedValue(first, e, x));
    AdjustOrder(first, s, t, AdjustedValue(first, e, x), AdjustedValue(first, e, y));
    AdjustOrder(first, t, 1.0, AdjustedValue(first, e, y), 1.0);
  }

  lemma AdjustUnsolved(first: real, s: real, z: real, a: real)
    requires z == 1.0 - s && a == first + (1.0 - first) * s
    ensures 1.0 - a == (1.0 - first) * z
  {
    assert (1.0 - first) * (1.0 - s) == (1.0 - first) - (1.0 - first) * s;
  }

  lemma AdjustOrder(first: real, s: real, t: real, a: real, b: real)
    requires 0.0 <= first <= 1.0 && s <= t
    requires a == first + (1.0 - first) * s && b == first + (1.0 - first) * t
    ensures a <= b
  {
    ScaleOrder(1.0 - first, s, t);
  }

  /** The fit returns a discovery probability and a cumulative execution curve, flags the boundary
      exactly when discovery would have to exceed one, and preserves the measured tail: the share
      of first-block failures still unsolved at each checkpoint is the measured share. */
  lemma FitIsValid(obs: Observation, budget: nat)
    requires budget > 0 && obs.Valid(budget)
    ensures var fit := Fitted(obs, budget); var curve := MeasuredCurve(obs);
      && 0.0 <= fit.alpha <= 1.0 && |fit.epsilon| == budget && IsCurve(fit.epsilon)
      && (fit.atBoundary <==> obs.shortSuccesses * obs.oracleAttempts > obs.oracleSuccesses[0] * obs.shortAttempts)
      && (!fit.atBoundary ==> fit.epsilon == curve)
      && (fit.atBoundary ==> fit.alpha == 1.0 && curve[0] < fit.epsilon[0] && curve[0] < 1.0)
      && (fit.atBoundary ==> curve[0] != 1.0 && forall j :: 0 <= j < budget ==>
                               1.0 - fit.epsilon[j] == TailShare(fit.epsilon[0], curve[0], curve[j]))
  {
    hide Fraction, AdjustedValue, TailShare;
    var fit, curve := Fitted(obs, budget), MeasuredCurve(obs);
    var u, m, c, o := obs.shortSuccesses, obs.shortAttempts, obs.oracleSuccesses[0], obs.oracleAttempts;
    MeasuredIsCurve(obs, budget);
    FractionOrder(u, m, c, o);
    FractionUnit(u, m);
    if Fraction(u, m) > curve[0] {
      obs.Cumulative(budget, 0, 0);
      BoundaryRates(obs, budget);
      AtBoundary(obs, budget);
      var p := PooledRate(obs);
      forall i, j | 0 <= i <= j < budget
        ensures 0.0 <= fit.epsilon[i] <= fit.epsilon[j] <= 1.0
        ensures 1.0 - fit.epsilon[i] == TailShare(p, curve[0], curve[i])
      {
        AdjustedFacts(p, curve[0], curve[i], curve[j]);
      }
    } else if !fit.isUnidentified {
      NonzeroRate(obs, budget);
      QuotientUnit(Fraction(u, m), curve[0]);
    }
  }

  /** The fitted curve in counts, at every checkpoint: away from the boundary it is the measured
      fraction C_j / o, and at the boundary the runs still unsolved at j keep their measured share
      (o - C_j) / (o - C_0) of those unsolved after the first block. */
  lemma FitInCounts(obs: Observation, budget: nat, j: nat)
    requires budget > 0 && obs.Valid(budget) && j < budget
    ensures var fit, o := Fitted(obs, budget), obs.oracleAttempts as real;
            var first, now := obs.oracleSuccesses[0] as real, obs.oracleSuccesses[j] as real;
      && (!fit.atBoundary ==> fit.epsilon[j] * o == now)
      && (fit.atBoundary ==> first < o && (1.0 - fit.epsilon[j]) * (o - first) == (1.0 - fit.epsilon[0]) * (o - now))
  {
    hide Fraction, AdjustedValue, TailShare;
    FitIsValid(obs, budget);
    var fit, c, n := Fitted(obs, budget), obs.oracleSuccesses, obs.oracleAttempts;
    FractionTimes(c[j], n);
    FractionTimes(c[0], n);
    if fit.atBoundary {
      ShareInCounts(fit.epsilon[0], fit.epsilon[j], Fraction(c[0], n), Fraction(c[j], n), n as real, c[0] as real,
                    c[j] as real);
    }
  }

  lemma ShareInCounts(first: real, later: real, e: real, x: real, o: real, c: real, d: real)
    requires e < 1.0 && o > 0.0 && e * o == c && x * o == d && 1.0 - later == TailShare(first, e, x)
    ensures c < o && (1.0 - later) * (o - c) == (1.0 - first) * (o - d)
  {
    var u := UnsolvedFraction(e, x);
    Cancel(e, 1.0, o);
    UnsolvedInCounts(u, 1.0 - e, 1.0 - x, o, o - c, o - d);
    Scale3(1.0 - first, u, o - c, o - d);
  }

  lemma UnsolvedInCounts(u: real, p: real, q: real, o: real, po: real, qo: real)
    requires p != 0.0 && u == q / p && po == p * o && qo == q * o
    ensures u * po == qo
  {
    DivideBack(q, p);
    assert u * (p * o) == (u * p) * o;
  }

  lemma Scale3(f: real, u: real, x: real, y: real)
    requires u * x == y
    ensures (f * u) * x == f * y
  {
    assert (f * u) * x == f * (u * x);
  }

  // ----- prediction

  /** The terms of the first `steps` discovery times in the success sum of a k-block trajectory. */
  function Convolution(alpha: real, epsilon: seq<real>, k: nat, steps: nat): real
    requires steps <= k <= |epsilon|
  {
    if steps == 0 then
      0.0
    else
      Convolution(alpha, epsilon, k, steps - 1)
      + alpha * Pow(1.0 - alpha, steps - 1) * epsilon[k - (steps - 1) - 1]
  }

  function TrajectorySuccess(alpha: real, epsilon: seq<real>, k: nat): real
    requires k <= |epsilon|
  {
    Convolution(alpha, epsilon, k, k)
  }

  method SuccessProbability(params: Parameters, n: nat, k: nat) returns (probability: real)
    requires k <= |params.epsilon|
    ensures probability == 1.0 - Pow(1.0 - TrajectorySuccess(params.alpha, params.epsilon, k), n)
  {
    var success := 0.0;
    for step := 0 to k
      invariant success == Convolution(params.alpha, params.epsilon, k, step)
    {
      var discoveryProbability := params.alpha * Pow(1.0 - params.alpha, step);
      var executionProbability := params.epsilon[k - step - 1];
      success := success + discoveryProbability * executionProbability;
    }
    probability := 1.0 - Pow(1.0 - success, n);
  }

  /** The process the convolution sums up: each block either discovers the approach, after which the
      remaining blocks execute it, or leaves one block fewer to discover it in. */
  function ProcessSuccess(alpha: real, epsilon: seq<real>, k: nat): real
    requires k <= |epsilon|
  {
    if k == 0 then 0.0
    else alpha * epsilon[k - 1] + (1.0 - alpha) * ProcessSuccess(alpha, epsilon, k - 1)
  }

  lemma ConvolutionEmpty(alpha: real, epsilon: seq<real>, k: nat)
    requires k <= |epsilon|
    ensures Convolution(alpha, epsilon, k, 0) == 0.0
  {
  }

  lemma ConvolutionNext(alpha: real, epsilon: seq<real>, k: nat, steps: nat)
    requires 0 < steps <= k <= |epsilon|
    ensures Convolution(alpha, epsilon, k, steps)
         == Convolution(alpha, epsilon, k, steps - 1) + alpha * Pow(1.0 - alpha, steps - 1) * epsilon[k - steps]
  {
    hide Pow;
  }

  lemma {:induction false} ConvolutionShift(alpha: real, epsilon: seq<real>, k: nat, steps: nat)
    requires 0 < k <= |epsilon| && 0 < steps <= k
    ensures Convolution(alpha, epsilon, k, steps)
         == alpha * epsilon[k - 1] + (1.0 - alpha) * Convolution(alpha, epsilon, k - 1, steps - 1)
  {
    hide Convolution, Pow;
    ConvolutionNext(alpha, epsilon, k, steps);
    if steps == 1 {
      ConvolutionEmpty(alpha, epsilon, k);
      ConvolutionEmpty(alpha, epsilon, k - 1);
      PowNext(1.0 - alpha, 0);
    } else {
      ConvolutionShift(alpha, epsilon, k, steps - 1);
      ConvolutionNext(alpha, epsilon, k - 1, steps - 1);
      PowNext(1.0 - alpha, steps - 2);
      ShiftAlgebra(alpha, 1.0 - alpha, Pow(1.0 - alpha, steps - 2), Pow(1.0 - alpha, steps - 1), epsilon[k - steps],
                   Convolution(alpha, epsilon, k - 1, steps - 2), Convolution(alpha, epsilon, k - 1, steps - 1));
    }
  }

  lemma ShiftAlgebra(a: real, b: real, p: real, p': real, e: real, c: real, c': real)
    requires p' == b * p && c' == c + a * p * e
    ensures b * c' == b * c + a * p' * e
  {
  }

  /** The sum over mutually exclusive discovery times is the success probability of the process. */
  lemma {:induction false} ConvolutionIsProcess(alpha: real, epsilon: seq<real>, k: nat)
    requires k <= |epsilon|
    ensures TrajectorySuccess(alpha, epsilon, k) == ProcessSuccess(alpha, epsilon, k)
  {
    if k > 0 {
      ConvolutionIsProcess(alpha, epsilon, k - 1);
      ConvolutionShift(alpha, epsilon, k, k);
    }
  }

  lemma {:induction false} TrajectoryBounds(alpha: real, epsilon: seq<real>, k: nat)
    requires k <= |epsilon| && 0.0 <= alpha <= 1.0 && IsCurve(epsilon)
    ensures 0.0 <= ProcessSuccess(alpha, epsilon, k) <= (if k == 0 then 0.0 else epsilon[k - 1])
    ensures k > 0 ==> ProcessSuccess(alpha, epsilon, k - 1) <= ProcessSuccess(alpha, epsilon, k)
  {
    if k > 0 {
      TrajectoryBounds(alpha, epsilon, k - 1);
      assert k > 1 ==> epsilon[k - 2] <= epsilon[k - 1];
      BlockBounds(alpha, epsilon, k);
    }
  }

  lemma ProcessNext(alpha: real, epsilon: seq<real>, k: nat)
    requires 0 < k <= |epsilon|
    ensures ProcessSuccess(alpha, epsilon, k)
         == alpha * epsilon[k - 1] + (1.0 - alpha) * ProcessSuccess(alpha, epsilon, k - 1)
  {
  }

  lemma BlockBounds(alpha: real, epsilon: seq<real>, k: nat)
    requires 0 < k <= |epsilon| && 0.0 <= alpha <= 1.0
    requires 0.0 <= ProcessSuccess(alpha, epsilon, k - 1) <= epsilon[k - 1]
    ensures ProcessSuccess(alpha, epsilon, k - 1) <= ProcessSuccess(alpha, epsilon, k) <= epsilon[k - 1]
  {
    ProcessNext(alpha, epsilon, k);
    ConvexBounds(alpha, epsilon[k - 1], ProcessSuccess(alpha, epsilon, k - 1), ProcessSuccess(alpha, epsilon, k));
  }

  lemma ConvexBounds(a: real, e: real, s: real, next: real)
    requires 0.0 <= a <= 1.0 && 0.0 <= s <= e && next == a * e + (1.0 - a) * s
    ensures s <= next <= e
  {
    NonnegativeProduct(a, e - s);
    NonnegativeProduct(1.0 - a, e - s);
    Distribute(a, e - s, s, e);
    assert (1.0 - a) * s == s - a * s;
    assert (1.0 - a) * (e - s) == (e - s) - a * (e - s);
  }

  function Predicted(alpha: real, epsilon: seq<real>, n: nat, k: nat): real
    requires k <= |epsilon|
  {
    1.0 - Pow(1.0 - TrajectorySuccess(alpha, epsilon, k), n)
  }

  /** Predictions are probabilities and never drop when an arm or a block is added. */
  lemma PredictionsAreMonotone(alpha: real, epsilon: seq<real>, n: nat, n': nat, k: nat, k': nat)
    requires 0.0 <= alpha <= 1.0 && IsCurve(epsilon) && n <= n' && k <= k' <= |epsilon|
    ensures 0.0 <= Predicted(alpha, epsilon, n, k) <= Predicted(alpha, epsilon, n', k') <= 1.0
  {
    hide TrajectorySuccess;
    TrajectoryMonotone(alpha, epsilon, k, k');
    AnyOfBounds(TrajectorySuccess(alpha, epsilon, k), TrajectorySuccess(alpha, epsilon, k'), n, n');
  }

  /** At least one of n independent arms succeeds: monotone in the arm's success and in n. */
  lemma AnyOfBounds(s: real, s': real, n: nat, n': nat)
    requires 0.0 <= s <= s' <= 1.0 && n <= n'
    ensures 0.0 <= 1.0 - Pow(1.0 - s, n) <= 1.0 - Pow(1.0 - s', n') <= 1.0
  {
    PowUnit(1.0 - s, n);
    PowMonotone(1.0 - s', 1.0 - s, n);
    PowShrinks(1.0 - s', n, n');
  }

  lemma {:induction false} PowShrinks(y: real, n: nat, n': nat)
    requires 0.0 <= y <= 1.0 && n <= n'
    ensures 0.0 <= Pow(y, n') <= Pow(y, n)
  {
    PowUnit(y, n');
    if n < n' {
      PowShrinks(y, n, n' - 1);
      ProductMonotone(y, 1.0, Pow(y, n' - 1), Pow(y, n' - 1));
    }
  }

  lemma {:induction false} TrajectoryMonotone(alpha: real, epsilon: seq<real>, k: nat, k': nat)
    requires 0.0 <= alpha <= 1.0 && IsCurve(epsilon) && k <= k' <= |epsilon|
    ensures 0.0 <= TrajectorySuccess(alpha, epsilon, k) <= TrajectorySuccess(alpha, epsilon, k') <= 1.0
    decreases k' - k
  {
    ConvolutionIsProcess(alpha, epsilon, k);
    TrajectoryBounds(alpha, epsilon, k);
    if k < k' {
      TrajectoryMonotone(alpha, epsilon, k + 1, k');
      ConvolutionIsProcess(alpha, epsilon, k + 1);
      TrajectoryBounds(alpha, epsilon, k + 1);
    }
  }

  /** For every accepted observation the fitted predictions need no clamping. */
  lemma FittedPredictionsAreProbabilities(obs: Observation, budget: nat, n: nat, n': nat, k: nat, k': nat)
    requires budget > 0 && obs.Valid(budget) && n <= n' && k <= k' <= budget
    ensures var fit := Fitted(obs, budget);
      0.0 <= Predicted(fit.alpha, fit.epsilon, n, k) <= Predicted(fit.alpha, fit.epsilon, n', k') <= 1.0
  {
    hide Fitted;
    FitIsValid(obs, budget);
    PredictionsAreMonotone(Fitted(obs, budget).alpha, Fitted(obs, budget).epsilon, n, n', k, k');
  }
}

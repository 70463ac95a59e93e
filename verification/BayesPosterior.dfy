/** The mixture over failure cases is the Bayes posterior. The likelihood
    L = (alpha pi_0)^u (1 - alpha pi_0)^(m-u) prod_j pi_j^c_j is not a monomial, so "the prior
    expectation of L g" is defined by acting with 1 - alpha pi_0 on the prior's moments; every
    statement about the posterior is then an identity between such expectations. */
module BayesPosterior {
  import opened Numbers
  import opened Moments
  import opened Expectations
  import opened Trajectories
  import opened RegularizedDiscoveryExecution

  // ----- prior expectations

  function AllCounts(blocks: multiset<nat>, n: nat): (r: seq<nat>)
    ensures |r| == n && forall j :: 0 <= j < n ==> r[j] == blocks[j]
  {
    seq(n, j requires 0 <= j < n => blocks[j])
  }

  /** E[m] under alpha ~ Beta(a, b) and pi ~ Dirichlet(concentrations). */
  function PriorExpectation(prior: Prior, budget: nat): Functional
    requires prior.Valid(budget)
  {
    PriorTotal(prior, budget);
    (m: Monomial) =>
      BetaMoment(prior.a, prior.b, m.s, m.f) * DirichletMoment(prior.concentrations, AllCounts(m.blocks, budget + 1))
  }

  function CountsAsBlocks(c: seq<nat>): multiset<nat> {
    if c == [] then multiset{} else CountsAsBlocks(c[..|c| - 1])[|c| - 1 := c[|c| - 1]]
  }

  /** alpha^u pi_0^u prod_j pi_j^c_j. */
  function ObservedMonomial(data: Data): Monomial
    requires data.counts != []
  {
    Monomial(data.successes, 0, CountsAsBlocks(data.counts[0 := data.counts[0] + data.successes]))
  }

  const SHORT_SUCCESS := Monomial(1, 0, multiset{0})

  /** g => E_prior[L g]. */
  function LikelihoodExpectation(prior: Prior, data: Data, budget: nat): Functional
    requires prior.Valid(budget) && data.Valid(budget)
  {
    (g: Monomial) =>
      var failures := ComplementPower(PriorExpectation(prior, budget), [SHORT_SUCCESS], data.Failures());
      failures(g.Times(ObservedMonomial(data)))
  }

  lemma {:induction false} BlocksOfCounts(c: seq<nat>, j: nat)
    ensures CountsAsBlocks(c)[j] == if j < |c| then c[j] else 0
  {
    if c != [] { BlocksOfCounts(c[..|c| - 1], j); }
  }

  // ----- the expansion over failure cases

  /** E[m (1-pi_0)^h]. */
  function FailedExecutions(prior: Prior, budget: nat, h: nat): Functional
    requires prior.Valid(budget)
  {
    LaterPositive(prior, Data(0, 0, seq(budget + 1, _ => 0)), budget);
    var d := prior.concentrations;
    (m: Monomial) =>
      BetaMoment(prior.a, prior.b, m.s, m.f)
      * FailedExecutionMoment(d[0], d[1..], h, m.blocks)
  }

  function FailedExecutionMoment(first: real, later: seq<real>, h: nat, blocks: multiset<nat>): real
    requires first > 0.0 && Total(later) > 0.0
  {
    BetaMoment(first, Total(later), blocks[0], Count(LaterCounts(blocks, |later|)) + h)
    * DirichletMoment(later, LaterCounts(blocks, |later|))
  }

  lemma LaterShapes(prior: Prior, budget: nat)
    requires prior.Valid(budget)
    ensures var d := prior.concentrations;
      d[0] > 0.0 && |d[1..]| == budget && NonnegativeShapes(d[1..]) && Total(d[1..]) > 0.0
  {
    LaterPositive(prior, Data(0, 0, seq(budget + 1, _ => 0)), budget);
  }

  lemma PriorIsNoFailure(prior: Prior, budget: nat, m: Monomial)
    requires prior.Valid(budget)
    ensures PriorExpectation(prior, budget)(m) == FailedExecutions(prior, budget, 0)(m)
  {
    hide BetaMoment, DirichletMoment;
    LaterShapes(prior, budget);
    PriorTotal(prior, budget);
    var d, r := prior.concentrations, AllCounts(m.blocks, budget + 1);
    assert r[1..] == LaterCounts(m.blocks, budget);
    DirichletFactors(d, r);
  }

  lemma MonomialFacts(m: Monomial)
    ensures m.Times(SHORT_SUCCESS) == Monomial(m.s + 1, m.f, multiset{0} + m.blocks)
    ensures forall s, f :: m.Times(Monomial(s, f, multiset{})) == Monomial(m.s + s, m.f + f, m.blocks)
  {
    assert m.blocks + multiset{0} == multiset{0} + m.blocks;
    assert m.blocks + multiset{} == m.blocks;
  }

  /** A trial that is not a short success either misses discovery or discovers and fails to execute:
      1 - alpha pi_0 = (1-alpha) + alpha (1-pi_0) under the prior. */
  lemma FailureCauses(prior: Prior, budget: nat, h: nat, m: Monomial)
    requires prior.Valid(budget)
    ensures FailedExecutions(prior, budget, h)(m) - FailedExecutions(prior, budget, h)(m.Times(SHORT_SUCCESS))
         == FailedExecutions(prior, budget, h)(m.Times(NO_DISCOVERY))
          + FailedExecutions(prior, budget, h + 1)(m.Times(DISCOVERY))
  {
    hide BetaMoment, DirichletMoment, LaterCounts, Count;
    LaterShapes(prior, budget);
    TimesSingle(m);
    MonomialFacts(m);
    LaterCountsBump(m.blocks, 0, budget);
    var d, r := prior.concentrations, LaterCounts(m.blocks, budget);
    var x := DirichletMoment(d[1..], r);
    BetaTotal(prior.a, prior.b, m.s, m.f);
    BetaTotal(d[0], Total(d[1..]), m.blocks[0], Count(r) + h);
    CauseAlgebra(BetaMoment(prior.a, prior.b, m.s, m.f), BetaMoment(prior.a, prior.b, m.s + 1, m.f),
                 BetaMoment(prior.a, prior.b, m.s, m.f + 1),
                 BetaMoment(d[0], Total(d[1..]), m.blocks[0], Count(r) + h),
                 BetaMoment(d[0], Total(d[1..]), m.blocks[0] + 1, Count(r) + h),
                 BetaMoment(d[0], Total(d[1..]), m.blocks[0], Count(r) + h + 1), x);
  }

  lemma CauseAlgebra(b: real, b1: real, b2: real, e: real, e1: real, e2: real, x: real)
    requires b == b1 + b2 && e == e1 + e2
    ensures b * (e * x) - b1 * (e1 * x) == b2 * (e * x) + b1 * (e2 * x)
  {
  }

  /** C(F, h) E[m alpha^h (1-alpha)^(F-h) (1-pi_0)^h]: exactly h of F failures were executions. */
  function CaseTerm(prior: Prior, budget: nat, failures: nat, h: nat, m: Monomial): real
    requires prior.Valid(budget)
  {
    if h > failures then
      0.0
    else
      Choose(failures, h) as real
      * FailedExecutions(prior, budget, h)(m.Times(Monomial(h, failures - h, multiset{})))
  }

  function CaseTermSum(prior: Prior, budget: nat, failures: nat, cases: nat, m: Monomial): real
    requires prior.Valid(budget)
  {
    if cases == 0 then 0.0
    else CaseTermSum(prior, budget, failures, cases - 1, m) + CaseTerm(prior, budget, failures, cases - 1, m)
  }

  /** The part of a case term in which the last failure missed discovery ... */
  function Missed(prior: Prior, budget: nat, failures: nat, h: nat, m: Monomial): real
    requires prior.Valid(budget) && failures > 0
  {
    if h >= failures then
      0.0
    else
      Choose(failures - 1, h) as real
      * FailedExecutions(prior, budget, h)(m.Times(Monomial(h, failures - h, multiset{})))
  }

  /** ... and the part of the next one in which it was an execution. */
  function Executed(prior: Prior, budget: nat, failures: nat, h: nat, m: Monomial): real
    requires prior.Valid(budget) && failures > 0
  {
    if h >= failures then
      0.0
    else
      Choose(failures - 1, h) as real
      * FailedExecutions(prior, budget, h + 1)(m.Times(Monomial(h + 1, failures - 1 - h, multiset{})))
  }

  lemma TermSplits(prior: Prior, budget: nat, failures: nat, h: nat, m: Monomial)
    requires prior.Valid(budget) && failures > 0
    ensures CaseTerm(prior, budget, failures, h, m)
         == Missed(prior, budget, failures, h, m)
          + (if h == 0 then 0.0 else Executed(prior, budget, failures, h - 1, m))
  {
    hide FailedExecutions;
    ChooseOutside(failures - 1, failures);
    if 0 < h <= failures {
      var x := FailedExecutions(prior, budget, h)(m.Times(Monomial(h, failures - h, multiset{})));
      SplitChoose(Choose(failures - 1, h) as real, Choose(failures - 1, h - 1) as real, Choose(failures, h) as real, x);
    }
  }

  lemma SplitChoose(a: real, b: real, c: real, x: real)
    requires c == a + b
    ensures c * x == a * x + b * x
  {
  }

  lemma TermDifference(prior: Prior, budget: nat, failures: nat, h: nat, m: Monomial)
    requires prior.Valid(budget) && failures > 0
    ensures CaseTerm(prior, budget, failures - 1, h, m)
          - CaseTerm(prior, budget, failures - 1, h, m.Times(SHORT_SUCCESS))
         == Missed(prior, budget, failures, h, m) + Executed(prior, budget, failures, h, m)
  {
    hide FailedExecutions, Choose, Monomial.Times;
    if h < failures {
      var v := m.Times(Monomial(h, failures - 1 - h, multiset{}));
      FailureCauses(prior, budget, h, v);
      MonomialSteps(m, h, failures - 1 - h);
      var c, e := Choose(failures - 1, h) as real, FailedExecutions(prior, budget, h);
      DifferenceAlgebra(c, e(v), e(v.Times(SHORT_SUCCESS)), e(v.Times(NO_DISCOVERY)),
                        FailedExecutions(prior, budget, h + 1)(v.Times(DISCOVERY)));
    }
  }

  lemma MonomialSteps(m: Monomial, s: nat, f: nat)
    ensures var t := Monomial(s, f, multiset{}); var v := m.Times(t);
      && v.Times(SHORT_SUCCESS) == m.Times(SHORT_SUCCESS).Times(t)
      && v.Times(NO_DISCOVERY) == m.Times(Monomial(s, f + 1, multiset{}))
      && v.Times(DISCOVERY) == m.Times(Monomial(s + 1, f, multiset{}))
  {
    TimesLaws(m, Monomial(s, f, multiset{}), SHORT_SUCCESS);
    MonomialFacts(m);
    TimesSingle(m.Times(Monomial(s, f, multiset{})));
  }

  lemma DifferenceAlgebra(c: real, x: real, y: real, p: real, q: real)
    requires x - y == p + q
    ensures c * x - c * y == c * p + c * q
  {
    assert c * (x - y) == c * (p + q);
  }

  lemma {:induction false} TermSumStep(prior: Prior, budget: nat, failures: nat, cases: nat, m: Monomial)
    requires prior.Valid(budget) && failures > 0 && cases > 0
    ensures CaseTermSum(prior, budget, failures, cases, m)
         == CaseTermSum(prior, budget, failures - 1, cases, m)
          - CaseTermSum(prior, budget, failures - 1, cases, m.Times(SHORT_SUCCESS))
          - Executed(prior, budget, failures, cases - 1, m)
  {
    hide CaseTerm, Missed, Executed;
    TermSplits(prior, budget, failures, cases - 1, m);
    TermDifference(prior, budget, failures, cases - 1, m);
    if cases > 1 {
      TermSumStep(prior, budget, failures, cases - 1, m);
    } else {
      assert CaseTermSum(prior, budget, failures, 0, m) == 0.0;
    }
  }

  /** The h-expansion and the alternating expansion of (1 - alpha pi_0)^F have the same prior
      expectation against every monomial. */
  lemma {:induction false} CaseExpansion(prior: Prior, budget: nat, failures: nat, cases: nat, m: Monomial)
    requires prior.Valid(budget) && cases > failures
    ensures ComplementPower(PriorExpectation(prior, budget), [SHORT_SUCCESS], failures)(m)
         == CaseTermSum(prior, budget, failures, cases, m)
    decreases failures, cases
  {
    hide CaseTerm, PriorExpectation;
    if cases > failures + 1 {
      CaseExpansion(prior, budget, failures, cases - 1, m);
      CaseTermOutside(prior, budget, failures, cases - 1, m);
    } else if failures == 0 {
      CaseTermZero(prior, budget, m);
      assert CaseTermSum(prior, budget, 0, 1, m)
           == CaseTermSum(prior, budget, 0, 0, m) + CaseTerm(prior, budget, 0, 0, m);
    } else {
      TermSumStep(prior, budget, failures, cases, m);
      ExecutedOutside(prior, budget, failures, m);
      CaseExpansion(prior, budget, failures - 1, cases, m);
      CaseExpansion(prior, budget, failures - 1, cases, m.Times(SHORT_SUCCESS));
      ComplementStep(PriorExpectation(prior, budget), SHORT_SUCCESS, failures, m);
    }
  }

  lemma CaseTermOutside(prior: Prior, budget: nat, failures: nat, h: nat, m: Monomial)
    requires prior.Valid(budget) && h > failures
    ensures CaseTerm(prior, budget, failures, h, m) == 0.0
  {
  }

  lemma ExecutedOutside(prior: Prior, budget: nat, failures: nat, m: Monomial)
    requires prior.Valid(budget) && failures > 0
    ensures Executed(prior, budget, failures, failures, m) == 0.0
  {
  }

  lemma CaseTermZero(prior: Prior, budget: nat, m: Monomial)
    requires prior.Valid(budget)
    ensures CaseTerm(prior, budget, 0, 0, m) == PriorExpectation(prior, budget)(m)
  {
    hide FailedExecutions, PriorExpectation, Monomial.Times;
    PriorIsNoFailure(prior, budget, m);
    TimesLaws(m, UNIT, UNIT);
    assert Choose(0, 0) as real == 1.0;
  }

  lemma ComplementStep(e: Functional, t: Monomial, n: nat, m: Monomial)
    requires n > 0
    ensures ComplementPower(e, [t], n)(m)
         == ComplementPower(e, [t], n - 1)(m) - ComplementPower(e, [t], n - 1)(m.Times(t))
  {
    var c := ComplementPower(e, [t], n - 1);
    assert Act(c, [t], m) == c(m.Times(t)) + Act(c, [], m);
  }

  // ----- conjugate updates

  lemma LaterCountsAdd(c: seq<nat>, o: multiset<nat>, blocks: multiset<nat>, all: multiset<nat>, budget: nat)
    requires |c| == budget + 1 && all == blocks + o
    requires forall j: nat :: 0 < j <= budget ==> o[j] == c[j]
    ensures LaterCounts(all, budget) == AddCounts(c[1..], LaterCounts(blocks, budget))
  {
  }

  lemma ObservedCounts(data: Data, budget: nat, g: Monomial, h: nat, f: nat)
    requires data.Valid(budget)
    ensures var m := g.Times(ObservedMonomial(data)).Times(Monomial(h, f, multiset{}));
      && m.s == data.successes + h + g.s && m.f == f + g.f
      && m.blocks[0] == data.counts[0] + data.successes + g.blocks[0]
      && LaterCounts(m.blocks, budget) == AddCounts(data.counts[1..], LaterCounts(g.blocks, budget))
  {
    hide CountsAsBlocks, LaterCounts, AddCounts;
    var c := data.counts[0 := data.counts[0] + data.successes];
    var o := CountsAsBlocks(c);
    forall j: nat ensures o[j] == if j < |c| then c[j] else 0 {
      BlocksOfCounts(c, j);
    }
    var v := g.Times(ObservedMonomial(data));
    assert v.blocks == g.blocks + o;
    MonomialFacts(v);
    LaterCountsAdd(data.counts, o, g.blocks, v.blocks, budget);
  }

  /** The conditional expectation of g spelled out with the updated shapes. */
  lemma CaseSide(prior: Prior, data: Data, budget: nat, cases: nat, h: nat, g: Monomial, c: real, b1: real, e2: real,
                 b2: real, e3: real, x2: real)
    requires prior.Valid(budget) && data.Valid(budget) && h <= data.Failures() < cases
    requires (LaterShapes(prior, budget); LaterPositive(prior, data, budget);
      var d, u, r := OracleConcentrations(prior, data, budget), data.successes, LaterCounts(g.blocks, budget);
      && c == Choose(data.Failures(), h) as real
      && b1 == BetaMoment(prior.a, prior.b, u + h, data.Failures() - h)
      && b2 == BetaMoment(prior.a + (u + h) as real, prior.b + (data.Failures() - h) as real, g.s, g.f)
      && e2 == BetaMoment(d[0], Total(d[1..]), u, h)
      && e3 == BetaMoment(d[0] + u as real, Total(d[1..]) + h as real, g.blocks[0], Count(r))
      && x2 == DirichletMoment(d[1..], r))
    ensures CaseWeight(prior, data, budget, h) == c * b1 * e2
    ensures CaseExpectation(CalculatePosterior(prior, data, budget, cases), budget, h)(g) == b2 * (e3 * x2)
  {
    hide BetaMoment, DirichletMoment, LaterCounts, Count, Total, Choose, Observe, WeightSum, OracleEvidence;
    LaterPositive(prior, data, budget);
  }

  /** A case term spelled out: every exponent is the observed count plus that of g. */
  lemma TermSide(prior: Prior, data: Data, budget: nat, h: nat, g: Monomial, c: real, b: real, e: real, x: real)
    requires prior.Valid(budget) && data.Valid(budget) && h <= data.Failures()
    requires (LaterShapes(prior, budget);
      var p, o, u, r := prior.concentrations, data.counts, data.successes, LaterCounts(g.blocks, budget);
      && c == Choose(data.Failures(), h) as real
      && b == BetaMoment(prior.a, prior.b, u + h + g.s, data.Failures() - h + g.f)
      && e == BetaMoment(p[0], Total(p[1..]), o[0] + u + g.blocks[0], Count(AddCounts(o[1..], r)) + h)
      && x == DirichletMoment(p[1..], AddCounts(o[1..], r)))
    ensures CaseTerm(prior, budget, data.Failures(), h, g.Times(ObservedMonomial(data))) == c * (b * (e * x))
  {
    hide BetaMoment, DirichletMoment, LaterCounts, Count, Total, Choose, AddCounts, ObservedMonomial, Monomial.Times;
    ObservedCounts(data, budget, g, h, data.Failures() - h);
  }

  /** Each case term factors into the oracle evidence, the case weight and the conditional
      expectation of g: observing the data only shifts the shapes. */
  lemma CaseTermFactors(prior: Prior, data: Data, budget: nat, cases: nat, h: nat, g: Monomial)
    requires prior.Valid(budget) && data.Valid(budget) && h <= data.Failures() < cases
    ensures CaseTerm(prior, budget, data.Failures(), h, g.Times(ObservedMonomial(data)))
         == TrueOracleEvidence(prior, data, budget)
          * (CaseWeight(prior, data, budget, h)
             * CaseExpectation(CalculatePosterior(prior, data, budget, cases), budget, h)(g))
  {
    hide BetaMoment, DirichletMoment, LaterCounts, Count, Total, Choose, AddCounts, Observe, CaseTerm, CaseWeight,
         CaseExpectation, ObservedMonomial, Monomial.Times, CalculatePosterior;
    LaterShapes(prior, budget);
    LaterPositive(prior, data, budget);
    PriorTotal(prior, budget);
    var p, c, d := prior.concentrations, data.counts, OracleConcentrations(prior, data, budget);
    var u, f := data.successes, data.Failures() - h;
    var g0, r := g.blocks[0], LaterCounts(g.blocks, budget);
    var t, n, q := Total(p[1..]), Count(AddCounts(c[1..], r)) + h, Total(d[1..]);
    var k := Choose(data.Failures(), h) as real;
    var b, b1, b2 := BetaMoment(prior.a, prior.b, u + h + g.s, f + g.f), BetaMoment(prior.a, prior.b, u + h, f),
                     BetaMoment(prior.a + (u + h) as real, prior.b + f as real, g.s, g.f);
    BetaUpdate(prior.a, prior.b, u + h, f, g.s, g.f, prior.a + (u + h) as real, prior.b + f as real,
               u + h + g.s, f + g.f, b, b1, b2);
    var e, e1, e2, e3 := BetaMoment(p[0], t, c[0] + u + g0, n), BetaMoment(p[0], t, c[0], Count(c[1..])),
                         BetaMoment(d[0], q, u, h), BetaMoment(d[0] + u as real, q + h as real, g0, Count(r));
    CountAdd(c[1..], r);
    TotalObserve(p[1..], c[1..]);
    TwoUpdates(p[0], t, c[0], Count(c[1..]), u, h, g0, Count(r), d[0], q, c[0] + u + g0, n, e, e1, e2, e3);
    var x, x1 := DirichletMoment(p[1..], AddCounts(c[1..], r)), DirichletMoment(p[1..], c[1..]);
    var x2 := DirichletMoment(d[1..], r);
    DirichletConjugate(p[1..], c[1..], r);
    DirichletFactors(p, c);
    TermSide(prior, data, budget, h, g, k, b, e, x);
    CaseSide(prior, data, budget, cases, h, g, k, b1, e2, b2, e3, x2);
    FactorAlgebra4(k, b, b1, b2, e, e1, e2, e3, x, x1, x2, TrueOracleEvidence(prior, data, budget),
                   CaseWeight(prior, data, budget, h),
                   CaseExpectation(CalculatePosterior(prior, data, budget, cases), budget, h)(g),
                   CaseTerm(prior, budget, data.Failures(), h, g.Times(ObservedMonomial(data))));
  }

  /** E_prior[prod_j pi_j^c_j]. */
  function TrueOracleEvidence(prior: Prior, data: Data, budget: nat): real
    requires prior.Valid(budget) && data.Valid(budget)
  {
    PriorTotal(prior, budget);
    DirichletMoment(prior.concentrations, data.counts)
  }

  /** The oracle counts, then the short successes and failed executions, then the monomial itself. */
  lemma TwoUpdates(p: real, q: real, c: nat, d: nat, u: nat, h: nat, g: nat, n: nat, p': real, q': real, s: nat, f: nat,
                   e: real, e1: real, e2: real, e3: real)
    requires p > 0.0 && q > 0.0
    requires p' == p + c as real && q' == q + d as real && s == c + (u + g) && f == d + (h + n)
    requires e == BetaMoment(p, q, s, f) && e1 == BetaMoment(p, q, c, d)
    requires e2 == BetaMoment(p', q', u, h) && e3 == BetaMoment(p' + u as real, q' + h as real, g, n)
    ensures e == e1 * (e2 * e3)
  {
    hide BetaMoment;
    var z := BetaMoment(p', q', u + g, h + n);
    BetaUpdate(p, q, c, d, u + g, h + n, p', q', s, f, e, e1, z);
    BetaUpdate(p', q', u, h, g, n, p' + u as real, q' + h as real, u + g, h + n, z, e2, e3);
    Chain(e, e1, z, e2, e3);
  }

  lemma Chain(x: real, y: real, z: real, v: real, w: real)
    requires x == y * z && z == v * w
    ensures x == y * (v * w)
  {
  }

  lemma FactorAlgebra4(k: real, b: real, b1: real, b2: real, e: real, e1: real, e2: real, e3: real,
                       x: real, x1: real, x2: real, z: real, w: real, v: real, term: real)
    requires b == b1 * b2 && e == e1 * (e2 * e3) && x == x1 * x2
    requires z == e1 * x1 && w == k * b1 * e2 && v == b2 * (e3 * x2) && term == k * (b * (e * x))
    ensures term == z * (w * v)
  {
    assert e * x == (e1 * x1) * ((e2 * e3) * x2);
    assert b * (e * x) == (e1 * x1) * ((b1 * e2) * (b2 * (e3 * x2)));
  }

  // ----- the posterior theorem

  /** sum_h w_h E[g | h, D]. */
  function WeightedCases(prior: Prior, data: Data, budget: nat, cases: nat, g: Monomial): real
    requires prior.Valid(budget) && data.Valid(budget) && cases <= data.Failures() + 1
  {
    if cases == 0 then
      0.0
    else
      WeightedCases(prior, data, budget, cases - 1, g)
      + CaseWeight(prior, data, budget, cases - 1)
        * CaseExpectation(TightPosterior(prior, data, budget), budget, cases - 1)(g)
  }

  /** The posterior of a problem predicted on its own, without padding. */
  function TightPosterior(prior: Prior, data: Data, budget: nat): (post: Posterior)
    requires prior.Valid(budget) && data.Valid(budget)
    ensures post.Valid(budget) && |post.caseProbabilities| == data.Failures() + 1
  {
    CalculatePosterior(prior, data, budget, data.Failures() + 1)
  }

  lemma {:induction false} CaseTermsFactor(prior: Prior, data: Data, budget: nat, cases: nat, g: Monomial)
    requires prior.Valid(budget) && data.Valid(budget) && cases <= data.Failures() + 1
    ensures CaseTermSum(prior, budget, data.Failures(), cases, g.Times(ObservedMonomial(data)))
         == TrueOracleEvidence(prior, data, budget) * WeightedCases(prior, data, budget, cases, g)
  {
    hide CaseTerm, CaseWeight, CaseExpectation, TrueOracleEvidence, ObservedMonomial, Monomial.Times;
    if cases > 0 {
      CaseTermsFactor(prior, data, budget, cases - 1, g);
      CaseTermFactors(prior, data, budget, data.Failures() + 1, cases - 1, g);
      Distribute(TrueOracleEvidence(prior, data, budget), WeightedCases(prior, data, budget, cases - 1, g),
        CaseWeight(prior, data, budget, cases - 1)
        * CaseExpectation(TightPosterior(prior, data, budget), budget, cases - 1)(g),
        WeightedCases(prior, data, budget, cases, g));
    }
  }

  /** E_prior[L g] is the oracle evidence times the weighted sum of the conditional expectations. */
  lemma LikelihoodFactors(prior: Prior, data: Data, budget: nat, g: Monomial)
    requires prior.Valid(budget) && data.Valid(budget)
    ensures LikelihoodExpectation(prior, data, budget)(g)
         == TrueOracleEvidence(prior, data, budget) * WeightedCases(prior, data, budget, data.Failures() + 1, g)
  {
    hide CaseTermSum, ComplementPower, WeightedCases;
    CaseExpansion(prior, budget, data.Failures(), data.Failures() + 1, g.Times(ObservedMonomial(data)));
    CaseTermsFactor(prior, data, budget, data.Failures() + 1, g);
  }

  lemma {:induction false} WeightsOfUnit(prior: Prior, data: Data, budget: nat, cases: nat)
    requires prior.Valid(budget) && data.Valid(budget) && cases <= data.Failures() + 1
    ensures WeightedCases(prior, data, budget, cases, UNIT) == WeightSum(prior, data, budget, cases)
  {
    hide CaseWeight, CaseExpectation;
    if cases > 0 {
      WeightsOfUnit(prior, data, budget, cases - 1);
      CaseConsistent(TightPosterior(prior, data, budget), budget, cases - 1);
    }
  }

  /** The expectation under the mixture: sum_h Pr(h | D) E[g | h, D]. */
  function MixtureExpectation(post: Posterior, budget: nat, cases: nat): Functional
    requires post.Valid(budget) && cases <= |post.caseProbabilities|
  {
    if cases == 0 then
      (g: Monomial) => 0.0
    else
      (g: Monomial) => MixtureExpectation(post, budget, cases - 1)(g)
                     + post.caseProbabilities[cases - 1] * CaseExpectation(post, budget, cases - 1)(g)
  }

  lemma MixtureUnfold(post: Posterior, budget: nat, cases: nat, g: Monomial)
    requires post.Valid(budget) && 0 < cases <= |post.caseProbabilities|
    ensures MixtureExpectation(post, budget, cases)(g)
         == MixtureExpectation(post, budget, cases - 1)(g)
          + post.caseProbabilities[cases - 1] * CaseExpectation(post, budget, cases - 1)(g)
  {
    hide CaseExpectation, Posterior.Valid;
  }

  lemma {:induction false} MixtureScaled(prior: Prior, data: Data, budget: nat, cases: nat, g: Monomial)
    requires prior.Valid(budget) && data.Valid(budget) && cases <= data.Failures() + 1
    ensures MixtureExpectation(TightPosterior(prior, data, budget), budget, cases)(g)
          * WeightSum(prior, data, budget, data.Failures() + 1)
         == WeightedCases(prior, data, budget, cases, g)
  {
    hide CaseWeight, CaseExpectation, MixtureExpectation;
    var post, total := TightPosterior(prior, data, budget), WeightSum(prior, data, budget, data.Failures() + 1);
    WeightsPositive(prior, data, budget, data.Failures() + 1);
    if cases == 0 {
      MixtureEmpty(post, budget, g);
    } else {
      MixtureScaled(prior, data, budget, cases - 1, g);
      MixtureUnfold(post, budget, cases, g);
      RescaleStep(MixtureExpectation(post, budget, cases)(g), MixtureExpectation(post, budget, cases - 1)(g),
        post.caseProbabilities[cases - 1], CaseExpectation(post, budget, cases - 1)(g),
        CaseWeight(prior, data, budget, cases - 1), total);
    }
  }

  lemma MixtureEmpty(post: Posterior, budget: nat, g: Monomial)
    requires post.Valid(budget)
    ensures MixtureExpectation(post, budget, 0)(g) == 0.0
  {
  }

  lemma RescaleStep(x: real, y: real, p: real, e: real, w: real, total: real)
    requires total > 0.0 && p == w / total && x == y + p * e
    ensures x * total == y * total + w * e
  {
    assert p * total == w;
    assert x * total == y * total + (p * total) * e;
  }

  /** Bayes: for every monomial g, E_prior[L g] is E_prior[L] times the mixture's expectation of g,
      whatever the data. */
  lemma MixtureIsBayes(prior: Prior, data: Data, budget: nat, g: Monomial)
    requires prior.Valid(budget) && data.Valid(budget)
    ensures LikelihoodExpectation(prior, data, budget)(g)
         == LikelihoodExpectation(prior, data, budget)(UNIT)
          * MixtureExpectation(TightPosterior(prior, data, budget), budget, data.Failures() + 1)(g)
  {
    hide LikelihoodExpectation, MixtureExpectation, WeightedCases, TrueOracleEvidence, WeightSum;
    LikelihoodFactors(prior, data, budget, g);
    LikelihoodFactors(prior, data, budget, UNIT);
    WeightsOfUnit(prior, data, budget, data.Failures() + 1);
    MixtureScaled(prior, data, budget, data.Failures() + 1, g);
    BayesAlgebra(TrueOracleEvidence(prior, data, budget), WeightSum(prior, data, budget, data.Failures() + 1),
      WeightedCases(prior, data, budget, data.Failures() + 1, g),
      MixtureExpectation(TightPosterior(prior, data, budget), budget, data.Failures() + 1)(g));
  }

  lemma BayesAlgebra(z: real, t: real, w: real, m: real)
    requires m * t == w
    ensures z * w == (z * t) * m
  {
  }

  // ----- evidence and support

  /** No oracle completion was counted in a category the prior excludes. */
  predicate Supported(prior: Prior, data: Data, budget: nat)
    requires prior.Valid(budget) && data.Valid(budget)
  {
    forall j :: 0 <= j <= budget && prior.concentrations[j] == 0.0 ==> data.counts[j] == 0
  }

  lemma {:induction false} SupportedProducts(d: seq<real>, c: seq<nat>)
    requires |d| == |c| && NonnegativeShapes(d)
    ensures SupportedProduct(d, c) > 0.0
    ensures (forall j :: 0 <= j < |d| && d[j] == 0.0 ==> c[j] == 0) ==> SupportedProduct(d, c) == PochProduct(d, c)
    ensures (exists j :: 0 <= j < |d| && d[j] == 0.0 && c[j] > 0) ==> PochProduct(d, c) == 0.0
  {
    hide Poch;
    if d != [] {
      SupportedProducts(d[1..], c[1..]);
      ExcludedFactor(c[0]);
      var p := if d[0] > 0.0 then Poch(d[0], c[0]) else 1.0;
      if d[0] > 0.0 { PochPositive(d[0], c[0]); }
      var q := SupportedProduct(d[1..], c[1..]);
      assert p * q > 0.0;
      if j :| 0 <= j < |d| && d[j] == 0.0 && c[j] > 0 {
        if j > 0 { assert d[1..][j - 1] == 0.0 && c[1..][j - 1] > 0; }
      } else {
        forall j | 0 <= j < |d| - 1 && d[1..][j] == 0.0 ensures c[1..][j] == 0 { assert d[j + 1] == 0.0; }
      }
    }
  }

  lemma ExcludedFactor(c: nat)
    ensures Poch(0.0, 0) == 1.0
    ensures c > 0 ==> Poch(0.0, c) == 0.0
  {
    if c > 0 { PochSplit(0.0, 1, c - 1); PochOne(0.0); }
  }

  /** The marginal likelihood the posterior reports is E_prior[L] exactly when the counts are
      supported by the prior; otherwise E_prior[L] is zero and the reported value is not. */
  lemma EvidenceExactness(prior: Prior, data: Data, budget: nat)
    requires prior.Valid(budget) && data.Valid(budget)
    ensures TightPosterior(prior, data, budget).evidence > 0.0
    ensures TightPosterior(prior, data, budget).evidence == LikelihoodExpectation(prior, data, budget)(UNIT)
       <==> Supported(prior, data, budget)
    ensures !Supported(prior, data, budget) ==> LikelihoodExpectation(prior, data, budget)(UNIT) == 0.0
  {
    hide LikelihoodExpectation, WeightedCases, CaseWeight, Poch, Total, Count, PochProduct;
    var d, c := prior.concentrations, data.counts;
    LikelihoodFactors(prior, data, budget, UNIT);
    WeightsOfUnit(prior, data, budget, data.Failures() + 1);
    WeightsPositive(prior, data, budget, data.Failures() + 1);
    SupportedProducts(d, c);
    PriorTotal(prior, budget);
    PochPositive(Total(d), Count(c));
    var z, t := Poch(Total(d), Count(c)), WeightSum(prior, data, budget, data.Failures() + 1);
    EvidenceSigns(SupportedProduct(d, c), z, t);
    if !Supported(prior, data, budget) {
      assert PochProduct(d, c) == 0.0;
      assert 0.0 / z == 0.0;
      assert TrueOracleEvidence(prior, data, budget) == 0.0;
    }
  }

  lemma EvidenceSigns(x: real, z: real, t: real)
    requires x > 0.0 && z > 0.0 && t > 0.0
    ensures x / z * t > 0.0
  {
    SignOfQuotient(x, z);
  }

  // ----- the prediction is the posterior predictive probability

  /** E_posterior[g] = E_prior[L g] / E_prior[L]. */
  function PosteriorExpectation(prior: Prior, data: Data, budget: nat): Functional
    requires prior.Valid(budget) && data.Valid(budget) && Supported(prior, data, budget)
  {
    EvidenceExactness(prior, data, budget);
    (g: Monomial) => LikelihoodExpectation(prior, data, budget)(g) / LikelihoodExpectation(prior, data, budget)(UNIT)
  }

  lemma DoubleIsZero(x: real)
    requires x == x + 1.0 * x
    ensures x == 0.0
  {
  }

  lemma MixtureNone(post: Posterior, budget: nat, n: nat, k: nat)
    requires post.Valid(budget)
    ensures MixtureSuccess(post, budget, n, k, 0) == 0.0
  {
  }

  lemma MixtureNext(post: Posterior, budget: nat, n: nat, k: nat, cases: nat)
    requires post.Valid(budget) && 0 < cases <= |post.caseProbabilities|
    ensures MixtureSuccess(post, budget, n, k, cases)
         == MixtureSuccess(post, budget, n, k, cases - 1)
          + post.caseProbabilities[cases - 1] * AnySuccess(CaseExpectation(post, budget, cases - 1), n, k)
  {
    hide AnySuccess, CaseExpectation, Posterior.Valid;
  }

  lemma {:induction false} MixtureSuccessLinear(post: Posterior, budget: nat, n: nat, k: nat, cases: nat)
    requires post.Valid(budget) && cases <= |post.caseProbabilities|
    ensures MixtureSuccess(post, budget, n, k, cases) == AnySuccess(MixtureExpectation(post, budget, cases), n, k)
  {
    hide AnySuccess, CaseExpectation, MixtureExpectation, MixtureSuccess, Posterior.Valid;
    var mix := MixtureExpectation(post, budget, cases);
    if cases == 0 {
      forall g: Monomial ensures mix(g) == mix(g) + 1.0 * mix(g) { MixtureEmpty(post, budget, g); }
      AnySuccessLinear(mix, mix, 1.0, mix, n, k);
      DoubleIsZero(AnySuccess(mix, n, k));
      MixtureNone(post, budget, n, k);
    } else {
      MixtureSuccessLinear(post, budget, n, k, cases - 1);
      var rest, p := MixtureExpectation(post, budget, cases - 1), post.caseProbabilities[cases - 1];
      var e := CaseExpectation(post, budget, cases - 1);
      MixtureNext(post, budget, n, k, cases);
      forall g: Monomial ensures mix(g) == rest(g) + p * e(g) { MixtureUnfold(post, budget, cases, g); }
      AnySuccessLinear(mix, rest, p, e, n, k);
      Accumulate(MixtureSuccess(post, budget, n, k, cases), MixtureSuccess(post, budget, n, k, cases - 1),
                 AnySuccess(mix, n, k), AnySuccess(rest, n, k), p, AnySuccess(e, n, k));
    }
  }

  lemma Accumulate(x: real, x': real, y: real, y': real, p: real, z: real)
    requires x == x' + p * z && y == y' + p * z && x' == y'
    ensures x == y
  {
  }

  lemma MixtureIsPosterior(prior: Prior, data: Data, budget: nat, g: Monomial)
    requires prior.Valid(budget) && data.Valid(budget) && Supported(prior, data, budget)
    ensures PosteriorExpectation(prior, data, budget)(g)
         == MixtureExpectation(TightPosterior(prior, data, budget), budget, data.Failures() + 1)(g)
  {
    hide LikelihoodExpectation, MixtureExpectation, TightPosterior;
    EvidenceExactness(prior, data, budget);
    MixtureIsBayes(prior, data, budget, g);
    var l := LikelihoodExpectation(prior, data, budget);
    var mix := MixtureExpectation(TightPosterior(prior, data, budget), budget, data.Failures() + 1);
    QuotientUnique(mix(g), l(g), l(UNIT));
  }

  /** The computed prediction is E_posterior[1 - (1 - s_k)^n]: the posterior probability, given all
      the data, that any of n arms of depth k solves. */
  lemma PredictionIsPosteriorPredictive(prior: Prior, data: Data, budget: nat, n: nat, k: nat)
    requires prior.Valid(budget) && data.Valid(budget) && k <= budget && Supported(prior, data, budget)
    ensures PredictedSuccess(prior, data, budget, n, k) == AnySuccess(PosteriorExpectation(prior, data, budget), n, k)
  {
    hide AnySuccess, PosteriorExpectation, MixtureExpectation;
    var post, cases := TightPosterior(prior, data, budget), data.Failures() + 1;
    MixtureSuccessLinear(post, budget, n, k, cases);
    var mix, e := MixtureExpectation(post, budget, cases), PosteriorExpectation(prior, data, budget);
    forall g: Monomial ensures e(g) == mix(g) {
      MixtureIsPosterior(prior, data, budget, g);
    }
    AnySuccessCongruence(e, mix, n, k);
  }
}

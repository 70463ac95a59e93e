/** Empirical-Bayes discovery-execution: a posterior mixture over the number h of failed short
    attempts in which discovery had succeeded, and the exact any-of-n prediction under it. Rows of
    the vectorised arrays are problems; this module follows one row. */
module RegularizedDiscoveryExecution {
  import opened Numbers
  import opened Moments
  import opened Expectations
  import opened Trajectories

  /** alpha ~ Beta(a, b) and pi ~ Dirichlet(concentrations); the last category is noncompletion. */
  datatype Prior = Prior(a: real, b: real, concentrations: seq<real>) {
    predicate Valid(budget: nat) {
      && a > 0.0 && b > 0.0 && |concentrations| == budget + 1
      && NonnegativeShapes(concentrations) && concentrations[0] > 0.0
      && exists j :: 1 <= j <= budget && concentrations[j] > 0.0
    }
  }

  /** u of m short successes and the oracle first-completion counts c_0, ..., c_budget. */
  datatype Data = Data(successes: nat, trials: nat, counts: seq<nat>) {
    predicate Valid(budget: nat) {
      successes <= trials && |counts| == budget + 1
    }

    function Failures(): nat
      requires successes <= trials
    {
      trials - successes
    }
  }

  /** The conditional shapes and probability of every case h, and the marginal likelihood. */
  datatype Posterior = Posterior(evidence: real, caseProbabilities: seq<real>,
                                 discoveryA: seq<real>, discoveryB: seq<real>,
                                 firstA: real, firstB: seq<real>, later: seq<real>)
  {
    /** Shapes under which every expectation below exists. */
    predicate Valid(budget: nat) {
      && |discoveryA| == |discoveryB| == |firstB| == |caseProbabilities|
      && |later| == budget && NonnegativeShapes(later) && Total(later) > 0.0 && firstA > 0.0
      && forall h :: 0 <= h < |caseProbabilities| ==> discoveryA[h] > 0.0 && discoveryB[h] > 0.0 && firstB[h] > 0.0
    }
  }

  // ----- the posterior

  function OracleConcentrations(prior: Prior, data: Data, budget: nat): seq<real>
    requires prior.Valid(budget) && data.Valid(budget)
  {
    Observe(prior.concentrations, data.counts)
  }

  /** Monus: columns h > m-u are padding for shorter rows. */
  function DiscoveryFailures(data: Data, h: nat): nat
    requires data.successes <= data.trials
  {
    if h <= data.Failures() then data.Failures() - h else 0
  }

  /** w_h = C(m-u, h) E[alpha^(u+h) (1-alpha)^(m-u-h)] E[pi_0^u (1-pi_0)^h], zero when padded. */
  function CaseWeight(prior: Prior, data: Data, budget: nat, h: nat): real
    requires prior.Valid(budget) && data.Valid(budget)
  {
    var d := OracleConcentrations(prior, data, budget);
    LaterPositive(prior, data, budget);
    if h > data.Failures() then
      0.0
    else
      Choose(data.Failures(), h) as real
      * BetaMoment(prior.a, prior.b, data.successes + h, DiscoveryFailures(data, h))
      * BetaMoment(d[0], Total(d[1..]), data.successes, h)
  }

  lemma LaterPositive(prior: Prior, data: Data, budget: nat)
    requires prior.Valid(budget) && data.Valid(budget)
    ensures var d := OracleConcentrations(prior, data, budget);
      |d| == budget + 1 && NonnegativeShapes(d) && d[0] > 0.0 && NonnegativeShapes(d[1..]) && Total(d[1..]) > 0.0
    ensures NonnegativeShapes(prior.concentrations[1..]) && Total(prior.concentrations[1..]) > 0.0
    ensures OracleConcentrations(prior, data, budget)[1..] == Observe(prior.concentrations[1..], data.counts[1..])
  {
    var d, p := OracleConcentrations(prior, data, budget), prior.concentrations;
    var j :| 1 <= j <= budget && p[j] > 0.0;
    TotalNonnegative(p[1..]);
    TotalNonnegative(d[1..]);
    assert p[1..][j - 1] == p[j] && d[1..][j - 1] == d[j];
  }

  function WeightSum(prior: Prior, data: Data, budget: nat, cases: nat): real
    requires prior.Valid(budget) && data.Valid(budget)
  {
    if cases == 0 then 0.0
    else WeightSum(prior, data, budget, cases - 1) + CaseWeight(prior, data, budget, cases - 1)
  }

  /** The product over supported categories only, as the evidence computes it. */
  function SupportedProduct(d: seq<real>, c: seq<nat>): real
    requires |d| == |c|
  {
    if d == [] then 1.0
    else (if d[0] > 0.0 then Poch(d[0], c[0]) else 1.0) * SupportedProduct(d[1..], c[1..])
  }

  function OracleEvidence(prior: Prior, data: Data, budget: nat): real
    requires prior.Valid(budget) && data.Valid(budget)
  {
    PriorTotal(prior, budget);
    PochPositive(Total(prior.concentrations), Count(data.counts));
    SupportedProduct(prior.concentrations, data.counts) / Poch(Total(prior.concentrations), Count(data.counts))
  }

  lemma PriorTotal(prior: Prior, budget: nat)
    requires prior.Valid(budget)
    ensures Total(prior.concentrations) > 0.0
  {
    TotalNonnegative(prior.concentrations);
  }

  /** The posterior with `cases` columns: at least one for every possible h, more when padded. */
  function CalculatePosterior(prior: Prior, data: Data, budget: nat, cases: nat): (post: Posterior)
    requires prior.Valid(budget) && data.Valid(budget) && cases > data.Failures()
    ensures post.Valid(budget) && |post.caseProbabilities| == cases
  {
    LaterPositive(prior, data, budget);
    WeightsPositive(prior, data, budget, cases);
    var d := OracleConcentrations(prior, data, budget);
    var total := WeightSum(prior, data, budget, cases);
    Posterior(
      OracleEvidence(prior, data, budget) * total,
      seq(cases, h requires 0 <= h < cases => CaseWeight(prior, data, budget, h) / total),
      seq(cases, h requires 0 <= h < cases => prior.a + (data.successes + h) as real),
      seq(cases, h requires 0 <= h < cases => prior.b + DiscoveryFailures(data, h) as real),
      d[0] + data.successes as real,
      seq(cases, h requires 0 <= h < cases => Total(d[1..]) + h as real),
      d[1..])
  }

  lemma {:induction false} BetaPositive(a: real, b: real, s: nat, f: nat)
    requires a > 0.0 && b > 0.0
    ensures BetaMoment(a, b, s, f) > 0.0
  {
    PochPositive(a, s);
    PochPositive(b, f);
    PochPositive(a + b, s + f);
    PositiveRatio(Poch(a, s), Poch(b, f), Poch(a + b, s + f));
  }

  lemma PositiveRatio(x: real, y: real, z: real)
    requires x > 0.0 && y > 0.0 && z > 0.0
    ensures x * y / z > 0.0
  {
    assert x * y > 0.0;
    var r := x * y / z;
    assert r * z == x * y;
    Cancel(0.0, r, z);
  }

  lemma WeightPositive(prior: Prior, data: Data, budget: nat, h: nat)
    requires prior.Valid(budget) && data.Valid(budget)
    ensures CaseWeight(prior, data, budget, h) >= 0.0
    ensures CaseWeight(prior, data, budget, h) > 0.0 <==> h <= data.Failures()
  {
    hide BetaMoment;
    LaterPositive(prior, data, budget);
    var d := OracleConcentrations(prior, data, budget);
    if h <= data.Failures() {
      ChoosePositive(data.Failures(), h);
      BetaPositive(prior.a, prior.b, data.successes + h, DiscoveryFailures(data, h));
      BetaPositive(d[0], Total(d[1..]), data.successes, h);
      PositiveTriple(Choose(data.Failures(), h) as real,
                     BetaMoment(prior.a, prior.b, data.successes + h, DiscoveryFailures(data, h)),
                     BetaMoment(d[0], Total(d[1..]), data.successes, h));
    }
  }

  lemma PositiveTriple(x: real, y: real, z: real)
    requires x > 0.0 && y > 0.0 && z > 0.0
    ensures x * y * z > 0.0
  {
    assert x * y > 0.0;
  }

  lemma {:induction false} WeightsPositive(prior: Prior, data: Data, budget: nat, cases: nat)
    requires prior.Valid(budget) && data.Valid(budget)
    ensures WeightSum(prior, data, budget, cases) >= 0.0
    ensures cases > 0 ==> WeightSum(prior, data, budget, cases) > 0.0
  {
    hide CaseWeight;
    if cases > 0 {
      WeightsPositive(prior, data, budget, cases - 1);
      WeightPositive(prior, data, budget, cases - 1);
    }
  }

  // ----- expectations under one case

  function LaterCounts(blocks: multiset<nat>, budget: nat): (r: seq<nat>)
    ensures |r| == budget && forall j :: 0 <= j < budget ==> r[j] == blocks[j + 1]
  {
    seq(budget, j requires 0 <= j < budget => blocks[j + 1])
  }

  /** E[pi_0^(r_0) (1-pi_0)^(r-r_0)] times E[the later shares], given the shapes of one case. */
  function ExecutionMoment(firstA: real, firstB: real, later: seq<real>, blocks: multiset<nat>): real
    requires firstA > 0.0 && firstB > 0.0 && Total(later) > 0.0
  {
    BetaMoment(firstA, firstB, blocks[0], Count(LaterCounts(blocks, |later|)))
    * DirichletMoment(later, LaterCounts(blocks, |later|))
  }

  /** A moment of alpha times a moment of the execution shares, given the shapes of one case. */
  function JointMoment(a: real, b: real, firstA: real, firstB: real, later: seq<real>): Functional
    requires a > 0.0 && b > 0.0 && firstA > 0.0 && firstB > 0.0 && Total(later) > 0.0
  {
    (m: Monomial) => BetaMoment(a, b, m.s, m.f) * ExecutionMoment(firstA, firstB, later, m.blocks)
  }

  function CaseExpectation(post: Posterior, budget: nat, h: nat): Functional
    requires post.Valid(budget) && h < |post.caseProbabilities|
  {
    JointMoment(post.discoveryA[h], post.discoveryB[h], post.firstA, post.firstB[h], post.later)
  }

  /** E[product_i pi_(blocks[i])] for a list of blocks. */
  function ExpectedExecutionProduct(post: Posterior, budget: nat, h: nat, blocks: seq<nat>): real
    requires post.Valid(budget) && h < |post.caseProbabilities|
    requires forall i :: 0 <= i < |blocks| ==> blocks[i] <= budget
  {
    var firstCount := multiset(blocks)[0];
    BlockCounts(blocks, budget);
    BetaMoment(post.firstA, post.firstB[h], firstCount, |blocks| - firstCount)
    * DirichletMoment(post.later, LaterCounts(multiset(blocks), budget))
  }

  lemma {:induction false} BlockCounts(blocks: seq<nat>, budget: nat)
    requires forall i :: 0 <= i < |blocks| ==> blocks[i] <= budget
    ensures multiset(blocks)[0] + Count(LaterCounts(multiset(blocks), budget)) == |blocks|
  {
    if blocks == [] {
      NoCounts(budget);
    } else {
      var b, rest := blocks[0], multiset(blocks[1..]);
      BlockCounts(blocks[1..], budget);
      assert blocks == [b] + blocks[1..];
      assert multiset(blocks) == multiset{b} + rest;
      LaterCountsBump(rest, b, budget);
    }
  }

  lemma {:induction false} NoCounts(budget: nat)
    ensures Count(LaterCounts(multiset{}, budget)) == 0
  {
    if budget > 0 {
      NoCounts(budget - 1);
      assert LaterCounts(multiset{}, budget)[1..] == LaterCounts(multiset{}, budget - 1);
    }
  }

  lemma LaterCountsBump(blocks: multiset<nat>, b: nat, budget: nat)
    requires b <= budget
    ensures b == 0 ==> LaterCounts(multiset{b} + blocks, budget) == LaterCounts(blocks, budget)
    ensures b > 0 ==> LaterCounts(multiset{b} + blocks, budget) == Bump(LaterCounts(blocks, budget), b - 1)
    ensures b > 0 ==> Count(LaterCounts(multiset{b} + blocks, budget)) == Count(LaterCounts(blocks, budget)) + 1
  {
    if b > 0 { CountBump(LaterCounts(blocks, budget), b - 1); }
  }

  // ----- the case expectations obey total probability

  lemma ExecutionNonnegative(firstA: real, firstB: real, later: seq<real>, blocks: multiset<nat>)
    requires firstA > 0.0 && firstB > 0.0 && Total(later) > 0.0 && NonnegativeShapes(later)
    ensures ExecutionMoment(firstA, firstB, later, blocks) >= 0.0
  {
    hide BetaMoment, DirichletMoment;
    var r := LaterCounts(blocks, |later|);
    BetaNonnegative(firstA, firstB, blocks[0], Count(r));
    DirichletNonnegative(later, r);
    NonnegativeProduct(BetaMoment(firstA, firstB, blocks[0], Count(r)), DirichletMoment(later, r));
  }

  lemma {:induction false} ActLater(e: Functional, g: nat -> real, n: nat, m: Monomial, from: nat)
    requires from <= n
    requires forall j: nat | j < n :: e(m.Times(Block(j + 1))) == g(j)
    ensures Sum(from, g) + Act(e, Blocks(from + 1, n + 1), m) == Sum(n, g)
    decreases n - from
  {
    hide Act, Block;
    if from < n {
      ActLater(e, g, n, m, from + 1);
      BlocksUnfold(e, from + 1, n + 1, m);
      assert e(m.Times(Block(from + 1))) == g(from);
    } else {
      BlocksDone(e, n + 1, m);
    }
  }

  lemma BlocksDone(e: Functional, lo: nat, m: Monomial)
    ensures Act(e, Blocks(lo, lo), m) == 0.0
  {
  }

  lemma BlocksUnfold(e: Functional, lo: nat, hi: nat, m: Monomial)
    requires lo < hi
    ensures Act(e, Blocks(lo, hi), m) == e(m.Times(Block(lo))) + Act(e, Blocks(lo + 1, hi), m)
  {
  }

  /** Each case's product of Beta and Dirichlet moments is an expectation: alpha and 1-alpha share
      the probability of every monomial, and so do the execution categories. */
  lemma JointConsistent(a: real, b: real, firstA: real, firstB: real, later: seq<real>)
    requires a > 0.0 && b > 0.0 && firstA > 0.0 && firstB > 0.0 && Total(later) > 0.0 && NonnegativeShapes(later)
    ensures Consistent(JointMoment(a, b, firstA, firstB, later), |later| + 1)
    ensures Nonnegative(JointMoment(a, b, firstA, firstB, later))
    ensures JointMoment(a, b, firstA, firstB, later)(UNIT) == 1.0
  {
    hide BetaMoment, ExecutionMoment, Act;
    var e := JointMoment(a, b, firstA, firstB, later);
    forall m: Monomial
      ensures e(m) == e(m.Times(DISCOVERY)) + e(m.Times(NO_DISCOVERY))
      ensures e(m) == Act(e, Blocks(0, |later| + 1), m)
      ensures e(m) >= 0.0
    {
      JointDiscovery(a, b, firstA, firstB, later, m);
      JointExecution(a, b, firstA, firstB, later, m);
      BetaNonnegative(a, b, m.s, m.f);
      ExecutionNonnegative(firstA, firstB, later, m.blocks);
      NonnegativeProduct(BetaMoment(a, b, m.s, m.f), ExecutionMoment(firstA, firstB, later, m.blocks));
    }
    JointUnit(a, b, firstA, firstB, later);
  }

  lemma JointDiscovery(a: real, b: real, firstA: real, firstB: real, later: seq<real>, m: Monomial)
    requires a > 0.0 && b > 0.0 && firstA > 0.0 && firstB > 0.0 && Total(later) > 0.0
    ensures var e := JointMoment(a, b, firstA, firstB, later);
      e(m) == e(m.Times(DISCOVERY)) + e(m.Times(NO_DISCOVERY))
  {
    hide BetaMoment, ExecutionMoment;
    TimesSingle(m);
    BetaTotal(a, b, m.s, m.f);
    Split(BetaMoment(a, b, m.s, m.f), BetaMoment(a, b, m.s + 1, m.f), BetaMoment(a, b, m.s, m.f + 1),
          ExecutionMoment(firstA, firstB, later, m.blocks));
  }

  lemma Split(x: real, y: real, z: real, w: real)
    requires x == y + z
    ensures x * w == y * w + z * w
  {
  }

  lemma JointUnit(a: real, b: real, firstA: real, firstB: real, later: seq<real>)
    requires a > 0.0 && b > 0.0 && firstA > 0.0 && firstB > 0.0 && Total(later) > 0.0
    ensures JointMoment(a, b, firstA, firstB, later)(UNIT) == 1.0
  {
    hide BetaMoment;
    NoCounts(|later|);
    BetaEmpty(a, b);
    BetaEmpty(firstA, firstB);
    DirichletEmpty(later);
  }

  lemma {:induction false} PochProductEmpty(d: seq<real>, r: seq<nat>)
    requires |d| == |r| && forall j :: 0 <= j < |r| ==> r[j] == 0
    ensures PochProduct(d, r) == 1.0 && Count(r) == 0
  {
    if d != [] { PochProductEmpty(d[1..], r[1..]); }
  }

  lemma DirichletEmpty(later: seq<real>)
    requires Total(later) > 0.0
    ensures DirichletMoment(later, LaterCounts(multiset{}, |later|)) == 1.0
  {
    PochProductEmpty(later, LaterCounts(multiset{}, |later|));
  }

  lemma JointExecution(a: real, b: real, firstA: real, firstB: real, later: seq<real>, m: Monomial)
    requires a > 0.0 && b > 0.0 && firstA > 0.0 && firstB > 0.0 && Total(later) > 0.0
    ensures var e := JointMoment(a, b, firstA, firstB, later);
      e(m) == Act(e, Blocks(0, |later| + 1), m)
  {
    hide BetaMoment, DirichletMoment, Act, LaterCounts, JointMoment, Total, Count;
    var e := JointMoment(a, b, firstA, firstB, later);
    var r := LaterCounts(m.blocks, |later|);
    BlocksUnfold(e, 0, |later| + 1, m);
    var k := BetaMoment(a, b, m.s, m.f) * BetaMoment(firstA, firstB, m.blocks[0], Count(r) + 1);
    LaterBlocks(a, b, firstA, firstB, later, m, k);
    FirstBlock(a, b, firstA, firstB, later, m);
    JointAt(a, b, firstA, firstB, later, m);
    BetaTotal(firstA, firstB, m.blocks[0], Count(r));
    ExecutionAlgebra(BetaMoment(a, b, m.s, m.f), BetaMoment(firstA, firstB, m.blocks[0], Count(r)),
      BetaMoment(firstA, firstB, m.blocks[0], Count(r) + 1), BetaMoment(firstA, firstB, m.blocks[0] + 1, Count(r)),
      DirichletMoment(later, r), k, e(m), e(m.Times(Block(0))), Act(e, Blocks(1, |later| + 1), m));
  }

  lemma LaterBlocks(a: real, b: real, firstA: real, firstB: real, later: seq<real>, m: Monomial, k: real)
    requires a > 0.0 && b > 0.0 && firstA > 0.0 && firstB > 0.0 && Total(later) > 0.0
    requires k == BetaMoment(a, b, m.s, m.f)
                * BetaMoment(firstA, firstB, m.blocks[0], Count(LaterCounts(m.blocks, |later|)) + 1)
    ensures Act(JointMoment(a, b, firstA, firstB, later), Blocks(1, |later| + 1), m)
         == k * DirichletMoment(later, LaterCounts(m.blocks, |later|))
  {
    hide BetaMoment, DirichletMoment, DirichletBump, Act, Bump;
    hide LaterCounts, JointMoment, Total, Count, Monomial.Times, Block;
    var e := JointMoment(a, b, firstA, firstB, later);
    var r := LaterCounts(m.blocks, |later|);
    var share := (j: nat) => DirichletBump(later, r, j);
    var g := (j: nat) => k * share(j);
    forall j: nat | j < |later| ensures e(m.Times(Block(j + 1))) == g(j) {
      LaterBlock(a, b, firstA, firstB, later, m, j, k);
    }
    ActLater(e, g, |later|, m, 0);
    SumScale(|later|, k, share);
    DirichletTotal(later, r);
  }

  lemma JointAt(a: real, b: real, firstA: real, firstB: real, later: seq<real>, m: Monomial)
    requires a > 0.0 && b > 0.0 && firstA > 0.0 && firstB > 0.0 && Total(later) > 0.0
    ensures JointMoment(a, b, firstA, firstB, later)(m)
         == BetaMoment(a, b, m.s, m.f)
          * (BetaMoment(firstA, firstB, m.blocks[0], Count(LaterCounts(m.blocks, |later|)))
             * DirichletMoment(later, LaterCounts(m.blocks, |later|)))
  {
    hide BetaMoment, DirichletMoment;
  }

  lemma LaterBlock(a: real, b: real, firstA: real, firstB: real, later: seq<real>, m: Monomial, j: nat, k: real)
    requires a > 0.0 && b > 0.0 && firstA > 0.0 && firstB > 0.0 && Total(later) > 0.0 && j < |later|
    requires k == BetaMoment(a, b, m.s, m.f)
                * BetaMoment(firstA, firstB, m.blocks[0], Count(LaterCounts(m.blocks, |later|)) + 1)
    ensures JointMoment(a, b, firstA, firstB, later)(m.Times(Block(j + 1)))
         == k * DirichletBump(later, LaterCounts(m.blocks, |later|), j)
  {
    hide BetaMoment, DirichletMoment, Total, JointMoment, Count, Monomial.Times, Block;
    TimesSingle(m);
    LaterCountsBump(m.blocks, j + 1, |later|);
    var m' := Monomial(m.s, m.f, multiset{j + 1} + m.blocks);
    assert m.Times(Block(j + 1)) == m' && m'.blocks[0] == m.blocks[0];
    JointAt(a, b, firstA, firstB, later, m');
    var r := LaterCounts(m.blocks, |later|);
    Associate(BetaMoment(a, b, m.s, m.f), BetaMoment(firstA, firstB, m.blocks[0], Count(r) + 1),
              DirichletBump(later, r, j), k);
  }

  lemma Associate(x: real, y: real, z: real, k: real)
    requires k == x * y
    ensures k * z == x * (y * z)
  {
  }

  lemma FirstBlock(a: real, b: real, firstA: real, firstB: real, later: seq<real>, m: Monomial)
    requires a > 0.0 && b > 0.0 && firstA > 0.0 && firstB > 0.0 && Total(later) > 0.0
    ensures var r := LaterCounts(m.blocks, |later|);
      JointMoment(a, b, firstA, firstB, later)(m.Times(Block(0)))
      == BetaMoment(a, b, m.s, m.f)
       * (BetaMoment(firstA, firstB, m.blocks[0] + 1, Count(r)) * DirichletMoment(later, r))
  {
    hide BetaMoment, DirichletMoment;
    TimesSingle(m);
    LaterCountsBump(m.blocks, 0, |later|);
  }

  lemma ExecutionAlgebra(c: real, x: real, p: real, q: real, d: real, k: real, all: real, first: real, later: real)
    requires x == q + p && k == c * p && all == c * (x * d) && first == c * (q * d) && later == k * d
    ensures all == first + later
  {
  }

  lemma CaseConsistent(post: Posterior, budget: nat, h: nat)
    requires post.Valid(budget) && h < |post.caseProbabilities|
    ensures Consistent(CaseExpectation(post, budget, h), budget + 1)
    ensures Nonnegative(CaseExpectation(post, budget, h))
    ensures CaseExpectation(post, budget, h)(UNIT) == 1.0
  {
    JointConsistent(post.discoveryA[h], post.discoveryB[h], post.firstA, post.firstB[h], post.later);
  }

  // ----- the prediction

  function SumFailures(paths: seq<Path>): nat {
    if paths == [] then 0 else paths[0].failures + SumFailures(paths[1..])
  }

  function ExecutionBlocks(paths: seq<Path>): (blocks: seq<nat>)
    ensures |blocks| == |paths| && forall i :: 0 <= i < |paths| ==> blocks[i] == paths[i].block
  {
    if paths == [] then [] else [paths[0].block] + ExecutionBlocks(paths[1..])
  }

  lemma {:induction false} SelectionMonomial(paths: seq<Path>)
    ensures Product(Terms(paths)) == Monomial(|paths|, SumFailures(paths), multiset(ExecutionBlocks(paths)))
  {
    if paths != [] { SelectionMonomial(paths[1..]); }
  }

  /** What one ordered selection contributes in case h: an alpha moment with one factor per path and
      (1-alpha) per discovery failure, times the moment of the execution blocks. */
  function SelectionMoment(post: Posterior, budget: nat, h: nat, paths: seq<Path>): real
    requires post.Valid(budget) && h < |post.caseProbabilities|
    requires forall p :: p in paths ==> p.block <= budget
  {
    BetaMoment(post.discoveryA[h], post.discoveryB[h], |paths|, SumFailures(paths))
    * ExpectedExecutionProduct(post, budget, h, ExecutionBlocks(paths))
  }

  lemma ExecutionProductIsMoment(post: Posterior, budget: nat, h: nat, blocks: seq<nat>)
    requires post.Valid(budget) && h < |post.caseProbabilities|
    requires forall i :: 0 <= i < |blocks| ==> blocks[i] <= budget
    ensures ExpectedExecutionProduct(post, budget, h, blocks)
         == ExecutionMoment(post.firstA, post.firstB[h], post.later, multiset(blocks))
  {
    hide BetaMoment, DirichletMoment, Count;
    BlockCounts(blocks, budget);
  }

  lemma SelectionMomentIsExpectation(post: Posterior, budget: nat, h: nat, paths: seq<Path>)
    requires post.Valid(budget) && h < |post.caseProbabilities|
    requires forall p :: p in paths ==> p.block <= budget
    ensures SelectionMoment(post, budget, h, paths)
         == CaseExpectation(post, budget, h)(UNIT.Times(Product(Terms(paths))))
  {
    hide BetaMoment, ExecutionMoment, ExpectedExecutionProduct, Product, Terms, Monomial.Times,
         CaseExpectation;
    var blocks := ExecutionBlocks(paths);
    var m := Monomial(|paths|, SumFailures(paths), multiset(blocks));
    SelectionMonomial(paths);
    TimesLaws(m, UNIT, UNIT);
    CaseValue(post, budget, h, m);
    ExecutionProductIsMoment(post, budget, h, blocks);
    SameProduct(BetaMoment(post.discoveryA[h], post.discoveryB[h], |paths|, SumFailures(paths)),
                ExpectedExecutionProduct(post, budget, h, blocks),
                ExecutionMoment(post.firstA, post.firstB[h], post.later, m.blocks));
  }

  lemma SameProduct(x: real, y: real, z: real)
    requires y == z
    ensures x * y == x * z
  {
  }

  lemma CaseValue(post: Posterior, budget: nat, h: nat, m: Monomial)
    requires post.Valid(budget) && h < |post.caseProbabilities|
    ensures CaseExpectation(post, budget, h)(m)
         == BetaMoment(post.discoveryA[h], post.discoveryB[h], m.s, m.f)
          * ExecutionMoment(post.firstA, post.firstB[h], post.later, m.blocks)
  {
    hide BetaMoment, ExecutionMoment;
  }

  /** E[s_k^power | h, D] for every case, accumulated over all ordered selections of paths. */
  method ExpectedSuccessPower(post: Posterior, budget: nat, k: nat, power: nat) returns (expected: seq<real>)
    requires post.Valid(budget) && k <= budget
    ensures |expected| == |post.caseProbabilities|
    ensures forall h :: 0 <= h < |expected| ==>
      expected[h] == Power(CaseExpectation(post, budget, h), Terms(SuccessPaths(k)), power)(UNIT)
  {
    hide SelectionMoment, CaseExpectation, Power, Posterior.Valid;
    var cases := |post.caseProbabilities|;
    var selections := Selections(SuccessPaths(k), power);
    expected := seq(cases, _ => 0.0);
    for i := 0 to |selections|
      invariant |expected| == cases
      invariant forall h :: 0 <= h < cases ==>
        expected[h] == SelectionSum(CaseExpectation(post, budget, h), selections[..i], UNIT)
    {
      SelectionBlocks(k, power, budget, selections[i]);
      var previous := expected;
      expected := seq(cases, h requires 0 <= h < cases =>
        previous[h] + SelectionMoment(post, budget, h, selections[i]));
      forall h | 0 <= h < cases
        ensures expected[h] == SelectionSum(CaseExpectation(post, budget, h), selections[..i + 1], UNIT)
      {
        SelectionMomentIsExpectation(post, budget, h, selections[i]);
        SelectionNext(CaseExpectation(post, budget, h), selections, i);
      }
    }
    forall h | 0 <= h < cases
      ensures expected[h] == Power(CaseExpectation(post, budget, h), Terms(SuccessPaths(k)), power)(UNIT)
    {
      assert selections[..|selections|] == selections;
      SelectionsArePower(CaseExpectation(post, budget, h), SuccessPaths(k), power, UNIT);
    }
  }

  lemma SelectionBlocks(k: nat, power: nat, budget: nat, selection: seq<Path>)
    requires k <= budget && selection in Selections(SuccessPaths(k), power)
    ensures forall p :: p in selection ==> p.block <= budget
  {
    SelectionsMembers(SuccessPaths(k), power);
    SuccessPathsExact(k);
  }

  lemma SelectionNext(e: Functional, selections: seq<seq<Path>>, i: nat)
    requires i < |selections|
    ensures SelectionSum(e, selections[..i + 1], UNIT)
         == SelectionSum(e, selections[..i], UNIT) + e(UNIT.Times(Product(Terms(selections[i]))))
  {
    assert selections[..i + 1] == selections[..i] + [selections[i]];
    SelectionAppend(e, selections[..i], [selections[i]], UNIT);
    assert SelectionSum(e, [selections[i]], UNIT)
        == e(UNIT.Times(Product(Terms(selections[i])))) + SelectionSum(e, [], UNIT);
  }

  /** E[1-(1-s_k)^n | h, D] for every case, by the binomial expansion. */
  method ConditionalSuccessProbability(post: Posterior, budget: nat, n: nat, k: nat) returns (success: seq<real>)
    requires post.Valid(budget) && k <= budget
    ensures |success| == |post.caseProbabilities|
    ensures forall h :: 0 <= h < |success| ==> success[h] == AnySuccess(CaseExpectation(post, budget, h), n, k)
  {
    hide CaseExpectation, Power, AlternatingSum, SuccessPaths, Posterior.Valid;
    var cases := |post.caseProbabilities|;
    success := seq(cases, _ => 0.0);
    forall h | 0 <= h < cases ensures 0.0 == ExpandedSuccess(CaseExpectation(post, budget, h), n, k, 1) {
      ExpandedStart(CaseExpectation(post, budget, h), n, k);
    }
    for power := 1 to n + 1
      invariant |success| == cases
      invariant forall h :: 0 <= h < cases ==>
        success[h] == ExpandedSuccess(CaseExpectation(post, budget, h), n, k, power)
    {
      var expectedPower := ExpectedSuccessPower(post, budget, k, power);
      var sign := if (power + 1) % 2 == 0 then 1.0 else -1.0;
      var coefficient := sign * Choose(n, power) as real;
      var previous := success;
      success := seq(cases, h requires 0 <= h < cases => previous[h] + coefficient * expectedPower[h]);
      forall h | 0 <= h < cases
        ensures success[h] == ExpandedSuccess(CaseExpectation(post, budget, h), n, k, power + 1)
      {
        ExpandedNext(CaseExpectation(post, budget, h), n, k, power, coefficient, expectedPower[h]);
      }
    }
  }

  /** The expansion after the powers below `power`. */
  function ExpandedSuccess(e: Functional, n: nat, k: nat, power: nat): real {
    e(UNIT) - AlternatingSum(e, Terms(SuccessPaths(k)), n, power)(UNIT)
  }

  lemma ExpandedStart(e: Functional, n: nat, k: nat)
    ensures ExpandedSuccess(e, n, k, 1) == 0.0
  {
    hide AlternatingSum, Power, SuccessPaths;
    var terms := Terms(SuccessPaths(k));
    AlternatingUnfold(e, terms, n, 1, UNIT);
    AlternatingEmpty(e, terms, n, UNIT);
    PowerUnfold(e, terms, 0, UNIT);
    assert AlternatingCoefficient(n, 0) == 1.0;
  }

  lemma ExpandedNext(e: Functional, n: nat, k: nat, power: nat, coefficient: real, expected: real)
    requires expected == Power(e, Terms(SuccessPaths(k)), power)(UNIT)
    requires coefficient == (if (power + 1) % 2 == 0 then 1.0 else -1.0) * Choose(n, power) as real
    ensures ExpandedSuccess(e, n, k, power) + coefficient * expected == ExpandedSuccess(e, n, k, power + 1)
  {
    hide AlternatingSum, Power, SuccessPaths, Choose;
    AlternatingUnfold(e, Terms(SuccessPaths(k)), n, power + 1, UNIT);
    assert coefficient == -AlternatingCoefficient(n, power);
  }

  /** sum_h x_h y_h over the first `cases` entries. */
  function Dot(x: seq<real>, y: seq<real>, cases: nat): real
    requires cases <= |x| && cases <= |y|
  {
    if cases == 0 then 0.0 else Dot(x, y, cases - 1) + x[cases - 1] * y[cases - 1]
  }

  /** sum_h Pr(h | D) E[1-(1-s_k)^n | h, D]. */
  function MixtureSuccess(post: Posterior, budget: nat, n: nat, k: nat, cases: nat): real
    requires post.Valid(budget) && cases <= |post.caseProbabilities|
  {
    if cases == 0 then
      0.0
    else
      MixtureSuccess(post, budget, n, k, cases - 1)
      + post.caseProbabilities[cases - 1] * AnySuccess(CaseExpectation(post, budget, cases - 1), n, k)
  }

  lemma {:induction false} DotIsMixture(post: Posterior, budget: nat, n: nat, k: nat, success: seq<real>, cases: nat)
    requires post.Valid(budget) && cases <= |post.caseProbabilities| == |success|
    requires forall h :: 0 <= h < |success| ==> success[h] == AnySuccess(CaseExpectation(post, budget, h), n, k)
    ensures Dot(post.caseProbabilities, success, cases) == MixtureSuccess(post, budget, n, k, cases)
  {
    hide AnySuccess, CaseExpectation, Posterior.Valid;
    if cases > 0 { DotIsMixture(post, budget, n, k, success, cases - 1); }
  }

  method SuccessProbability(prior: Prior, data: Data, budget: nat, n: nat, k: nat) returns (probability: real)
    requires prior.Valid(budget) && data.Valid(budget) && k <= budget
    ensures probability == PredictedSuccess(prior, data, budget, n, k)
  {
    var post := CalculatePosterior(prior, data, budget, data.Failures() + 1);
    var success := ConditionalSuccessProbability(post, budget, n, k);
    probability := Dot(post.caseProbabilities, success, |success|);
    DotIsMixture(post, budget, n, k, success, |success|);
  }

  function PredictedSuccess(prior: Prior, data: Data, budget: nat, n: nat, k: nat): real
    requires prior.Valid(budget) && data.Valid(budget) && k <= budget
  {
    var cases := data.Failures() + 1;
    MixtureSuccess(CalculatePosterior(prior, data, budget, cases), budget, n, k, cases)
  }

  // ----- case probabilities

  function TotalProbability(post: Posterior, cases: nat): real
    requires cases <= |post.caseProbabilities|
  {
    if cases == 0 then 0.0 else TotalProbability(post, cases - 1) + post.caseProbabilities[cases - 1]
  }

  lemma {:induction false} ProbabilitiesPartial(prior: Prior, data: Data, budget: nat, cases: nat, upto: nat)
    requires prior.Valid(budget) && data.Valid(budget) && cases > data.Failures() && upto <= cases
    ensures WeightSum(prior, data, budget, cases) > 0.0
    ensures TotalProbability(CalculatePosterior(prior, data, budget, cases), upto)
         == WeightSum(prior, data, budget, upto) / WeightSum(prior, data, budget, cases)
  {
    hide CaseWeight;
    WeightsPositive(prior, data, budget, cases);
    var total := WeightSum(prior, data, budget, cases);
    if upto > 0 {
      ProbabilitiesPartial(prior, data, budget, cases, upto - 1);
      QuotientSum(WeightSum(prior, data, budget, upto - 1), CaseWeight(prior, data, budget, upto - 1), total);
    } else {
      assert 0.0 / total == 0.0;
    }
  }

  lemma {:induction false} PaddingAddsNothing(prior: Prior, data: Data, budget: nat, cases: nat)
    requires prior.Valid(budget) && data.Valid(budget) && cases > data.Failures()
    ensures WeightSum(prior, data, budget, cases) == WeightSum(prior, data, budget, data.Failures() + 1)
    decreases cases
  {
    hide CaseWeight;
    if cases > data.Failures() + 1 {
      PaddingAddsNothing(prior, data, budget, cases - 1);
      WeightPositive(prior, data, budget, cases - 1);
    }
  }

  /** The case probabilities are a distribution with support exactly 0..m-u: padded columns carry no
      probability and leave the others, and the evidence, as they are without padding. */
  lemma CaseProbabilities(prior: Prior, data: Data, budget: nat, cases: nat)
    requires prior.Valid(budget) && data.Valid(budget) && cases > data.Failures()
    ensures var post := CalculatePosterior(prior, data, budget, cases);
            var tight := CalculatePosterior(prior, data, budget, data.Failures() + 1);
      && TotalProbability(post, cases) == 1.0
      && post.evidence == tight.evidence
      && (forall h :: 0 <= h < cases ==> post.caseProbabilities[h] >= 0.0)
      && (forall h :: 0 <= h < cases ==> (post.caseProbabilities[h] > 0.0 <==> h <= data.Failures()))
      && (forall h :: 0 <= h <= data.Failures() ==> post.caseProbabilities[h] == tight.caseProbabilities[h])
  {
    hide CaseWeight;
    ProbabilitiesPartial(prior, data, budget, cases, cases);
    PaddingAddsNothing(prior, data, budget, cases);
    var total := WeightSum(prior, data, budget, cases);
    QuotientSum(total, 0.0, total);
    forall h: nat | h < cases
      ensures CaseWeight(prior, data, budget, h) / total >= 0.0
      ensures CaseWeight(prior, data, budget, h) / total > 0.0 <==> h <= data.Failures()
    {
      WeightPositive(prior, data, budget, h);
      SignOfQuotient(CaseWeight(prior, data, budget, h), total);
    }
  }

  lemma SignOfQuotient(x: real, y: real)
    requires x >= 0.0 && y > 0.0
    ensures x / y >= 0.0
    ensures x / y > 0.0 <==> x > 0.0
  {
    var r := x / y;
    assert r * y == x;
    Cancel(0.0, r, y);
    Cancel(r, 0.0, y);
  }

  // ----- the prediction is a probability

  lemma {:induction false} MixtureBounds(post: Posterior, budget: nat, n: nat, n': nat, k: nat, k': nat, cases: nat)
    requires post.Valid(budget) && cases <= |post.caseProbabilities| && n <= n' && k <= k' <= budget
    requires forall h :: 0 <= h < cases ==> post.caseProbabilities[h] >= 0.0
    ensures 0.0 <= MixtureSuccess(post, budget, n, k, cases) <= MixtureSuccess(post, budget, n', k', cases)
                <= TotalProbability(post, cases)
  {
    hide AnySuccess, CaseExpectation, Posterior.Valid, Consistent, Expectations.Nonnegative;
    if cases > 0 {
      var h := cases - 1;
      MixtureBounds(post, budget, n, n', k, k', h);
      CaseConsistent(post, budget, h);
      var e, p := CaseExpectation(post, budget, h), post.caseProbabilities[h];
      AnySuccessIsProbability(e, n, n', k, k', budget + 1);
      MixtureStep(MixtureSuccess(post, budget, n, k, h), MixtureSuccess(post, budget, n', k', h),
                  TotalProbability(post, h), p, AnySuccess(e, n, k), AnySuccess(e, n', k'));
    }
  }

  lemma MixtureStep(a: real, b: real, t: real, p: real, x: real, y: real)
    requires 0.0 <= a <= b <= t && p >= 0.0 && 0.0 <= x <= y <= 1.0
    ensures 0.0 <= a + p * x <= b + p * y <= t + p
  {
    ScaleOrder(p, 0.0, x);
    ScaleOrder(p, x, y);
    ScaleOrder(p, y, 1.0);
  }

  /** The prediction lies in [0, 1] and never drops when an arm or a block is added, for every prior
      and every data: the validity check on predictions cannot fire in exact arithmetic. */
  lemma PredictionIsProbability(prior: Prior, data: Data, budget: nat, n: nat, n': nat, k: nat, k': nat)
    requires prior.Valid(budget) && data.Valid(budget) && n <= n' && k <= k' <= budget
    ensures 0.0 <= PredictedSuccess(prior, data, budget, n, k) <= PredictedSuccess(prior, data, budget, n', k') <= 1.0
  {
    hide MixtureSuccess;
    var cases := data.Failures() + 1;
    CaseProbabilities(prior, data, budget, cases);
    MixtureBounds(CalculatePosterior(prior, data, budget, cases), budget, n, n', k, k', cases);
  }
}

/** From measured problems to predictions: which categories the prior keeps, and what follows for
    every problem it was fitted to. The optimiser's positive shapes are an input. */
module PriorSupport {
  import opened Numbers
  import opened Moments
  import opened Expectations
  import opened Trajectories
  import opened Observations
  import opened RegularizedDiscoveryExecution
  import opened BayesPosterior
  import opened MeasuredLikelihood

  predicate AllObserved(problems: seq<Observation>, budget: nat) {
    forall i :: 0 <= i < |problems| ==> problems[i].Valid(budget)
  }

  /** How many oracle runs over all problems completed in category j. */
  function TotalCount(problems: seq<Observation>, budget: nat, j: nat): nat
    requires AllObserved(problems, budget) && j <= budget
  {
    if problems == [] then 0
    else TotalCount(problems[..|problems| - 1], budget, j) + OracleCounts(problems[|problems| - 1], budget)[j]
  }

  function HasObservations(problems: seq<Observation>, budget: nat): (has: seq<bool>)
    requires AllObserved(problems, budget)
    ensures |has| == budget + 1
  {
    seq(budget + 1, j requires 0 <= j <= budget => TotalCount(problems, budget, j) > 0)
  }

  function CountTrue(has: seq<bool>): nat {
    if has == [] then 0 else (if has[0] then 1 else 0) + CountTrue(has[1..])
  }

  /** The fit is refused unless some run completed in the first block and some did not. */
  predicate Accepted(problems: seq<Observation>, budget: nat)
    requires AllObserved(problems, budget)
  {
    var has := HasObservations(problems, budget);
    has[0] && CountTrue(has) >= 2
  }

  /** Places the shapes at the observed categories; excluded ones stay zero. */
  function Scatter(has: seq<bool>, shapes: seq<real>): seq<real>
    requires |shapes| == CountTrue(has)
  {
    if has == [] then []
    else if has[0] then [shapes[0]] + Scatter(has[1..], shapes[1..])
    else [0.0] + Scatter(has[1..], shapes)
  }

  function BuildPrior(a: real, b: real, shapes: seq<real>, has: seq<bool>): Prior
    requires |shapes| == CountTrue(has)
  {
    Prior(a, b, Scatter(has, shapes))
  }

  predicate AllPositive(shapes: seq<real>) {
    forall i :: 0 <= i < |shapes| ==> shapes[i] > 0.0
  }

  lemma {:induction false} ScatterSupport(has: seq<bool>, shapes: seq<real>)
    requires |shapes| == CountTrue(has) && AllPositive(shapes)
    ensures var d := Scatter(has, shapes);
      |d| == |has| && forall j :: 0 <= j < |has| ==> if has[j] then d[j] > 0.0 else d[j] == 0.0
  {
    if has != [] { ScatterSupport(has[1..], if has[0] then shapes[1..] else shapes); }
  }

  lemma {:induction false} SomeTrue(has: seq<bool>)
    ensures CountTrue(has) > 0 <==> exists j :: 0 <= j < |has| && has[j]
  {
    if has != [] {
      SomeTrue(has[1..]);
      if j :| 0 <= j < |has| && has[j] {
        if j > 0 { assert has[1..][j - 1]; }
      }
      if CountTrue(has[1..]) > 0 {
        var i :| 0 <= i < |has[1..]| && has[1..][i];
        assert has[i + 1];
      }
    }
  }

  lemma {:induction false} CountedIsTotalled(problems: seq<Observation>, budget: nat, i: nat, j: nat)
    requires AllObserved(problems, budget) && i < |problems| && j <= budget
    ensures OracleCounts(problems[i], budget)[j] <= TotalCount(problems, budget, j)
  {
    if i < |problems| - 1 { CountedIsTotalled(problems[..|problems| - 1], budget, i, j); }
  }

  /** A category is kept exactly when some problem had an oracle run in it. */
  lemma {:induction false} ObservedExactly(problems: seq<Observation>, budget: nat, j: nat)
    requires AllObserved(problems, budget) && j <= budget
    ensures HasObservations(problems, budget)[j] <==>
      exists i :: 0 <= i < |problems| && OracleCounts(problems[i], budget)[j] > 0
  {
    if problems != [] {
      var rest, last := problems[..|problems| - 1], problems[|problems| - 1];
      ObservedExactly(rest, budget, j);
      if i :| 0 <= i < |problems| && OracleCounts(problems[i], budget)[j] > 0 {
        CountedIsTotalled(problems, budget, i, j);
      }
      if TotalCount(problems, budget, j) > 0 && OracleCounts(last, budget)[j] == 0 {
        var i :| 0 <= i < |rest| && OracleCounts(rest[i], budget)[j] > 0;
        assert problems[i] == rest[i];
      }
    }
  }

  lemma {:induction false} ScatterAt(has: seq<bool>, shapes: seq<real>, j: nat)
    requires |shapes| == CountTrue(has) && j < |has| && has[j]
    ensures CountTrue(has[..j]) < |shapes| && |Scatter(has, shapes)| == |has|
    ensures Scatter(has, shapes)[j] == shapes[CountTrue(has[..j])]
  {
    ScatterLength(has, shapes);
    var rest := if has[0] then shapes[1..] else shapes;
    if j > 0 {
      ScatterAt(has[1..], rest, j - 1);
      assert has[..j][1..] == has[1..][..j - 1];
    }
  }

  lemma {:induction false} ScatterLength(has: seq<bool>, shapes: seq<real>)
    requires |shapes| == CountTrue(has)
    ensures |Scatter(has, shapes)| == |has| && Total(Scatter(has, shapes)) == Total(shapes)
  {
    if has != [] { ScatterLength(has[1..], if has[0] then shapes[1..] else shapes); }
  }

  lemma {:induction false} SinglePochProduct(d: seq<real>, r: seq<nat>, j: nat)
    requires |d| == |r| && j < |d| && forall i :: 0 <= i < |r| ==> r[i] == if i == j then 1 else 0
    ensures PochProduct(d, r) == d[j] && Count(r) == 1
  {
    hide Poch;
    PochOne(d[0]);
    PochEmpty(d[0]);
    if j == 0 {
      PochProductEmpty(d[1..], r[1..]);
    } else {
      SinglePochProduct(d[1..], r[1..], j - 1);
    }
  }

  /** The optimiser's values end up where they belong: discovery has prior mean a / (a + b), and the
      i-th shape is the concentration of the i-th category some run was observed in. */
  lemma PriorMeans(problems: seq<Observation>, budget: nat, a: real, b: real, shapes: seq<real>, j: nat)
    requires AllObserved(problems, budget) && a > 0.0 && b > 0.0 && AllPositive(shapes)
    requires |shapes| == CountTrue(HasObservations(problems, budget)) && Accepted(problems, budget) && j <= budget
    ensures var has := HasObservations(problems, budget); var prior := BuildPrior(a, b, shapes, has);
      && prior.Valid(budget) && Total(shapes) > 0.0
      && PriorExpectation(prior, budget)(DISCOVERY) == a / (a + b)
      && (has[j] ==> CountTrue(has[..j]) < |shapes| &&
                     PriorExpectation(prior, budget)(Block(j)) == shapes[CountTrue(has[..j])] / Total(shapes))
      && (!has[j] ==> PriorExpectation(prior, budget)(Block(j)) == 0.0)
  {
    hide BetaMoment, Poch, PochProduct, Scatter, Total, Count, Prior.Valid;
    var has := HasObservations(problems, budget);
    var prior := BuildPrior(a, b, shapes, has);
    var d := prior.concentrations;
    AcceptedExactly(problems, budget, a, b, shapes);
    ScatterSupport(has, shapes);
    ScatterLength(has, shapes);
    PriorTotal(prior, budget);
    BetaMean(a, b);
    BetaEmpty(a, b);
    PochProductEmpty(d, AllCounts(multiset{}, budget + 1));
    SinglePochProduct(d, AllCounts(multiset{j}, budget + 1), j);
    PochOne(Total(d));
    PochEmpty(Total(d));
    ZeroOver(Total(d));
    if has[j] { ScatterAt(has, shapes, j); }
  }

  lemma ZeroOver(x: real)
    requires x > 0.0
    ensures 0.0 / x == 0.0 && 1.0 / 1.0 == 1.0
  {
  }

  /** The guard is exact: for any positive shapes the prior has the shapes every expectation needs if
      and only if the fit was accepted. */
  lemma AcceptedExactly(problems: seq<Observation>, budget: nat, a: real, b: real, shapes: seq<real>)
    requires AllObserved(problems, budget) && a > 0.0 && b > 0.0 && AllPositive(shapes)
    requires |shapes| == CountTrue(HasObservations(problems, budget))
    ensures BuildPrior(a, b, shapes, HasObservations(problems, budget)).Valid(budget) <==> Accepted(problems, budget)
  {
    var has := HasObservations(problems, budget);
    var d := Scatter(has, shapes);
    ScatterSupport(has, shapes);
    SomeTrue(has[1..]);
    assert CountTrue(has) == (if has[0] then 1 else 0) + CountTrue(has[1..]);
    if CountTrue(has[1..]) > 0 {
      var i :| 0 <= i < |has[1..]| && has[1..][i];
      assert d[i + 1] > 0.0;
    }
    if j :| 1 <= j <= budget && d[j] > 0.0 { assert has[1..][j - 1]; }
  }

  /** Every problem the prior was fitted to is supported by it. */
  lemma FittedProblemIsSupported(problems: seq<Observation>, budget: nat, a: real, b: real, shapes: seq<real>, i: nat)
    requires AllObserved(problems, budget) && a > 0.0 && b > 0.0 && AllPositive(shapes)
    requires |shapes| == CountTrue(HasObservations(problems, budget)) && Accepted(problems, budget) && i < |problems|
    ensures var prior := BuildPrior(a, b, shapes, HasObservations(problems, budget));
      prior.Valid(budget) && Supported(prior, DataOf(problems[i], budget), budget)
  {
    AcceptedExactly(problems, budget, a, b, shapes);
    ScatterSupport(HasObservations(problems, budget), shapes);
    forall j | 0 <= j <= budget && Scatter(HasObservations(problems, budget), shapes)[j] == 0.0
      ensures OracleCounts(problems[i], budget)[j] == 0
    {
      CountedIsTotalled(problems, budget, i, j);
    }
  }

  /** Bayes' rule for the runs themselves: E[g | runs] = E_prior[g * runs] / E_prior[runs]. */
  function GivenRuns(prior: Prior, budget: nat, shorts: seq<bool>, runs: seq<Run>): Functional
    requires prior.Valid(budget) && RunsLikelihood(prior, budget, shorts, runs)(UNIT) != 0.0
  {
    (g: Monomial) => RunsLikelihood(prior, budget, shorts, runs)(g) / RunsLikelihood(prior, budget, shorts, runs)(UNIT)
  }

  /** From runs to predictions: for all accepted problems and any positive shapes, what is computed for
      each problem is the posterior probability, given the runs measured for it, that any of n arms
      solves; it lies in [0, 1], never drops with more arms or blocks, and the reported marginal
      likelihood is the prior probability of these runs. */
  lemma FittedPredictionsAreExact(problems: seq<Observation>, budget: nat, a: real, b: real, shapes: seq<real>, i: nat,
                                  shorts: seq<bool>, runs: seq<Run>, n: nat, n': nat, k: nat, k': nat)
    requires AllObserved(problems, budget) && a > 0.0 && b > 0.0 && AllPositive(shapes)
    requires |shapes| == CountTrue(HasObservations(problems, budget)) && Accepted(problems, budget) && i < |problems|
    requires Reduces(problems[i], budget, shorts, runs) && n <= n' && k <= k' <= budget
    ensures var prior := BuildPrior(a, b, shapes, HasObservations(problems, budget));
            var data := DataOf(problems[i], budget);
      && prior.Valid(budget) && RunsLikelihood(prior, budget, shorts, runs)(UNIT) > 0.0
      && PredictedSuccess(prior, data, budget, n, k) == AnySuccess(GivenRuns(prior, budget, shorts, runs), n, k)
      && 0.0 <= PredictedSuccess(prior, data, budget, n, k) <= PredictedSuccess(prior, data, budget, n', k') <= 1.0
      && TightPosterior(prior, data, budget).evidence == RunsLikelihood(prior, budget, shorts, runs)(UNIT)
  {
    hide PredictedSuccess, AnySuccess, RunsLikelihood, Reduces;
    hide LikelihoodExpectation, TightPosterior, Supported, BuildPrior;
    FittedProblemIsSupported(problems, budget, a, b, shapes, i);
    var prior, data := BuildPrior(a, b, shapes, HasObservations(problems, budget)), DataOf(problems[i], budget);
    PredictionIsPosteriorPredictive(prior, data, budget, n, k);
    PredictionIsProbability(prior, data, budget, n, n', k, k');
    EvidenceExactness(prior, data, budget);
    LikelihoodIsProduct(prior, problems[i], budget, shorts, runs, UNIT);
    var counted, measured := PosteriorExpectation(prior, data, budget), GivenRuns(prior, budget, shorts, runs);
    forall g: Monomial ensures counted(g) == measured(g) {
      LikelihoodIsProduct(prior, problems[i], budget, shorts, runs, g);
    }
    AnySuccessCongruence(counted, measured, n, k);
  }

  // ----- every observation comes from runs

  function LateRun(budget: nat, j: nat): Run {
    seq(budget, i => i >= j)
  }

  lemma LateRunPasses(budget: nat, j: nat)
    requires j <= budget
    ensures FirstPass(LateRun(budget, j)) == j
  {
    var run := LateRun(budget, j);
    var f := FirstPass(run);
    assert f < |run| ==> run[f];
    assert j < |run| ==> run[j];
  }

  /** c_0 runs passing at once, c_1 passing at checkpoint one, and so on. */
  function RunsOf(counts: seq<nat>, budget: nat): seq<Run>
    decreases SumCounts(counts), |counts|
  {
    if counts == [] then []
    else
      var rest, j := counts[..|counts| - 1], |counts| - 1;
      RunsOf(rest, budget) + seq(counts[j], _ => LateRun(budget, j))
  }

  lemma {:induction false} AddLateRuns(runs: seq<Run>, budget: nat, j: nat, n: nat, k: nat)
    requires j <= budget
    ensures SolvedBy(runs + seq(n, _ => LateRun(budget, j)), k) == SolvedBy(runs, k) + (if j <= k then n else 0)
  {
    var all := runs + seq(n, _ => LateRun(budget, j));
    if n == 0 {
      assert all == runs;
    } else {
      AddLateRuns(runs, budget, j, n - 1, k);
      LateRunPasses(budget, j);
      assert all[..|all| - 1] == runs + seq(n - 1, _ => LateRun(budget, j));
    }
  }

  lemma {:induction false} RunsOfCounts(counts: seq<nat>, budget: nat, k: nat)
    requires |counts| <= budget + 1
    ensures |RunsOf(counts, budget)| == SumCounts(counts)
    ensures forall i :: 0 <= i < |RunsOf(counts, budget)| ==> |RunsOf(counts, budget)[i]| == budget
    ensures SolvedBy(RunsOf(counts, budget), k) == SumCounts(if k + 1 < |counts| then counts[..k + 1] else counts)
  {
    if counts != [] {
      var rest, j := counts[..|counts| - 1], |counts| - 1;
      RunsOfCounts(rest, budget, k);
      AddLateRuns(RunsOf(rest, budget), budget, j, counts[j], k);
      if k + 1 < |counts| {
        assert rest[..k + 1] == counts[..k + 1];
        if k + 1 == |rest| { assert rest[..k + 1] == rest; }
      }
    }
  }

  lemma {:induction false} SolvedSplit(u: nat, v: nat)
    ensures Solved(seq(u, _ => true) + seq(v, _ => false)) == u
  {
    var all := seq(u, _ => true) + seq(v, _ => false);
    if v > 0 {
      SolvedSplit(u, v - 1);
      assert all[..|all| - 1] == seq(u, _ => true) + seq(v - 1, _ => false);
    } else if u > 0 {
      SolvedSplit(u - 1, 0);
      assert all[..|all| - 1] == seq(u - 1, _ => true) + seq(0, _ => false);
    }
  }

  /** Every accepted observation is the summary of some runs, so that the statement above is about
      every problem. */
  lemma ObservationsComeFromRuns(obs: Observation, budget: nat) returns (shorts: seq<bool>, runs: seq<Run>)
    requires obs.Valid(budget)
    ensures Reduces(obs, budget, shorts, runs)
  {
    var counts, u := OracleCounts(obs, budget), obs.shortSuccesses;
    shorts := seq(u, _ => true) + seq(obs.shortAttempts - u, _ => false);
    runs := RunsOf(counts, budget);
    SolvedSplit(u, obs.shortAttempts - u);
    OracleCountsInvert(obs, budget);
    RunsOfCounts(counts, budget, 0);
    forall j | 0 <= j < budget ensures obs.oracleSuccesses[j] == SolvedBy(runs, j) {
      RunsOfCounts(counts, budget, j);
    }
  }
}

/** The likelihood of measured runs, run by run: a short run solves by discovering and executing in
    the first block, an oracle run first passes in one block or never. The counts the regularised
    estimator keeps are a summary of the runs that gives the same likelihood. */
module MeasuredLikelihood {
  import opened Numbers
  import opened Expectations
  import opened Trajectories
  import opened Observations
  import opened RegularizedDiscoveryExecution
  import opened BayesPosterior
  import opened KnownParameters

  // ----- run by run

  /** E[m * product over the short runs], alpha pi_0 for a solved run and 1 - alpha pi_0 otherwise. */
  function AfterShortRuns(e: Functional, shorts: seq<bool>): Functional {
    if shorts == [] then e
    else
      var rest := AfterShortRuns(e, shorts[..|shorts| - 1]);
      if shorts[|shorts| - 1] then
        (m: Monomial) => rest(m.Times(DISCOVERY).Times(Block(0)))
      else
        (m: Monomial) => rest(m) - rest(m.Times(DISCOVERY).Times(Block(0)))
  }

  /** E[m * product over the oracle runs], pi_j for a run that first passes at checkpoint j; the
      category after the last checkpoint is noncompletion. */
  function AfterOracleRuns(e: Functional, runs: seq<Run>): Functional {
    if runs == [] then e
    else
      var rest := AfterOracleRuns(e, runs[..|runs| - 1]);
      (m: Monomial) => rest(m.Times(Block(FirstPass(runs[|runs| - 1]))))
  }

  /** g => E_prior[g * product over all runs]. */
  function RunsLikelihood(prior: Prior, budget: nat, shorts: seq<bool>, runs: seq<Run>): Functional
    requires prior.Valid(budget)
  {
    AfterOracleRuns(AfterShortRuns(PriorExpectation(prior, budget), shorts), runs)
  }

  function Solved(shorts: seq<bool>): nat {
    if shorts == [] then 0 else Solved(shorts[..|shorts| - 1]) + (if shorts[|shorts| - 1] then 1 else 0)
  }

  /** The runs whose counts the observation holds. */
  ghost predicate Reduces(obs: Observation, budget: nat, shorts: seq<bool>, runs: seq<Run>) {
    && obs.shortAttempts == |shorts| && obs.shortSuccesses == Solved(shorts)
    && obs.oracleAttempts == |runs| && |obs.oracleSuccesses| == budget
    && (forall i :: 0 <= i < |runs| ==> |runs[i]| == budget)
    && (forall j :: 0 <= j < budget ==> obs.oracleSuccesses[j] == SolvedBy(runs, j))
  }

  /** The counts the estimator keeps for a problem. */
  function DataOf(obs: Observation, budget: nat): (data: Data)
    requires obs.Valid(budget)
    ensures data.Valid(budget)
  {
    Data(obs.shortSuccesses, obs.shortAttempts, OracleCounts(obs, budget))
  }

  // ----- the runs as one monomial and a power

  lemma {:induction false} SolvedAtMost(shorts: seq<bool>)
    ensures Solved(shorts) <= |shorts|
  {
    if shorts != [] { SolvedAtMost(shorts[..|shorts| - 1]); }
  }

  function ShortSuccesses(u: nat): Monomial {
    Monomial(u, 0, multiset{}[0 := u])
  }

  lemma OneMoreSuccess(m: Monomial, u: nat)
    ensures m.Times(DISCOVERY).Times(Block(0)).Times(ShortSuccesses(u)) == m.Times(ShortSuccesses(u + 1))
    ensures m.Times(DISCOVERY).Times(Block(0)) == m.Times(SHORT_SUCCESS)
    ensures m.Times(ShortSuccesses(0)) == m
    ensures m.Times(SHORT_SUCCESS).Times(ShortSuccesses(u)) == m.Times(ShortSuccesses(u)).Times(SHORT_SUCCESS)
  {
    var b := m.blocks;
    assert b + multiset{} + multiset{0} == b + multiset{0};
    assert b + multiset{0} + multiset{}[0 := u] == b + multiset{}[0 := u + 1];
    assert b + multiset{}[0 := 0] == b;
    assert b + multiset{}[0 := u] + multiset{0} == b + multiset{0} + multiset{}[0 := u];
  }

  lemma AfterShortNext(e: Functional, shorts: seq<bool>, m: Monomial)
    ensures shorts == [] ==> AfterShortRuns(e, shorts)(m) == e(m)
    ensures shorts != [] ==>
      var rest, s := AfterShortRuns(e, shorts[..|shorts| - 1]), m.Times(DISCOVERY).Times(Block(0));
      AfterShortRuns(e, shorts)(m) == if shorts[|shorts| - 1] then rest(s) else rest(m) - rest(s)
  {
  }

  lemma {:induction false} ShortRunsArePower(e: Functional, shorts: seq<bool>, m: Monomial)
    ensures Solved(shorts) <= |shorts|
    ensures AfterShortRuns(e, shorts)(m)
         == ComplementPower(e, [SHORT_SUCCESS], |shorts| - Solved(shorts))(m.Times(ShortSuccesses(Solved(shorts))))
  {
    hide ComplementPower, Monomial.Times, ShortSuccesses, AfterShortRuns;
    SolvedAtMost(shorts);
    AfterShortNext(e, shorts, m);
    if shorts == [] {
      OneMoreSuccess(m, 0);
      NoComplement(e, m);
    } else {
      var rest, u := shorts[..|shorts| - 1], Solved(shorts[..|shorts| - 1]);
      SolvedAtMost(rest);
      OneMoreSuccess(m, u);
      if shorts[|shorts| - 1] {
        ShortRunsArePower(e, rest, m.Times(DISCOVERY).Times(Block(0)));
      } else {
        ShortRunsArePower(e, rest, m);
        ShortRunsArePower(e, rest, m.Times(DISCOVERY).Times(Block(0)));
        ComplementStep(e, SHORT_SUCCESS, |shorts| - u, m.Times(ShortSuccesses(u)));
      }
    }
  }

  lemma NoComplement(e: Functional, m: Monomial)
    ensures ComplementPower(e, [SHORT_SUCCESS], 0)(m) == e(m)
  {
  }

  function Completions(runs: seq<Run>): multiset<nat> {
    if runs == [] then multiset{} else Completions(runs[..|runs| - 1]) + multiset{FirstPass(runs[|runs| - 1])}
  }

  lemma {:induction false} OracleRunsAreMonomial(e: Functional, runs: seq<Run>, m: Monomial)
    ensures AfterOracleRuns(e, runs)(m) == e(m.Times(Monomial(0, 0, Completions(runs))))
  {
    if runs == [] {
      assert m.blocks + multiset{} == m.blocks;
    } else {
      var rest, j := runs[..|runs| - 1], FirstPass(runs[|runs| - 1]);
      OracleRunsAreMonomial(e, rest, m.Times(Block(j)));
      assert m.blocks + multiset{j} + Completions(rest) == m.blocks + (Completions(rest) + multiset{j});
    }
  }

  lemma {:induction false} CompletionsAreCounts(runs: seq<Run>, j: nat)
    ensures Completions(runs)[j] == FirstPassCount(runs, j)
  {
    if runs != [] { CompletionsAreCounts(runs[..|runs| - 1], j); }
  }

  lemma {:induction false} NoLaterCompletion(runs: seq<Run>, budget: nat, j: nat)
    requires (forall i :: 0 <= i < |runs| ==> |runs[i]| == budget) && j > budget
    ensures FirstPassCount(runs, j) == 0
  {
    if runs != [] { NoLaterCompletion(runs[..|runs| - 1], budget, j); }
  }

  /** The counts' monomial is the product of one factor per completed run. */
  lemma ObservedIsProduct(obs: Observation, budget: nat, shorts: seq<bool>, runs: seq<Run>, g: Monomial)
    requires obs.Valid(budget) && Reduces(obs, budget, shorts, runs)
    ensures g.Times(ObservedMonomial(DataOf(obs, budget)))
         == g.Times(Monomial(0, 0, Completions(runs))).Times(ShortSuccesses(Solved(shorts)))
  {
    hide CountsAsBlocks, Completions, FirstPassCount;
    var data, u := DataOf(obs, budget), Solved(shorts);
    var c := data.counts[0 := data.counts[0] + u];
    CountsRoundTrip(obs.dataset, obs.problemId, runs, budget, obs.shortAttempts, obs.shortSuccesses,
                    obs.oracleSuccesses);
    var all := Completions(runs) + multiset{}[0 := u];
    forall j: nat ensures CountsAsBlocks(c)[j] == all[j] {
      BlocksOfCounts(c, j);
      CompletionsAreCounts(runs, j);
      if j > budget { NoLaterCompletion(runs, budget, j); }
    }
    assert CountsAsBlocks(c) == all;
    assert g.blocks + all == g.blocks + Completions(runs) + multiset{}[0 := u];
  }

  /** The likelihood expectation of the counts is the product over the runs: alpha pi_0 once per
      solved short run, 1 - alpha pi_0 once per other one, pi_j once per oracle run first passing
      at j. */
  lemma LikelihoodIsProduct(prior: Prior, obs: Observation, budget: nat, shorts: seq<bool>, runs: seq<Run>, g: Monomial)
    requires prior.Valid(budget) && obs.Valid(budget) && Reduces(obs, budget, shorts, runs)
    ensures LikelihoodExpectation(prior, DataOf(obs, budget), budget)(g)
         == RunsLikelihood(prior, budget, shorts, runs)(g)
  {
    hide ComplementPower, PriorExpectation, ObservedMonomial;
    hide Monomial.Times, AfterShortRuns, AfterOracleRuns, Completions;
    var e, data := PriorExpectation(prior, budget), DataOf(obs, budget);
    var product := g.Times(Monomial(0, 0, Completions(runs)));
    ObservedIsProduct(obs, budget, shorts, runs, g);
    OracleRunsAreMonomial(AfterShortRuns(e, shorts), runs, g);
    ShortRunsArePower(e, shorts, product);
    assert data.Failures() == |shorts| - Solved(shorts);
    assert LikelihoodExpectation(prior, data, budget)(g)
        == ComplementPower(e, [SHORT_SUCCESS], data.Failures())(g.Times(ObservedMonomial(data)));
  }

  // ----- at known parameters

  /** The probability of the runs when alpha and pi are known. */
  function ShortProbability(alpha: real, pi: seq<real>, shorts: seq<bool>): real
    requires pi != []
  {
    if shorts == [] then 1.0
    else
      ShortProbability(alpha, pi, shorts[..|shorts| - 1])
      * (if shorts[|shorts| - 1] then alpha * pi[0] else 1.0 - alpha * pi[0])
  }

  function OracleProbability(pi: seq<real>, runs: seq<Run>): real
    requires forall i :: 0 <= i < |runs| ==> |runs[i]| < |pi|
  {
    if runs == [] then 1.0
    else OracleProbability(pi, runs[..|runs| - 1]) * pi[FirstPass(runs[|runs| - 1])]
  }

  lemma AfterOracleNext(e: Functional, runs: seq<Run>, m: Monomial)
    ensures runs == [] ==> AfterOracleRuns(e, runs)(m) == e(m)
    ensures runs != [] ==>
      AfterOracleRuns(e, runs)(m)
      == AfterOracleRuns(e, runs[..|runs| - 1])(m.Times(Block(FirstPass(runs[|runs| - 1]))))
  {
  }

  lemma ShortProbabilityNext(alpha: real, pi: seq<real>, shorts: seq<bool>)
    requires pi != []
    ensures shorts == [] ==> ShortProbability(alpha, pi, shorts) == 1.0
    ensures shorts != [] ==>
      ShortProbability(alpha, pi, shorts)
      == ShortProbability(alpha, pi, shorts[..|shorts| - 1])
         * (if shorts[|shorts| - 1] then alpha * pi[0] else 1.0 - alpha * pi[0])
  {
  }

  lemma {:induction false} ShortRunsAtKnown(alpha: real, pi: seq<real>, shorts: seq<bool>, m: Monomial)
    requires pi != []
    ensures AfterShortRuns(Value(alpha, pi), shorts)(m) == ShortProbability(alpha, pi, shorts) * Value(alpha, pi)(m)
  {
    hide Value, Monomial.Times, AfterShortRuns, ShortProbability;
    var e := Value(alpha, pi);
    AfterShortNext(e, shorts, m);
    ShortProbabilityNext(alpha, pi, shorts);
    if shorts != [] {
      var rest, s := shorts[..|shorts| - 1], m.Times(DISCOVERY).Times(Block(0));
      ShortRunsAtKnown(alpha, pi, rest, m);
      ShortRunsAtKnown(alpha, pi, rest, s);
      ValueOfSuccess(alpha, pi, m);
      KnownStep(ShortProbability(alpha, pi, rest), e(m), alpha * pi[0], shorts[|shorts| - 1], e(s),
                ShortProbability(alpha, pi, shorts));
    }
  }

  lemma ValueOfSuccess(alpha: real, pi: seq<real>, m: Monomial)
    requires pi != []
    ensures Value(alpha, pi)(m.Times(DISCOVERY).Times(Block(0))) == Value(alpha, pi)(m) * (alpha * pi[0])
  {
    hide Value, Monomial.Times;
    ValueTimes(alpha, pi, m, DISCOVERY);
    ValueTimes(alpha, pi, m.Times(DISCOVERY), Block(0));
    ValueOfDiscovery(alpha, pi);
    ValueOfBlock(alpha, pi, 0);
    Reassociate(Value(alpha, pi)(m), alpha, pi[0], Value(alpha, pi)(m) * alpha);
  }

  lemma ValueOfDiscovery(alpha: real, pi: seq<real>)
    ensures Value(alpha, pi)(DISCOVERY) == alpha
  {
    BlockProductUnit(pi, |pi|);
    PowNext(alpha, 0);
    PowNext(1.0 - alpha, 0);
  }

  lemma ValueOfBlock(alpha: real, pi: seq<real>, j: nat)
    requires j < |pi|
    ensures Value(alpha, pi)(Block(j)) == pi[j]
  {
    SingleBlock(pi, j, |pi|);
    PowNext(alpha, 0);
    PowNext(1.0 - alpha, 0);
  }

  lemma KnownStep(p: real, v: real, s: real, solved: bool, w: real, q: real)
    requires w == v * s && q == p * (if solved then s else 1.0 - s)
    ensures (if solved then p * w else p * v - p * w) == q * v
  {
    var ps := p * s;
    Reassociate(p, s, v, ps);
    if !solved { Split(p, s, v, ps); }
  }

  lemma Split(p: real, s: real, v: real, ps: real)
    requires ps == p * s
    ensures p * (1.0 - s) == p - ps
    ensures (p - ps) * v == p * v - ps * v
  {
  }

  lemma {:induction false} OracleRunsAtKnown(alpha: real, pi: seq<real>, e: Functional, c: real, runs: seq<Run>,
                                             m: Monomial)
    requires forall i :: 0 <= i < |runs| ==> |runs[i]| < |pi|
    requires forall v :: e(v) == c * Value(alpha, pi)(v)
    ensures AfterOracleRuns(e, runs)(m) == (c * OracleProbability(pi, runs)) * Value(alpha, pi)(m)
  {
    hide Value, Monomial.Times, AfterOracleRuns;
    AfterOracleNext(e, runs, m);
    if runs != [] {
      var rest, j := runs[..|runs| - 1], FirstPass(runs[|runs| - 1]);
      OracleRunsAtKnown(alpha, pi, e, c, rest, m.Times(Block(j)));
      ValueTimes(alpha, pi, m, Block(j));
      ValueOfBlock(alpha, pi, j);
      OracleStep(c, OracleProbability(pi, rest), pi[j], Value(alpha, pi)(m));
    }
  }

  lemma OracleStep(c: real, p: real, x: real, v: real)
    ensures (c * p) * (v * x) == (c * (p * x)) * v
  {
  }

  /** With alpha and pi known, acting with the runs multiplies by the probability of exactly these
      outcomes. */
  lemma RunsAtKnown(alpha: real, pi: seq<real>, shorts: seq<bool>, runs: seq<Run>)
    requires pi != [] && forall i :: 0 <= i < |runs| ==> |runs[i]| < |pi|
    ensures AfterOracleRuns(AfterShortRuns(Value(alpha, pi), shorts), runs)(UNIT)
         == ShortProbability(alpha, pi, shorts) * OracleProbability(pi, runs)
  {
    hide Value, AfterShortRuns, AfterOracleRuns;
    var e, c := AfterShortRuns(Value(alpha, pi), shorts), ShortProbability(alpha, pi, shorts);
    forall v ensures e(v) == c * Value(alpha, pi)(v) { ShortRunsAtKnown(alpha, pi, shorts, v); }
    OracleRunsAtKnown(alpha, pi, e, c, runs, UNIT);
    ValueUnit(alpha, pi);
  }
}

/** Problem measurements and how complete audited runs are reduced to them. */
module Observations {
  import opened Numbers

  /** Short-run and oracle-run counts of one problem; oracleSuccesses is cumulative by checkpoint. */
  datatype Observation = Observation(dataset: string, problemId: string, shortAttempts: nat, shortSuccesses: nat,
                                     oracleAttempts: nat, oracleSuccesses: seq<nat>)
  {
    /** What construction accepts for a budget of `budget` checkpoints. */
    predicate Valid(budget: nat) {
      && dataset != "" && problemId != ""
      && 1 <= shortAttempts && shortSuccesses <= shortAttempts
      && 1 <= oracleAttempts && |oracleSuccesses| == budget
      && (budget > 0 ==> oracleSuccesses[budget - 1] <= oracleAttempts)
      && forall j :: 0 < j < budget ==> oracleSuccesses[j - 1] <= oracleSuccesses[j]
    }

    lemma {:induction false} Cumulative(budget: nat, i: nat, j: nat)
      requires Valid(budget) && i <= j < budget
      ensures oracleSuccesses[i] <= oracleSuccesses[j] <= oracleAttempts
      decreases budget - i
    {
      if i < j {
        Cumulative(budget, i + 1, j);
      } else if j < budget - 1 {
        Cumulative(budget, i + 1, j + 1);
      }
    }
  }

  /** A complete audited run: whether each checkpoint's solution passed. */
  type Run = seq<bool>

  /** The zero-based checkpoint at which the run first passed; |run| when it never did. */
  function FirstPass(run: Run): (f: nat)
    ensures f <= |run|
    ensures forall j :: 0 <= j < f ==> !run[j]
    ensures f < |run| ==> run[f]
  {
    if run == [] || run[0] then 0 else 1 + FirstPass(run[1..])
  }

  /** How many runs first pass at or before checkpoint j. */
  function SolvedBy(runs: seq<Run>, j: nat): (c: nat)
    ensures c <= |runs|
  {
    if runs == [] then 0
    else SolvedBy(runs[..|runs| - 1], j) + (if FirstPass(runs[|runs| - 1]) <= j then 1 else 0)
  }

  /** How many runs first pass exactly at checkpoint j. */
  function FirstPassCount(runs: seq<Run>, j: nat): nat {
    if runs == [] then 0
    else FirstPassCount(runs[..|runs| - 1], j) + (if FirstPass(runs[|runs| - 1]) == j then 1 else 0)
  }

  /** The curve of a problem: a run that has passed once stays counted, whatever its later checkpoints. */
  method CumulativeSuccesses(runs: seq<Run>, budget: nat) returns (counts: seq<nat>)
    requires forall i :: 0 <= i < |runs| ==> |runs[i]| == budget
    ensures |counts| == budget
    ensures forall j :: 0 <= j < budget ==> counts[j] == SolvedBy(runs, j)
  {
    counts := seq(budget, _ => 0);
    for r := 0 to |runs|
      invariant |counts| == budget
      invariant forall j :: 0 <= j < budget ==> counts[j] == SolvedBy(runs[..r], j)
    {
      var run, solved := runs[r], false;
      assert runs[..r + 1][..r] == runs[..r];
      for checkpoint := 0 to budget
        invariant |counts| == budget
        invariant solved <==> FirstPass(run) < checkpoint
        invariant forall j :: 0 <= j < checkpoint ==> counts[j] == SolvedBy(runs[..r + 1], j)
        invariant forall j :: checkpoint <= j < budget ==> counts[j] == SolvedBy(runs[..r], j)
      {
        solved := solved || run[checkpoint];
        counts := counts[checkpoint := counts[checkpoint] + (if solved then 1 else 0)];
      }
    }
    assert runs[..|runs|] == runs;
  }

  /** c_j = C_j - C_(j-1) with C_(-1) = 0, and the remaining attempts as the unsolved category. */
  function OracleCounts(obs: Observation, budget: nat): (c: seq<nat>)
    requires obs.Valid(budget)
    ensures |c| == budget + 1
  {
    seq(budget + 1, j requires 0 <= j <= budget =>
      var earlier := if j == 0 then 0 else obs.oracleSuccesses[j - 1];
      var later := if j == budget then obs.oracleAttempts else obs.oracleSuccesses[j];
      later - earlier)
  }

  lemma {:induction false} SolvedByIsCumulative(runs: seq<Run>, j: nat)
    ensures SolvedBy(runs, j) == (if j == 0 then 0 else SolvedBy(runs, j - 1)) + FirstPassCount(runs, j)
  {
    if runs != [] { SolvedByIsCumulative(runs[..|runs| - 1], j); }
  }

  lemma {:induction false} AllRunsEndSomewhere(runs: seq<Run>, budget: nat)
    requires forall i :: 0 <= i < |runs| ==> |runs[i]| == budget
    ensures |runs| == (if budget == 0 then 0 else SolvedBy(runs, budget - 1)) + FirstPassCount(runs, budget)
  {
    if runs != [] { AllRunsEndSomewhere(runs[..|runs| - 1], budget); }
  }

  /** The curve counted from any complete runs is a valid observation, and differencing it gives
      back, checkpoint by checkpoint, how many runs first passed there and how many never did. */
  lemma CountsRoundTrip(dataset: string, problemId: string, runs: seq<Run>, budget: nat,
                        shortAttempts: nat, shortSuccesses: nat, curve: seq<nat>)
    requires dataset != "" && problemId != ""
    requires runs != [] && 1 <= shortAttempts && shortSuccesses <= shortAttempts
    requires forall i :: 0 <= i < |runs| ==> |runs[i]| == budget
    requires |curve| == budget && forall j :: 0 <= j < budget ==> curve[j] == SolvedBy(runs, j)
    ensures var obs := Observation(dataset, problemId, shortAttempts, shortSuccesses, |runs|, curve);
      && obs.Valid(budget)
      && forall j :: 0 <= j <= budget ==> OracleCounts(obs, budget)[j] == FirstPassCount(runs, j)
  {
    var obs := Observation(dataset, problemId, shortAttempts, shortSuccesses, |runs|, curve);
    AllRunsEndSomewhere(runs, budget);
    forall j: nat { SolvedByIsCumulative(runs, j); }
    forall j | 0 < j < budget ensures curve[j - 1] <= curve[j] { SolvedByIsCumulative(runs, j); }
    forall j | 0 <= j <= budget ensures OracleCounts(obs, budget)[j] == FirstPassCount(runs, j) {
      SolvedByIsCumulative(runs, j);
    }
  }

  function SumCounts(c: seq<nat>): nat {
    if c == [] then 0 else SumCounts(c[..|c| - 1]) + c[|c| - 1]
  }

  lemma {:induction false} PrefixCounts(obs: Observation, budget: nat, j: nat)
    requires obs.Valid(budget) && j < budget
    ensures SumCounts(OracleCounts(obs, budget)[..j + 1]) == obs.oracleSuccesses[j]
  {
    var c := OracleCounts(obs, budget);
    assert c[..j + 1][..j] == c[..j];
    if j == 0 {
      assert c[..0] == [];
    } else {
      PrefixCounts(obs, budget, j - 1);
    }
  }

  /** For every accepted observation the counts sum to the attempts and their prefix sums are the
      observed curve, so nothing is lost in the differencing. */
  lemma OracleCountsInvert(obs: Observation, budget: nat)
    requires obs.Valid(budget)
    ensures SumCounts(OracleCounts(obs, budget)) == obs.oracleAttempts
    ensures forall j :: 0 <= j < budget ==> SumCounts(OracleCounts(obs, budget)[..j + 1]) == obs.oracleSuccesses[j]
  {
    var c := OracleCounts(obs, budget);
    forall j | 0 <= j < budget ensures SumCounts(c[..j + 1]) == obs.oracleSuccesses[j] {
      PrefixCounts(obs, budget, j);
    }
    assert c[..budget + 1] == c;
    if budget == 0 {
      assert c[..0] == [];
    } else {
      assert c[..budget - 1 + 1] == c[..budget];
    }
  }
}

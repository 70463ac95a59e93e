/** One arm of depth k solves when discovery after f failures and execution in block j fit into the
    k blocks. This module lists the successful paths, proves that they and the failing paths
    exhaust what can happen, and derives the range and monotonicity of any-of-n success under
    every expectation that obeys total probability. */
module Trajectories {
  import opened Numbers
  import opened Expectations
  import DE = DiscoveryExecution

  /** Discovery after `failures` blocks without it, then execution completing in block `block`. */
  datatype Path = Path(failures: nat, block: nat) {
    function Term(): Monomial {
      Monomial(1, failures, multiset{block})
    }
  }

  function Row(failures: nat, lo: nat, hi: nat): seq<Path>
    requires lo <= hi
    decreases hi - lo
  {
    if lo == hi then [] else [Path(failures, lo)] + Row(failures, lo + 1, hi)
  }

  /** The paths with at least `from` discovery failures that fit into k blocks. */
  function PathsFrom(k: nat, from: nat): seq<Path>
    requires from <= k
    decreases k - from
  {
    if from == k then [] else Row(from, 0, k - from) + PathsFrom(k, from + 1)
  }

  function SuccessPaths(k: nat): seq<Path> {
    PathsFrom(k, 0)
  }

  function Terms(paths: seq<Path>): seq<Monomial> {
    if paths == [] then [] else [paths[0].Term()] + Terms(paths[1..])
  }

  // ----- the list of paths

  lemma {:induction false} RowMembers(failures: nat, lo: nat, hi: nat)
    requires lo <= hi
    ensures |Row(failures, lo, hi)| == hi - lo
    ensures forall i :: 0 <= i < hi - lo ==> Row(failures, lo, hi)[i] == Path(failures, lo + i)
    decreases hi - lo
  {
    if lo < hi { RowMembers(failures, lo + 1, hi); }
  }

  ghost predicate Distinct(paths: seq<Path>) {
    forall i, j :: 0 <= i < j < |paths| ==> paths[i] != paths[j]
  }

  lemma {:induction false} PathsFromMembers(k: nat, from: nat)
    requires from <= k
    ensures forall p :: p in PathsFrom(k, from) <==> from <= p.failures && p.failures + p.block + 1 <= k
    ensures Distinct(PathsFrom(k, from))
    decreases k - from
  {
    if from < k {
      var row, rest := Row(from, 0, k - from), PathsFrom(k, from + 1);
      RowMembers(from, 0, k - from);
      PathsFromMembers(k, from + 1);
      forall p ensures p in row <==> p.failures == from && p.failures + p.block + 1 <= k {
        if p.failures == from && p.failures + p.block + 1 <= k { assert row[p.block] == p; }
      }
      forall i, j | 0 <= i < j < |row + rest| ensures (row + rest)[i] != (row + rest)[j] {
        if i < |row| && j >= |row| {
          assert (row + rest)[j] == rest[j - |row|] && rest[j - |row|] in rest;
        }
      }
    }
  }

  /** The list holds exactly the pairs with f + j + 1 <= k, each once. */
  lemma SuccessPathsExact(k: nat)
    ensures forall p :: p in SuccessPaths(k) <==> p.failures + p.block + 1 <= k
    ensures Distinct(SuccessPaths(k))
  {
    PathsFromMembers(k, 0);
  }

  // ----- successful and failing paths exhaust what can happen

  /** Paths with at least `from` discovery failures whose execution does not complete in time. */
  function LatePathsFrom(k: nat, from: nat, categories: nat): seq<Path>
    requires from <= k <= categories
    decreases k - from
  {
    if from == k then [] else Row(from, k - from, categories) + LatePathsFrom(k, from + 1, categories)
  }

  function NeverWithin(k: nat): Monomial {
    Monomial(0, k, multiset{})
  }

  /** Every way an arm of depth k can fail: too late an execution, or no discovery at all. */
  function FailingTerms(k: nat, categories: nat): seq<Monomial>
    requires k <= categories
  {
    Terms(LatePathsFrom(k, 0, categories)) + [NeverWithin(k)]
  }

  lemma {:induction false} TermsAppend(a: seq<Path>, b: seq<Path>)
    ensures Terms(a + b) == Terms(a) + Terms(b)
  {
    if a == [] {
      assert a + b == b;
    } else {
      assert (a + b)[1..] == a[1..] + b;
      TermsAppend(a[1..], b);
    }
  }

  lemma ActTerms(e: Functional, a: seq<Path>, b: seq<Path>, m: Monomial)
    ensures Act(e, Terms(a + b), m) == Act(e, Terms(a), m) + Act(e, Terms(b), m)
  {
    TermsAppend(a, b);
    ActAppend(e, Terms(a), Terms(b), m);
  }

  lemma ActEmpty(e: Functional, m: Monomial)
    ensures Act(e, [], m) == 0.0
  {
  }

  lemma {:induction false} RowSplit(failures: nat, lo: nat, mid: nat, hi: nat)
    requires lo <= mid <= hi
    ensures Row(failures, lo, hi) == Row(failures, lo, mid) + Row(failures, mid, hi)
    decreases mid - lo
  {
    if lo < mid { RowSplit(failures, lo + 1, mid, hi); }
  }

  lemma {:induction false} ActRow(e: Functional, failures: nat, lo: nat, hi: nat, m: Monomial)
    requires lo <= hi
    ensures Act(e, Blocks(lo, hi), m.Times(Monomial(1, failures, multiset{})))
         == Act(e, Terms(Row(failures, lo, hi)), m)
    decreases hi - lo
  {
    if lo < hi {
      ActRow(e, failures, lo + 1, hi, m);
      var d := Monomial(1, failures, multiset{});
      TimesLaws(m, d, Block(lo));
      assert d.Times(Block(lo)) == Path(failures, lo).Term();
      assert Terms(Row(failures, lo, hi)) == [Path(failures, lo).Term()] + Terms(Row(failures, lo + 1, hi));
    }
  }

  lemma {:induction false} PathsExhaust(e: Functional, k: nat, from: nat, categories: nat, m: Monomial)
    requires Consistent(e, categories) && from <= k <= categories
    ensures e(m.Times(NeverWithin(from)))
         == Act(e, Terms(PathsFrom(k, from)), m) + Act(e, Terms(LatePathsFrom(k, from, categories)), m)
          + e(m.Times(NeverWithin(k)))
    decreases k - from
  {
    hide Consistent, Act, Row;
    if from == k {
      ActEmpty(e, m);
    } else {
      PathsExhaust(e, k, from + 1, categories, m);
      var d := m.Times(Monomial(1, from, multiset{}));
      ConsistentAt(e, categories, m.Times(NeverWithin(from)));
      ConsistentAt(e, categories, d);
      assert m.Times(NeverWithin(from)).Times(DISCOVERY) == d;
      assert m.Times(NeverWithin(from)).Times(NO_DISCOVERY) == m.Times(NeverWithin(from + 1));
      ActRow(e, from, 0, categories, m);
      RowSplit(from, 0, k - from, categories);
      ActTerms(e, Row(from, 0, k - from), Row(from, k - from, categories), m);
      ActTerms(e, Row(from, 0, k - from), PathsFrom(k, from + 1), m);
      ActTerms(e, Row(from, k - from, categories), LatePathsFrom(k, from + 1, categories), m);
    }
  }

  /** One minus the success sum is the sum of the failing paths. */
  lemma SuccessOrFailure(e: Functional, k: nat, categories: nat, m: Monomial)
    requires Consistent(e, categories) && k <= categories
    ensures e(m) == Act(e, Terms(SuccessPaths(k)), m) + Act(e, FailingTerms(k, categories), m)
  {
    PathsExhaust(e, k, 0, categories, m);
    assert m.Times(NeverWithin(0)) == m by { TimesLaws(m, UNIT, UNIT); }
    ActAppend(e, Terms(LatePathsFrom(k, 0, categories)), [NeverWithin(k)], m);
    assert Act(e, [NeverWithin(k)], m) == e(m.Times(NeverWithin(k))) + Act(e, [], m);
  }

  // ----- any of n arms

  /** E[m * 1-(1-s_k)^n] as the estimator computes it: the alternating sum over powers of s_k. */
  function AnySuccess(e: Functional, n: nat, k: nat): real {
    e(UNIT) - AlternatingSum(e, Terms(SuccessPaths(k)), n, n + 1)(UNIT)
  }

  lemma AnySuccessLinear(e: Functional, a: Functional, c: real, b: Functional, n: nat, k: nat)
    requires forall v :: e(v) == a(v) + c * b(v)
    ensures AnySuccess(e, n, k) == AnySuccess(a, n, k) + c * AnySuccess(b, n, k)
  {
    hide AlternatingSum;
    var terms := Terms(SuccessPaths(k));
    AlternatingLinear(e, a, c, b, terms, n, n + 1, UNIT);
    var x, y := b(UNIT), AlternatingSum(b, terms, n, n + 1)(UNIT);
    assert c * (x - y) == c * x - c * y;
  }

  lemma AnySuccessCongruence(e: Functional, a: Functional, n: nat, k: nat)
    requires forall v :: e(v) == a(v)
    ensures AnySuccess(e, n, k) == AnySuccess(a, n, k)
  {
    hide AnySuccess;
    forall v: Monomial ensures e(v) == a(v) + 0.0 * a(v) {}
    AnySuccessLinear(e, a, 0.0, a, n, k);
  }

  // ----- ordered selections of paths

  function Prepend(p: Path, selections: seq<seq<Path>>): seq<seq<Path>> {
    if selections == [] then [] else [[p] + selections[0]] + Prepend(p, selections[1..])
  }

  function PrependEach(paths: seq<Path>, selections: seq<seq<Path>>): seq<seq<Path>> {
    if paths == [] then [] else Prepend(paths[0], selections) + PrependEach(paths[1..], selections)
  }

  /** All ordered selections of r paths, the first element varying slowest. */
  function Selections(paths: seq<Path>, r: nat): seq<seq<Path>> {
    if r == 0 then [[]] else PrependEach(paths, Selections(paths, r - 1))
  }

  /** E[m * product of the selected paths] summed over the listed selections. */
  function SelectionSum(e: Functional, selections: seq<seq<Path>>, m: Monomial): real {
    if selections == [] then 0.0
    else e(m.Times(Product(Terms(selections[0])))) + SelectionSum(e, selections[1..], m)
  }

  lemma {:induction false} SelectionAppend(e: Functional, a: seq<seq<Path>>, b: seq<seq<Path>>, m: Monomial)
    ensures SelectionSum(e, a + b, m) == SelectionSum(e, a, m) + SelectionSum(e, b, m)
  {
    if a == [] {
      assert a + b == b;
    } else {
      assert (a + b)[1..] == a[1..] + b;
      SelectionAppend(e, a[1..], b, m);
    }
  }

  lemma {:induction false} PrependSum(e: Functional, p: Path, selections: seq<seq<Path>>, m: Monomial)
    ensures SelectionSum(e, Prepend(p, selections), m) == SelectionSum(e, selections, m.Times(p.Term()))
  {
    if selections != [] {
      PrependSum(e, p, selections[1..], m);
      assert Terms([p] + selections[0]) == [p.Term()] + Terms(selections[0]);
      TimesLaws(m, p.Term(), Product(Terms(selections[0])));
    }
  }

  lemma {:induction false} PrependEachSum(e: Functional, paths: seq<Path>, selections: seq<seq<Path>>,
                                          m: Monomial, e': Functional)
    requires forall v :: e'(v) == SelectionSum(e, selections, v)
    ensures SelectionSum(e, PrependEach(paths, selections), m) == Act(e', Terms(paths), m)
  {
    if paths != [] {
      PrependEachSum(e, paths[1..], selections, m, e');
      SelectionAppend(e, Prepend(paths[0], selections), PrependEach(paths[1..], selections), m);
      PrependSum(e, paths[0], selections, m);
    }
  }

  lemma NoSelection(e: Functional, m: Monomial)
    ensures SelectionSum(e, [[]], m) == e(m)
  {
    TimesLaws(m, UNIT, UNIT);
    assert SelectionSum(e, [[]], m) == e(m.Times(UNIT)) + SelectionSum(e, [], m);
  }

  /** Summing over all ordered r-tuples of paths is the expectation of the r-th power of the path
      sum: every product of terms is met with its multiplicity. */
  lemma {:induction false} SelectionsArePower(e: Functional, paths: seq<Path>, r: nat, m: Monomial)
    ensures SelectionSum(e, Selections(paths, r), m) == Power(e, Terms(paths), r)(m)
  {
    hide Power, PrependEach, Act;
    if r == 0 {
      NoSelection(e, m);
      PowerUnfold(e, Terms(paths), 0, m);
    } else {
      var p := Power(e, Terms(paths), r - 1);
      forall v: Monomial ensures p(v) == SelectionSum(e, Selections(paths, r - 1), v) {
        SelectionsArePower(e, paths, r - 1, v);
      }
      PrependEachSum(e, paths, Selections(paths, r - 1), m, p);
      PowerUnfold(e, Terms(paths), r, m);
    }
  }

  lemma {:induction false} SelectionsMembers(paths: seq<Path>, r: nat)
    ensures forall s :: s in Selections(paths, r) ==> |s| == r && forall p :: p in s ==> p in paths
  {
    if r > 0 {
      SelectionsMembers(paths, r - 1);
      PrependEachMembers(paths, Selections(paths, r - 1));
    }
  }

  lemma {:induction false} PrependEachMembers(paths: seq<Path>, selections: seq<seq<Path>>)
    ensures forall s :: s in PrependEach(paths, selections) ==> s != [] && s[0] in paths && s[1..] in selections
  {
    if paths != [] {
      PrependEachMembers(paths[1..], selections);
      PrependMembers(paths[0], selections);
    }
  }

  lemma {:induction false} PrependMembers(p: Path, selections: seq<seq<Path>>)
    ensures forall s :: s in Prepend(p, selections) ==> s != [] && s[0] == p && s[1..] in selections
  {
    if selections != [] {
      PrependMembers(p, selections[1..]);
      assert ([p] + selections[0])[1..] == selections[0];
    }
  }

  /** The n-th power of the complement is a sum over ordered failing paths, so it is nonnegative. */
  lemma {:induction false} ComplementIsFailing(e: Functional, n: nat, k: nat, categories: nat, m: Monomial)
    requires Consistent(e, categories) && k <= categories
    ensures ComplementPower(e, Terms(SuccessPaths(k)), n)(m) == Power(e, FailingTerms(k, categories), n)(m)
  {
    hide Consistent, SuccessPaths, FailingTerms, Act;
    if n > 0 {
      var c, p := ComplementPower(e, Terms(SuccessPaths(k)), n - 1), Power(e, FailingTerms(k, categories), n - 1);
      forall v: Monomial ensures c(v) == p(v) {
        ComplementIsFailing(e, n - 1, k, categories, v);
      }
      ActCongruence(c, p, Terms(SuccessPaths(k)), m);
      PowerConsistent(e, FailingTerms(k, categories), n - 1, categories);
      SuccessOrFailure(p, k, categories, m);
      PowerUnfold(e, FailingTerms(k, categories), n, m);
    }
  }

  lemma AnySuccessIsFailing(e: Functional, n: nat, k: nat, categories: nat)
    requires Consistent(e, categories) && k <= categories
    ensures AnySuccess(e, n, k) == e(UNIT) - Power(e, FailingTerms(k, categories), n)(UNIT)
  {
    AlternatingIsComplement(e, Terms(SuccessPaths(k)), n, n + 1, UNIT);
    ComplementIsFailing(e, n, k, categories, UNIT);
  }

  lemma MoreArms(e: Functional, n: nat, k: nat, categories: nat, m: Monomial)
    requires Consistent(e, categories) && Nonnegative(e) && k <= categories
    ensures 0.0 <= Power(e, FailingTerms(k, categories), n + 1)(m) <= Power(e, FailingTerms(k, categories), n)(m)
  {
    hide Consistent, Act, SuccessPaths, FailingTerms;
    var f := FailingTerms(k, categories);
    var p := Power(e, f, n);
    PowerConsistent(e, f, n, categories);
    PowerNonnegative(e, f, n);
    PowerNonnegative(e, f, n + 1);
    SuccessOrFailure(p, k, categories, m);
    ActNonnegative(p, Terms(SuccessPaths(k)), m);
    assert Power(e, f, n + 1)(m) == Act(p, f, m);
  }

  lemma NoPaths(e: Functional, k: nat, m: Monomial)
    ensures Act(e, Terms(PathsFrom(k, k)), m) == 0.0
  {
  }

  lemma PathsUnfold(k: nat, from: nat)
    requires from < k
    ensures PathsFrom(k, from) == Row(from, 0, k - from) + PathsFrom(k, from + 1)
  {
  }

  /** A deeper arm has every successful path of a shallower one. */
  lemma {:induction false} MorePaths(e: Functional, k: nat, from: nat, m: Monomial)
    requires Nonnegative(e) && from <= k
    ensures Act(e, Terms(PathsFrom(k, from)), m) <= Act(e, Terms(PathsFrom(k + 1, from)), m)
    decreases k - from
  {
    hide Act, Terms, Row, PathsFrom;
    if from == k {
      NoPaths(e, k, m);
      ActNonnegative(e, Terms(PathsFrom(k + 1, from)), m);
    } else {
      MorePaths(e, k, from + 1, m);
      PathsUnfold(k, from);
      PathsUnfold(k + 1, from);
      RowSplit(from, 0, k - from, k + 1 - from);
      ActTerms(e, Row(from, 0, k - from), Row(from, k - from, k + 1 - from), m);
      ActNonnegative(e, Terms(Row(from, k - from, k + 1 - from)), m);
      ActTerms(e, Row(from, 0, k - from), PathsFrom(k, from + 1), m);
      ActTerms(e, Row(from, 0, k + 1 - from), PathsFrom(k + 1, from + 1), m);
    }
  }

  lemma {:induction false} DeeperArms(e: Functional, n: nat, k: nat, categories: nat, m: Monomial)
    requires Consistent(e, categories) && Nonnegative(e) && k + 1 <= categories
    ensures Power(e, FailingTerms(k + 1, categories), n)(m) <= Power(e, FailingTerms(k, categories), n)(m)
  {
    hide Consistent, Act, FailingTerms;
    if n > 0 {
      var f, f' := FailingTerms(k, categories), FailingTerms(k + 1, categories);
      var p, p' := Power(e, f, n - 1), Power(e, f', n - 1);
      forall v: Monomial ensures p'(v) <= p(v) {
        DeeperArms(e, n - 1, k, categories, v);
      }
      ActMonotone(p', p, f, m);
      PowerConsistent(e, f', n - 1, categories);
      PowerNonnegative(e, f', n - 1);
      SuccessOrFailure(p', k, categories, m);
      SuccessOrFailure(p', k + 1, categories, m);
      MorePaths(p', k, 0, m);
      PowerUnfold(e, f, n, m);
      PowerUnfold(e, f', n, m);
    }
  }

  lemma {:induction false} FailureShrinks(e: Functional, n: nat, n': nat, k: nat, k': nat, categories: nat)
    requires Consistent(e, categories) && Nonnegative(e) && n <= n' && k <= k' <= categories
    ensures 0.0 <= Power(e, FailingTerms(k', categories), n')(UNIT)
                <= Power(e, FailingTerms(k, categories), n)(UNIT) <= e(UNIT)
    decreases n, n' - n, k' - k
  {
    hide Consistent, FailingTerms;
    if k < k' {
      FailureShrinks(e, n, n', k, k' - 1, categories);
      DeeperArms(e, n', k' - 1, categories, UNIT);
      PowerNonnegative(e, FailingTerms(k', categories), n');
    } else if n < n' {
      FailureShrinks(e, n, n' - 1, k, k', categories);
      MoreArms(e, n' - 1, k, categories, UNIT);
    } else if n > 0 {
      FailureShrinks(e, n - 1, n - 1, k, k, categories);
      MoreArms(e, n - 1, k, categories, UNIT);
    }
  }

  /** Under every normalised expectation obeying total probability, the alternating sum over
      ordered path tuples is a probability that never drops when an arm or a block is added. */
  lemma AnySuccessIsProbability(e: Functional, n: nat, n': nat, k: nat, k': nat, categories: nat)
    requires Consistent(e, categories) && Nonnegative(e) && e(UNIT) == 1.0
    requires n <= n' && k <= k' <= categories
    ensures 0.0 <= AnySuccess(e, n, k) <= AnySuccess(e, n', k') <= 1.0
  {
    hide AnySuccess, Consistent;
    AnySuccessIsFailing(e, n, k, categories);
    AnySuccessIsFailing(e, n', k', categories);
    FailureShrinks(e, n, n', k, k', categories);
  }
}

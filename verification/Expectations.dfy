/** A calculus of expectations over a discovery probability alpha and execution shares pi_0, pi_1, ...:
    an expectation is the value it gives to each monomial, and polynomials act on it by summing
    over their terms. The laws of total probability are then enough to reason about expectations of
    products of sums and of their complements. */
module Expectations {
  import opened Numbers

  /** alpha^s (1-alpha)^f times the product of pi_j over the blocks j. */
  datatype Monomial = Monomial(s: nat, f: nat, blocks: multiset<nat>) {
    function Times(m: Monomial): Monomial {
      Monomial(s + m.s, f + m.f, blocks + m.blocks)
    }
  }

  const UNIT := Monomial(0, 0, multiset{})
  const DISCOVERY := Monomial(1, 0, multiset{})
  const NO_DISCOVERY := Monomial(0, 1, multiset{})

  function Block(j: nat): Monomial {
    Monomial(0, 0, multiset{j})
  }

  lemma TimesLaws(m: Monomial, t: Monomial, v: Monomial)
    ensures m.Times(t).Times(v) == m.Times(v).Times(t) == m.Times(t.Times(v)) == m.Times(v.Times(t))
    ensures m.Times(UNIT) == m == UNIT.Times(m)
  {
    assert m.blocks + t.blocks + v.blocks == m.blocks + (t.blocks + v.blocks) == m.blocks + v.blocks + t.blocks;
    assert m.blocks + (v.blocks + t.blocks) == m.blocks + v.blocks + t.blocks;
    assert m.blocks + multiset{} == m.blocks == multiset{} + m.blocks;
  }

  lemma TimesSingle(m: Monomial)
    ensures m.Times(DISCOVERY) == Monomial(m.s + 1, m.f, m.blocks)
    ensures m.Times(NO_DISCOVERY) == Monomial(m.s, m.f + 1, m.blocks)
    ensures forall j :: m.Times(Block(j)) == Monomial(m.s, m.f, multiset{j} + m.blocks)
  {
    assert m.blocks + multiset{} == m.blocks;
    forall j ensures m.Times(Block(j)) == Monomial(m.s, m.f, multiset{j} + m.blocks) {
      assert m.blocks + multiset{j} == multiset{j} + m.blocks;
    }
  }

  type Functional = Monomial -> real

  // ----- sums of terms acting on an expectation

  /** E[m * (t_0 + t_1 + ...)]. */
  function Act(e: Functional, terms: seq<Monomial>, m: Monomial): real {
    if terms == [] then 0.0 else e(m.Times(terms[0])) + Act(e, terms[1..], m)
  }

  function Times(e: Functional, terms: seq<Monomial>): Functional {
    m => Act(e, terms, m)
  }

  /** m => E[m * (t_0 + t_1 + ...)^n]. */
  function Power(e: Functional, terms: seq<Monomial>, n: nat): Functional {
    if n == 0 then e else Times(Power(e, terms, n - 1), terms)
  }

  /** m => E[m * (1 - t_0 - t_1 - ...)^n]. */
  function ComplementPower(e: Functional, terms: seq<Monomial>, n: nat): Functional {
    if n == 0 then
      e
    else
      (m: Monomial) => ComplementPower(e, terms, n - 1)(m) - Act(ComplementPower(e, terms, n - 1), terms, m)
  }

  lemma {:induction false} ActAppend(e: Functional, terms: seq<Monomial>, more: seq<Monomial>, m: Monomial)
    ensures Act(e, terms + more, m) == Act(e, terms, m) + Act(e, more, m)
  {
    if terms == [] {
      assert terms + more == more;
    } else {
      assert (terms + more)[1..] == terms[1..] + more;
      ActAppend(e, terms[1..], more, m);
    }
  }

  lemma {:induction false} ActMonotone(e: Functional, e': Functional, terms: seq<Monomial>, m: Monomial)
    requires forall v :: e(v) <= e'(v)
    ensures Act(e, terms, m) <= Act(e', terms, m)
  {
    if terms != [] { ActMonotone(e, e', terms[1..], m); }
  }

  lemma ActCongruence(e: Functional, e': Functional, terms: seq<Monomial>, m: Monomial)
    requires forall v :: e(v) == e'(v)
    ensures Act(e, terms, m) == Act(e', terms, m)
  {
    ActMonotone(e, e', terms, m);
    ActMonotone(e', e, terms, m);
  }

  lemma {:induction false} ActNonnegative(e: Functional, terms: seq<Monomial>, m: Monomial)
    requires forall v :: e(v) >= 0.0
    ensures Act(e, terms, m) >= 0.0
  {
    if terms != [] { ActNonnegative(e, terms[1..], m); }
  }

  lemma {:induction false} ActLinear(e: Functional, a: Functional, c: real, b: Functional,
                                     terms: seq<Monomial>, m: Monomial)
    requires forall v :: e(v) == a(v) + c * b(v)
    ensures Act(e, terms, m) == Act(a, terms, m) + c * Act(b, terms, m)
  {
    if terms != [] {
      ActLinear(e, a, c, b, terms[1..], m);
      Distribute(c, b(m.Times(terms[0])), Act(b, terms[1..], m), Act(b, terms, m));
    }
  }

  lemma {:induction false} ActShift(e: Functional, terms: seq<Monomial>, m: Monomial, v: Monomial, e': Functional)
    requires forall w :: e'(w) == e(w.Times(v))
    ensures Act(e, terms, m.Times(v)) == Act(e', terms, m)
  {
    if terms != [] {
      ActShift(e, terms[1..], m, v, e');
      TimesLaws(m, terms[0], v);
    }
  }

  /** The order in which two sums of terms act does not matter. */
  lemma {:induction false} ActSwap(e: Functional, terms: seq<Monomial>, others: seq<Monomial>, m: Monomial)
    ensures Act(Times(e, terms), others, m) == Act(Times(e, others), terms, m)
  {
    if terms == [] {
      ActZero(Times(e, terms), others, m);
    } else {
      var t, rest := terms[0], terms[1..];
      ActSwap(e, rest, others, m);
      var head := (v: Monomial) => e(v.Times(t));
      ActLinear(Times(e, terms), head, 1.0, Times(e, rest), others, m);
      ActShift(e, others, m, t, head);
    }
  }

  lemma {:induction false} ActZero(e: Functional, terms: seq<Monomial>, m: Monomial)
    requires forall v :: e(v) == 0.0
    ensures Act(e, terms, m) == 0.0
  {
    if terms != [] { ActZero(e, terms[1..], m); }
  }

  // ----- the binomial expansion of a complement

  function Product(terms: seq<Monomial>): Monomial {
    if terms == [] then UNIT else terms[0].Times(Product(terms[1..]))
  }

  /** The binomial expansion of the complement, cut after `upto` terms. */
  function AlternatingSum(e: Functional, terms: seq<Monomial>, n: nat, upto: nat): Functional {
    if upto == 0 then
      (m: Monomial) => 0.0
    else
      (m: Monomial) =>
        AlternatingSum(e, terms, n, upto - 1)(m)
        + AlternatingCoefficient(n, upto - 1) * Power(e, terms, upto - 1)(m)
  }

  /** (-1)^r C(n, r). */
  function AlternatingCoefficient(n: nat, r: nat): real {
    if r % 2 == 0 then Choose(n, r) as real else -(Choose(n, r) as real)
  }

  lemma AlternatingPascal(n: nat, r: nat)
    requires n > 0
    ensures AlternatingCoefficient(n, 0) == AlternatingCoefficient(n - 1, 0) == 1.0
    ensures r > 0 ==>
      AlternatingCoefficient(n, r) == AlternatingCoefficient(n - 1, r) - AlternatingCoefficient(n - 1, r - 1)
    ensures AlternatingCoefficient(n - 1, n) == 0.0
  {
    ChooseOutside(n - 1, n);
  }

  lemma AlternatingUnfold(e: Functional, terms: seq<Monomial>, n: nat, upto: nat, m: Monomial)
    requires upto > 0
    ensures AlternatingSum(e, terms, n, upto)(m)
         == AlternatingSum(e, terms, n, upto - 1)(m)
          + AlternatingCoefficient(n, upto - 1) * Power(e, terms, upto - 1)(m)
  {
    hide AlternatingCoefficient, Power;
  }

  lemma AlternatingEmpty(e: Functional, terms: seq<Monomial>, n: nat, m: Monomial)
    ensures AlternatingSum(e, terms, n, 0)(m) == 0.0
  {
  }

  lemma PowerUnfold(e: Functional, terms: seq<Monomial>, n: nat, m: Monomial)
    ensures n > 0 ==> Power(e, terms, n)(m) == Act(Power(e, terms, n - 1), terms, m)
    ensures Power(e, terms, 0)(m) == e(m)
  {
  }

  lemma ComplementUnfold(e: Functional, terms: seq<Monomial>, n: nat, m: Monomial)
    ensures n > 0 ==>
              ComplementPower(e, terms, n)(m)
              == ComplementPower(e, terms, n - 1)(m) - Act(ComplementPower(e, terms, n - 1), terms, m)
    ensures ComplementPower(e, terms, 0)(m) == e(m)
  {
    hide Act;
  }

  lemma ActAlternating(e: Functional, terms: seq<Monomial>, n: nat, upto: nat, m: Monomial)
    requires upto > 0
    ensures Act(AlternatingSum(e, terms, n, upto), terms, m)
         == Act(AlternatingSum(e, terms, n, upto - 1), terms, m)
          + AlternatingCoefficient(n, upto - 1) * Power(e, terms, upto)(m)
  {
    hide AlternatingSum, AlternatingCoefficient, Power, Act;
    var c, a := AlternatingCoefficient(n, upto - 1), AlternatingSum(e, terms, n, upto - 1);
    var p := Power(e, terms, upto - 1);
    var s := AlternatingSum(e, terms, n, upto);
    forall v: Monomial ensures s(v) == a(v) + c * p(v) {
      AlternatingUnfold(e, terms, n, upto, v);
    }
    ActLinear(s, a, c, p, terms, m);
    PowerUnfold(e, terms, upto, m);
  }

  lemma {:induction false} AlternatingStep(e: Functional, terms: seq<Monomial>, n: nat, upto: nat, m: Monomial)
    requires n > 0 && upto > 0
    ensures AlternatingSum(e, terms, n, upto)(m)
         == AlternatingSum(e, terms, n - 1, upto)(m) - Act(AlternatingSum(e, terms, n - 1, upto - 1), terms, m)
  {
    hide AlternatingSum, AlternatingCoefficient, Power, Act;
    AlternatingPascal(n, upto - 1);
    AlternatingUnfold(e, terms, n, upto, m);
    AlternatingUnfold(e, terms, n - 1, upto, m);
    if upto == 1 {
      var empty := AlternatingSum(e, terms, n - 1, 0);
      forall v: Monomial ensures empty(v) == 0.0 {
        AlternatingEmpty(e, terms, n - 1, v);
      }
      AlternatingEmpty(e, terms, n, m);
      ActZero(empty, terms, m);
    } else {
      AlternatingStep(e, terms, n, upto - 1, m);
      ActAlternating(e, terms, n - 1, upto - 1, m);
      StepAlgebra(AlternatingCoefficient(n, upto - 1), AlternatingCoefficient(n - 1, upto - 1),
                  AlternatingCoefficient(n - 1, upto - 2), Power(e, terms, upto - 1)(m));
    }
  }

  lemma StepAlgebra(c: real, a: real, b: real, x: real)
    requires c == a - b
    ensures c * x == a * x - b * x
  {
  }

  /** The binomial theorem for expectations: the alternating sum over powers is the expectation of
      the power of the complement. */
  lemma {:induction false} AlternatingIsComplement(e: Functional, terms: seq<Monomial>, n: nat, upto: nat, m: Monomial)
    requires upto > n
    ensures AlternatingSum(e, terms, n, upto)(m) == ComplementPower(e, terms, n)(m)
  {
    hide AlternatingSum, AlternatingCoefficient, Power, Act;
    AlternatingUnfold(e, terms, n, upto, m);
    if upto > n + 1 {
      AlternatingIsComplement(e, terms, n, upto - 1, m);
      AlternatingOutside(n, upto - 1);
    } else if n == 0 {
      AlternatingPascal(1, 0);
      AlternatingEmpty(e, terms, 0, m);
      PowerUnfold(e, terms, 0, m);
    } else {
      var a, c := AlternatingSum(e, terms, n - 1, upto - 1), ComplementPower(e, terms, n - 1);
      AlternatingStep(e, terms, n, upto, m);
      AlternatingIsComplement(e, terms, n - 1, upto, m);
      forall v: Monomial ensures a(v) == c(v) {
        AlternatingIsComplement(e, terms, n - 1, upto - 1, v);
      }
      ActCongruence(a, c, terms, m);
      assert ComplementPower(e, terms, n)(m) == c(m) - Act(c, terms, m);
    }
  }

  lemma AlternatingOutside(n: nat, r: nat)
    requires r > n
    ensures AlternatingCoefficient(n, r) == 0.0
  {
    ChooseOutside(n, r);
  }

  // ----- total probability

  /** pi_lo, ..., pi_(hi-1). */
  function Blocks(lo: nat, hi: nat): seq<Monomial>
    requires lo <= hi
    decreases hi - lo
  {
    if lo == hi then [] else [Block(lo)] + Blocks(lo + 1, hi)
  }

  /** The laws an expectation obeys when alpha and 1-alpha add up to one and so do the shares of
      `categories` execution outcomes. */
  ghost predicate Consistent(e: Functional, categories: nat) {
    && (forall m: Monomial :: e(m) == e(m.Times(DISCOVERY)) + e(m.Times(NO_DISCOVERY)))
    && (forall m: Monomial :: e(m) == Act(e, Blocks(0, categories), m))
  }

  lemma ConsistentAt(e: Functional, categories: nat, m: Monomial)
    requires Consistent(e, categories)
    ensures e(m) == e(m.Times(DISCOVERY)) + e(m.Times(NO_DISCOVERY))
    ensures e(m) == Act(e, Blocks(0, categories), m)
  {
  }

  ghost predicate Nonnegative(e: Functional) {
    forall m: Monomial :: e(m) >= 0.0
  }

  lemma {:induction false} ActTotal(e: Functional, terms: seq<Monomial>, m: Monomial)
    requires forall v: Monomial :: e(v) == e(v.Times(DISCOVERY)) + e(v.Times(NO_DISCOVERY))
    ensures Act(e, terms, m) == Act(e, terms, m.Times(DISCOVERY)) + Act(e, terms, m.Times(NO_DISCOVERY))
  {
    if terms != [] {
      ActTotal(e, terms[1..], m);
      TimesLaws(m, terms[0], DISCOVERY);
      TimesLaws(m, terms[0], NO_DISCOVERY);
    }
  }

  lemma TimesConsistent(e: Functional, terms: seq<Monomial>, categories: nat)
    requires Consistent(e, categories)
    ensures Consistent(Times(e, terms), categories)
  {
    var e' := Times(e, terms);
    forall m: Monomial
      ensures e'(m) == e'(m.Times(DISCOVERY)) + e'(m.Times(NO_DISCOVERY))
      ensures e'(m) == Act(e', Blocks(0, categories), m)
    {
      ActTotal(e, terms, m);
      ActSwap(e, terms, Blocks(0, categories), m);
      ActCongruence(e, Times(e, Blocks(0, categories)), terms, m);
    }
  }

  lemma {:induction false} PowerConsistent(e: Functional, terms: seq<Monomial>, n: nat, categories: nat)
    requires Consistent(e, categories)
    ensures Consistent(Power(e, terms, n), categories)
  {
    hide Consistent;
    if n > 0 {
      PowerConsistent(e, terms, n - 1, categories);
      TimesConsistent(Power(e, terms, n - 1), terms, categories);
    }
  }

  lemma {:induction false} PowerNonnegative(e: Functional, terms: seq<Monomial>, n: nat)
    requires Nonnegative(e)
    ensures Nonnegative(Power(e, terms, n))
  {
    hide Act;
    if n > 0 {
      var p := Power(e, terms, n - 1);
      PowerNonnegative(e, terms, n - 1);
      forall m: Monomial ensures Times(p, terms)(m) >= 0.0 {
        ActNonnegative(p, terms, m);
      }
    }
  }

  // ----- mixtures

  lemma {:induction false} PowerLinear(e: Functional, a: Functional, c: real, b: Functional,
                                       terms: seq<Monomial>, n: nat, m: Monomial)
    requires forall v :: e(v) == a(v) + c * b(v)
    ensures Power(e, terms, n)(m) == Power(a, terms, n)(m) + c * Power(b, terms, n)(m)
  {
    hide Act;
    if n > 0 {
      var e', a', b' := Power(e, terms, n - 1), Power(a, terms, n - 1), Power(b, terms, n - 1);
      forall v: Monomial ensures e'(v) == a'(v) + c * b'(v) {
        PowerLinear(e, a, c, b, terms, n - 1, v);
      }
      ActLinear(e', a', c, b', terms, m);
      PowerUnfold(e, terms, n, m);
      PowerUnfold(a, terms, n, m);
      PowerUnfold(b, terms, n, m);
    }
  }

  lemma {:induction false} AlternatingLinear(e: Functional, a: Functional, c: real, b: Functional,
                                             terms: seq<Monomial>, n: nat, upto: nat, m: Monomial)
    requires forall v :: e(v) == a(v) + c * b(v)
    ensures AlternatingSum(e, terms, n, upto)(m)
         == AlternatingSum(a, terms, n, upto)(m) + c * AlternatingSum(b, terms, n, upto)(m)
  {
    hide AlternatingSum, AlternatingCoefficient, Power;
    if upto == 0 {
      AlternatingEmpty(e, terms, n, m);
      AlternatingEmpty(a, terms, n, m);
      AlternatingEmpty(b, terms, n, m);
    } else {
      AlternatingLinear(e, a, c, b, terms, n, upto - 1, m);
      PowerLinear(e, a, c, b, terms, upto - 1, m);
      AlternatingUnfold(e, terms, n, upto, m);
      AlternatingUnfold(a, terms, n, upto, m);
      AlternatingUnfold(b, terms, n, upto, m);
      MixAlgebra(AlternatingCoefficient(n, upto - 1), c, Power(e, terms, upto - 1)(m), Power(a, terms, upto - 1)(m),
                 Power(b, terms, upto - 1)(m), AlternatingSum(b, terms, n, upto - 1)(m),
                 AlternatingSum(b, terms, n, upto)(m));
    }
  }

  lemma MixAlgebra(k: real, c: real, e: real, a: real, b: real, s: real, s': real)
    requires e == a + c * b && s' == s + k * b
    ensures k * e + c * s == k * a + c * s'
  {
  }
}

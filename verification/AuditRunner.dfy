/** Judging budget checkpoints: every label's solution gets a correctness and a step verdict, and
    identical texts share their verdicts. The record is published after every judgment, so that an
    interrupted audit can be resumed, possibly by another judge. */
module AuditRunner {
  import opened Options

  datatype Stage = Correctness | StepRecognition

  /** A judgment and the judge that made it; only the record of an empty solution has no judge. */
  datatype Verdict = Verdict(content: string, judge: Option<string>)

  datatype Checkpoint = Checkpoint(correctness: Option<Verdict>, step: Option<Verdict>) {
    function Get(s: Stage): Option<Verdict> {
      match s
      case Correctness => correctness
      case StepRecognition => step
    }

    function Put(s: Stage, v: Verdict): Checkpoint {
      match s
      case Correctness => this.(correctness := Some(v))
      case StepRecognition => this.(step := Some(v))
    }

    /** What the record's schema accepts. */
    predicate Valid() {
      || this == EMPTY_RECORD
      || (&& (step.Some? ==> correctness.Some? && step.value.judge.Some?)
          && (correctness.Some? ==> correctness.value.judge.Some?))
    }
  }

  const UNJUDGED := Checkpoint(None, None)

  const EMPTY_RECORD := Checkpoint(
    Some(Verdict("No complete write-up was emitted within the attempt budget.", None)),
    Some(Verdict("empty_solution", None)))

  type Record = map<int, Checkpoint>
  type Solutions = map<int, Option<string>>

  datatype Pair = Pair(text: string, stage: Stage)

  function TextOf(solutions: Solutions, m: int): string
    requires m in solutions
  {
    if solutions[m].None? then "" else solutions[m].value
  }

  predicate AllValid(record: Record) {
    forall m :: m in record ==> record[m].Valid()
  }

  // ----- labels in order

  ghost predicate Ascending(labels: seq<int>) {
    forall i, j :: 0 <= i < j < |labels| ==> labels[i] < labels[j]
  }

  ghost predicate IsLeast(least: int, s: set<int>) {
    least in s && forall x :: x in s ==> least <= x
  }

  lemma {:induction false} LeastExists(s: set<int>, any: int)
    requires any in s
    ensures exists least :: IsLeast(least, s)
  {
    var rest := s - {any};
    forall x | x in s ensures x == any || x in rest {}
    if other :| other in rest {
      LeastExists(rest, other);
      var least :| IsLeast(least, rest);
      assert IsLeast(if least < any then least else any, s);
    } else {
      assert IsLeast(any, s);
    }
  }

  lemma LeastUnlessEmpty(s: set<int>)
    ensures forall any :: any in s ==> exists least :: least in s && forall x :: x in s ==> least <= x
  {
    forall any | any in s ensures exists least :: least in s && forall x :: x in s ==> least <= x {
      LeastExists(s, any);
      var least :| IsLeast(least, s);
    }
  }

  function SortedLabels(s: set<int>): (labels: seq<int>)
    ensures Ascending(labels) && forall m :: m in labels <==> m in s
    decreases |s|
  {
    LeastUnlessEmpty(s);
    if least :| least in s && forall x :: x in s ==> least <= x then [least] + SortedLabels(s - {least})
    else []
  }

  // ----- reusing saved verdicts

  /** A label before reuse: a blank solution has the fixed empty record. */
  function Base(record: Record, solutions: Solutions, m: int): Checkpoint
    requires m in solutions
  {
    if Blank(TextOf(solutions, m)) then EMPTY_RECORD
    else if m in record then record[m] else UNJUDGED
  }

  /** A blank solution with a verdict of its own is an error. */
  predicate Conflict(record: Record, solutions: Solutions, m: int)
    requires m in solutions
  {
    Blank(TextOf(solutions, m)) && m in record && record[m] != UNJUDGED && record[m] != EMPTY_RECORD
  }

  predicate Conflicting(record: Record, solutions: Solutions) {
    exists m :: m in solutions && Conflict(record, solutions, m)
  }

  /** The verdict that the first label with the text supplies. */
  function FirstVerdict(record: Record, solutions: Solutions, labels: seq<int>, text: string, s: Stage): Option<Verdict>
    requires forall m :: m in labels ==> m in solutions
  {
    if labels == [] then None
    else
      var m := labels[|labels| - 1];
      var earlier := FirstVerdict(record, solutions, labels[..|labels| - 1], text, s);
      if earlier.Some? then earlier
      else if TextOf(solutions, m) == text then Base(record, solutions, m).Get(s)
      else None
  }

  function CopyMissing(destination: Checkpoint, source: Checkpoint): Checkpoint {
    Checkpoint(if destination.correctness.Some? then destination.correctness else source.correctness,
               if destination.step.Some? then destination.step else source.step)
  }

  /** The verdicts known for a text. */
  function Known(record: Record, solutions: Solutions, labels: seq<int>, text: string): Checkpoint
    requires forall m :: m in labels ==> m in solutions
  {
    Checkpoint(FirstVerdict(record, solutions, labels, text, Correctness),
               FirstVerdict(record, solutions, labels, text, StepRecognition))
  }

  lemma KnownNone(record: Record, solutions: Solutions, text: string)
    ensures Known(record, solutions, [], text) == UNJUDGED
  {
  }

  lemma KnownNext(record: Record, solutions: Solutions, labels: seq<int>, i: nat, text: string)
    requires i < |labels| && forall m :: m in labels ==> m in solutions
    ensures Known(record, solutions, labels[..i + 1], text)
         == if TextOf(solutions, labels[i]) != text then Known(record, solutions, labels[..i], text)
            else CopyMissing(Known(record, solutions, labels[..i], text), Base(record, solutions, labels[i]))
  {
    assert labels[..i + 1][..i] == labels[..i];
  }

  /** A label with its missing stages taken from the verdicts known for its text. */
  function Filled(record: Record, solutions: Solutions, labels: seq<int>, m: int): Checkpoint
    requires m in solutions && forall n :: n in labels ==> n in solutions
  {
    CopyMissing(Base(record, solutions, m), Known(record, solutions, labels, TextOf(solutions, m)))
  }

  /** The record held in memory. */
  class AuditRecord {
    var checkpoints: Record

    constructor (checkpoints: Record)
      ensures this.checkpoints == checkpoints
    {
      this.checkpoints := checkpoints;
    }
  }

  /** The record with every label present and blank solutions settled. */
  function Based(record: Record, solutions: Solutions, labels: seq<int>): Record
    requires forall m :: m in labels ==> m in solutions
  {
    record + map m | m in labels :: Base(record, solutions, m)
  }

  /** Settles blank solutions and indexes the verdicts known for each exact text. */
  method IndexVerdicts(record: AuditRecord, solutions: Solutions, labels: seq<int>)
      returns (ok: bool, saved: map<string, Checkpoint>)
    requires Ascending(labels) && forall m :: m in labels <==> m in solutions
    modifies record
    ensures ok <==> !Conflicting(old(record.checkpoints), solutions)
    ensures ok ==> record.checkpoints == Based(old(record.checkpoints), solutions, labels)
    ensures ok ==> forall m :: m in labels ==>
      TextOf(solutions, m) in saved
        && saved[TextOf(solutions, m)] == Known(old(record.checkpoints), solutions, labels, TextOf(solutions, m))
  {
    hide Blank, Known, CopyMissing, Based, Base, Conflict, TextOf;
    ghost var before := record.checkpoints;
    saved := map[];
    BasedNone(before, solutions);
    forall t ensures Known(before, solutions, labels[..0], t) == UNJUDGED { KnownNone(before, solutions, t); }
    for i := 0 to |labels|
      invariant forall j :: 0 <= j < i ==> !Conflict(before, solutions, labels[j])
      invariant record.checkpoints == Based(before, solutions, labels[..i])
      invariant forall j :: i <= j < |labels| ==> (labels[j] in record.checkpoints <==> labels[j] in before)
      invariant forall j :: i <= j < |labels| && labels[j] in before ==>
        record.checkpoints[labels[j]] == before[labels[j]]
      invariant forall j :: 0 <= j < i ==> TextOf(solutions, labels[j]) in saved
      invariant forall t :: Known(before, solutions, labels[..i], t) == if t in saved then saved[t] else UNJUDGED
    {
      var m := labels[i];
      forall t { KnownNext(before, solutions, labels, i, t); }
      var text := TextOf(solutions, m);
      var checkpoint := if m in record.checkpoints then record.checkpoints[m] else UNJUDGED;
      BaseOf(before, solutions, m);
      if Blank(text) {
        if checkpoint != UNJUDGED && checkpoint != EMPTY_RECORD { return false, saved; }
        checkpoint := EMPTY_RECORD;
      }
      assert checkpoint == Base(before, solutions, m);
      BasedNext(before, solutions, labels, i);
      record.checkpoints := record.checkpoints[m := checkpoint];
      var cached := if text in saved then saved[text] else UNJUDGED;
      saved := saved[text := CopyMissing(cached, checkpoint)];
    }
    assert labels[..|labels|] == labels;
    ok := true;
  }

  lemma BaseOf(record: Record, solutions: Solutions, m: int)
    requires m in solutions
    ensures var c := if m in record then record[m] else UNJUDGED;
      && (Conflict(record, solutions, m) <==> Blank(TextOf(solutions, m)) && c != UNJUDGED && c != EMPTY_RECORD)
      && Base(record, solutions, m) == if Blank(TextOf(solutions, m)) then EMPTY_RECORD else c
  {
  }

  lemma BasedNone(record: Record, solutions: Solutions)
    ensures Based(record, solutions, []) == record
  {
  }

  lemma BasedNext(record: Record, solutions: Solutions, labels: seq<int>, i: nat)
    requires i < |labels| && forall m :: m in labels ==> m in solutions
    ensures Based(record, solutions, labels[..i + 1])
         == Based(record, solutions, labels[..i])[labels[i] := Base(record, solutions, labels[i])]
  {
    hide Base;
    assert labels[..i + 1] == labels[..i] + [labels[i]];
  }

  /** The based record with the first labels filled. */
  function FilledUpTo(record: Record, solutions: Solutions, labels: seq<int>, n: nat): Record
    requires n <= |labels| && forall m :: m in labels ==> m in solutions
  {
    Based(record, solutions, labels) + map m | m in labels[..n] :: Filled(record, solutions, labels, m)
  }

  lemma BasedAt(record: Record, solutions: Solutions, labels: seq<int>)
    requires forall m :: m in labels ==> m in solutions
    ensures Based(record, solutions, labels).Keys == record.Keys + set m | m in labels
    ensures forall m :: m in labels ==> Based(record, solutions, labels)[m] == Base(record, solutions, m)
    ensures forall m :: m in record && m !in labels ==> Based(record, solutions, labels)[m] == record[m]
  {
    hide Base;
  }

  lemma FilledNext(record: Record, solutions: Solutions, labels: seq<int>, n: nat)
    requires n < |labels| && labels[n] !in labels[..n] && forall m :: m in labels ==> m in solutions
    ensures var m, before := labels[n], FilledUpTo(record, solutions, labels, n);
      && m in before
      && FilledUpTo(record, solutions, labels, n + 1)
         == before[m := CopyMissing(before[m], Known(record, solutions, labels, TextOf(solutions, m)))]
  {
    hide Base, Known, CopyMissing, TextOf, Based;
    BasedAt(record, solutions, labels);
    var m, before := labels[n], FilledUpTo(record, solutions, labels, n);
    assert labels[..n + 1] == labels[..n] + [m];
    assert before[m] == Base(record, solutions, m);
  }

  lemma FilledNone(record: Record, solutions: Solutions, labels: seq<int>)
    requires forall m :: m in labels ==> m in solutions
    ensures FilledUpTo(record, solutions, labels, 0) == Based(record, solutions, labels)
  {
    hide Filled, Based;
    assert labels[..0] == [];
  }

  lemma ReusedIsFilled(record: Record, solutions: Solutions)
    ensures var labels := SortedLabels(solutions.Keys);
      Reused(record, solutions) == FilledUpTo(record, solutions, labels, |labels|)
  {
  }

  /** The record after reuse: every label has its missing stages filled. */
  function Reused(record: Record, solutions: Solutions): Record {
    var labels := SortedLabels(solutions.Keys);
    FilledUpTo(record, solutions, labels, |labels|)
  }

  /** First every label feeds the index by its text, then every label is filled from it. */
  method ReuseSavedVerdicts(record: AuditRecord, solutions: Solutions) returns (ok: bool)
    modifies record
    ensures ok <==> !Conflicting(old(record.checkpoints), solutions)
    ensures ok ==> record.checkpoints == Reused(old(record.checkpoints), solutions)
  {
    hide Blank, SortedLabels, Known, CopyMissing, Base, Based, Filled, FilledUpTo, Reused, TextOf, Conflicting;
    ghost var before := record.checkpoints;
    var labels := SortedLabels(solutions.Keys);
    var saved;
    ok, saved := IndexVerdicts(record, solutions, labels);
    if !ok { return; }
    FilledNone(before, solutions, labels);
    for i := 0 to |labels|
      invariant record.checkpoints == FilledUpTo(before, solutions, labels, i)
    {
      var m := labels[i];
      assert m !in labels[..i];
      FilledNext(before, solutions, labels, i);
      record.checkpoints := record.checkpoints[m := CopyMissing(record.checkpoints[m], saved[TextOf(solutions, m)])];
    }
    assert record.checkpoints == Reused(before, solutions) by { ReusedIsFilled(before, solutions); }
  }

  // ----- what reuse guarantees

  /** Identical texts have identical completed stages, and blank solutions are settled. */
  ghost predicate Closed(record: Record, solutions: Solutions) {
    && record.Keys == solutions.Keys
    && (forall m :: m in solutions && Blank(TextOf(solutions, m)) ==> record[m] == EMPTY_RECORD)
    && (forall m, n, s: Stage :: m in solutions && n in solutions && TextOf(solutions, m) == TextOf(solutions, n) ==>
          (record[m].Get(s).Some? <==> record[n].Get(s).Some?))
  }

  /** A text's verdict is one that a label with the text has, and there is one if any label has one. */
  lemma {:induction false} FirstVerdictOf(record: Record, solutions: Solutions, labels: seq<int>, text: string,
                                          s: Stage)
    requires forall m :: m in labels ==> m in solutions
    ensures var v := FirstVerdict(record, solutions, labels, text, s);
      && (v.Some? ==> exists m :: m in labels && TextOf(solutions, m) == text && Base(record, solutions, m).Get(s) == v)
      && (v.None? ==> forall m :: m in labels && TextOf(solutions, m) == text ==>
            Base(record, solutions, m).Get(s).None?)
  {
    hide Base, TextOf;
    if labels != [] {
      var rest, m := labels[..|labels| - 1], labels[|labels| - 1];
      assert labels == rest + [m];
      FirstVerdictOf(record, solutions, rest, text, s);
      var v := FirstVerdict(record, solutions, labels, text, s);
      if v.Some? && FirstVerdict(record, solutions, rest, text, s).Some? {
        var n :| n in rest && TextOf(solutions, n) == text && Base(record, solutions, n).Get(s) == v;
        assert n in labels;
      } else if v.Some? {
        assert m in labels;
      }
    }
  }

  lemma ReusedKeys(record: Record, solutions: Solutions)
    ensures Reused(record, solutions).Keys == record.Keys + solutions.Keys
    ensures forall m :: m in record && m !in solutions ==> Reused(record, solutions)[m] == record[m]
    ensures forall m :: m in solutions ==>
      Reused(record, solutions)[m] == Filled(record, solutions, SortedLabels(solutions.Keys), m)
  {
    hide Filled, Based, SortedLabels;
    var labels := SortedLabels(solutions.Keys);
    BasedAt(record, solutions, labels);
    assert labels[..|labels|] == labels;
  }

  lemma ReusedAt(record: Record, solutions: Solutions, m: int, s: Stage)
    requires m in solutions
    ensures m in Reused(record, solutions)
    ensures var b, r := Base(record, solutions, m).Get(s), Reused(record, solutions)[m].Get(s);
      && (b.Some? ==> r == b)
      && (b.None? ==> r == FirstVerdict(record, solutions, SortedLabels(solutions.Keys), TextOf(solutions, m), s))
  {
    hide Reused, SortedLabels, FirstVerdict, Base;
    ReusedKeys(record, solutions);
  }

  /** Some label with the text has this verdict for the stage. */
  ghost predicate Supplied(record: Record, solutions: Solutions, text: string, s: Stage, v: Option<Verdict>) {
    exists n :: n in solutions && TextOf(solutions, n) == text && Base(record, solutions, n).Get(s) == v
  }

  ghost predicate SuppliedAtAll(record: Record, solutions: Solutions, text: string, s: Stage) {
    exists n :: n in solutions && TextOf(solutions, n) == text && Base(record, solutions, n).Get(s).Some?
  }

  lemma ReusedFrom(record: Record, solutions: Solutions, m: int, s: Stage)
    requires m in solutions
    ensures m in Reused(record, solutions)
    ensures var v := Reused(record, solutions)[m].Get(s);
      && (v.Some? <==> SuppliedAtAll(record, solutions, TextOf(solutions, m), s))
      && (v.Some? ==> Supplied(record, solutions, TextOf(solutions, m), s, v))
  {
    hide SortedLabels, FirstVerdict, Base, Reused;
    ReusedAt(record, solutions, m, s);
    FirstVerdictOf(record, solutions, SortedLabels(solutions.Keys), TextOf(solutions, m), s);
  }

  lemma ReuseKeeps(record: Record, solutions: Solutions, m: int, s: Stage)
    requires !Conflicting(record, solutions) && m in record && record[m].Get(s).Some?
    ensures m in Reused(record, solutions) && Reused(record, solutions)[m].Get(s) == record[m].Get(s)
  {
    hide SortedLabels, FirstVerdict, Reused, Blank;
    ReusedKeys(record, solutions);
    if m in solutions {
      ReusedAt(record, solutions, m, s);
      assert !Conflict(record, solutions, m);
    }
  }

  lemma BlankIsSettled(record: Record, solutions: Solutions, m: int)
    requires m in solutions && Blank(TextOf(solutions, m))
    ensures m in Reused(record, solutions) && Reused(record, solutions)[m] == EMPTY_RECORD
  {
    hide SortedLabels, FirstVerdict, Reused, Blank;
    ReusedAt(record, solutions, m, Correctness);
    ReusedAt(record, solutions, m, StepRecognition);
  }

  /** Reuse keeps every verdict with its judge, takes new ones only from a label with the same text,
      and leaves identical texts with identical completed stages. */
  lemma ReuseIsExact(record: Record, solutions: Solutions)
    requires !Conflicting(record, solutions)
    ensures var after := Reused(record, solutions);
      && (forall m, s: Stage :: m in record && record[m].Get(s).Some? ==>
            m in after && after[m].Get(s) == record[m].Get(s))
      && (forall m, s: Stage :: m in solutions && after[m].Get(s).Some? ==>
            Supplied(record, solutions, TextOf(solutions, m), s, after[m].Get(s)))
      && (record.Keys <= solutions.Keys ==> Closed(after, solutions))
  {
    hide SortedLabels, FirstVerdict, Reused, Blank, Base, TextOf, Conflicting, Supplied, SuppliedAtAll;
    var after := Reused(record, solutions);
    ReusedKeys(record, solutions);
    forall m, s: Stage | m in record && record[m].Get(s).Some?
      ensures m in after && after[m].Get(s) == record[m].Get(s) {
      ReuseKeeps(record, solutions, m, s);
    }
    forall m, s: Stage | m in solutions
      ensures after[m].Get(s).Some? <==> SuppliedAtAll(record, solutions, TextOf(solutions, m), s)
      ensures after[m].Get(s).Some? ==> Supplied(record, solutions, TextOf(solutions, m), s, after[m].Get(s))
    {
      ReusedFrom(record, solutions, m, s);
    }
    forall m | m in solutions && Blank(TextOf(solutions, m)) ensures after[m] == EMPTY_RECORD {
      BlankIsSettled(record, solutions, m);
    }
  }

  lemma ClosedAt(record: Record, solutions: Solutions, m: int, s: Stage)
    requires Closed(record, solutions) && m in solutions
    ensures m in Reused(record, solutions) && Reused(record, solutions)[m].Get(s) == record[m].Get(s)
  {
    hide Blank, SortedLabels, FirstVerdict, Reused;
    ReusedAt(record, solutions, m, s);
    FirstVerdictOf(record, solutions, SortedLabels(solutions.Keys), TextOf(solutions, m), s);
  }

  /** On a closed record there is nothing to reuse. */
  lemma ClosedIsReused(record: Record, solutions: Solutions)
    requires Closed(record, solutions)
    ensures Reused(record, solutions) == record && !Conflicting(record, solutions)
  {
    hide Blank, SortedLabels, FirstVerdict, Reused;
    ReusedKeys(record, solutions);
    var after := Reused(record, solutions);
    forall m | m in solutions ensures after[m] == record[m] {
      ClosedAt(record, solutions, m, Correctness);
      ClosedAt(record, solutions, m, StepRecognition);
      assert after[m].correctness == after[m].Get(Correctness) && after[m].step == after[m].Get(StepRecognition);
    }
  }

  lemma ReuseIsIdempotent(record: Record, solutions: Solutions)
    requires !Conflicting(record, solutions) && record.Keys <= solutions.Keys
    ensures Reused(Reused(record, solutions), solutions) == Reused(record, solutions)
  {
    hide *;
    ReuseIsExact(record, solutions);
    ClosedIsReused(Reused(record, solutions), solutions);
  }

  /** Every verdict for a solution with text was given by a judge. */
  ghost predicate Judged(record: Record, solutions: Solutions) {
    AllValid(record) && forall m :: m in record && m in solutions && !Blank(TextOf(solutions, m)) ==>
      record[m] != EMPTY_RECORD
  }

  /** The first label with the text that has a verdict supplies it. */
  lemma {:induction false} FirstLabel(record: Record, solutions: Solutions, labels: seq<int>, text: string, s: Stage)
      returns (i: nat)
    requires (forall m :: m in labels ==> m in solutions) && FirstVerdict(record, solutions, labels, text, s).Some?
    ensures i < |labels| && TextOf(solutions, labels[i]) == text
    ensures Base(record, solutions, labels[i]).Get(s) == FirstVerdict(record, solutions, labels, text, s)
    ensures forall j :: 0 <= j < i && TextOf(solutions, labels[j]) == text ==>
      Base(record, solutions, labels[j]).Get(s).None?
  {
    hide Base, TextOf;
    var n := |labels| - 1;
    if FirstVerdict(record, solutions, labels[..n], text, s).Some? {
      i := FirstLabel(record, solutions, labels[..n], text, s);
    } else {
      FirstVerdictOf(record, solutions, labels[..n], text, s);
      i := n;
      forall j | 0 <= j < n && TextOf(solutions, labels[j]) == text
        ensures Base(record, solutions, labels[j]).Get(s).None? {
        assert labels[..n][j] == labels[j];
      }
    }
  }

  /** A judged correctness verdict still lacks its step, and the first step verdict known for its text
      is that of an empty solution. */
  predicate Mixes(record: Record, solutions: Solutions, m: int)
    requires m in solutions
  {
    && !Blank(TextOf(solutions, m)) && m in record && record[m].correctness.Some? && record[m].step.None?
    && var first := FirstVerdict(record, solutions, SortedLabels(solutions.Keys), TextOf(solutions, m),
                                 StepRecognition);
       first.Some? && first.value.judge.None?
  }

  /** The reused record can be written, so that in particular no step verdict lacks its correctness
      verdict, if and only if no label mixes the two kinds of verdict. */
  lemma ReuseIsValid(record: Record, solutions: Solutions)
    requires AllValid(record) && !Conflicting(record, solutions)
    ensures AllValid(Reused(record, solutions)) <==> forall m :: m in solutions ==> !Mixes(record, solutions, m)
  {
    hide Blank, SortedLabels, FirstVerdict, Reused, Mixes, Conflicting;
    ReusedKeys(record, solutions);
    var after := Reused(record, solutions);
    if forall m :: m in solutions ==> !Mixes(record, solutions, m) {
      forall m | m in after ensures after[m].Valid() {
        if m in solutions { UnmixedLabel(record, solutions, m); }
      }
    } else {
      var m :| m in solutions && Mixes(record, solutions, m);
      MixedLabel(record, solutions, m);
    }
  }

  lemma MixedLabel(record: Record, solutions: Solutions, m: int)
    requires AllValid(record) && m in solutions && Mixes(record, solutions, m)
    ensures m in Reused(record, solutions) && !Reused(record, solutions)[m].Valid()
  {
    hide Blank, SortedLabels, FirstVerdict, Reused;
    ReusedAt(record, solutions, m, Correctness);
    ReusedAt(record, solutions, m, StepRecognition);
    var c := Reused(record, solutions)[m];
    assert c.Get(Correctness) == c.correctness && c.Get(StepRecognition) == c.step;
    assert record[m].Get(Correctness).Some? && record[m].Get(StepRecognition).None?;
  }

  lemma UnmixedLabel(record: Record, solutions: Solutions, m: int)
    requires AllValid(record) && m in solutions
    requires forall n :: n in solutions ==> !Mixes(record, solutions, n)
    ensures m in Reused(record, solutions) && Reused(record, solutions)[m].Valid()
  {
    hide Blank, SortedLabels, FirstVerdict, Reused, Mixes;
    ReusedAt(record, solutions, m, Correctness);
    ReusedAt(record, solutions, m, StepRecognition);
    var text, labels := TextOf(solutions, m), SortedLabels(solutions.Keys);
    var b, c := Base(record, solutions, m), Reused(record, solutions)[m];
    assert c.Get(Correctness) == c.correctness && c.Get(StepRecognition) == c.step;
    assert b.Get(Correctness) == b.correctness && b.Get(StepRecognition) == b.step;
    if !Blank(text) {
      BaseIsValid(record, solutions, m);
      if b.correctness.Some? && b.step.None? {
        NotMixed(record, solutions, m);
      } else if b.correctness.None? {
        var first, second := FirstVerdict(record, solutions, labels, text, Correctness),
                             FirstVerdict(record, solutions, labels, text, StepRecognition);
        FirstsFit(record, solutions, labels, text);
        assert c == Checkpoint(first, second);
      }
    }
  }

  lemma NotMixed(record: Record, solutions: Solutions, m: int)
    requires m in solutions && !Mixes(record, solutions, m) && !Blank(TextOf(solutions, m))
    requires m in record && record[m].correctness.Some? && record[m].step.None?
    ensures var first := FirstVerdict(record, solutions, SortedLabels(solutions.Keys), TextOf(solutions, m),
                                      StepRecognition);
      first.Some? ==> first.value.judge.Some?
  {
    hide Blank, SortedLabels, FirstVerdict;
  }

  lemma BaseIsValid(record: Record, solutions: Solutions, m: int)
    requires AllValid(record) && m in solutions
    ensures Base(record, solutions, m).Valid()
    ensures Base(record, solutions, m) != UNJUDGED && !Blank(TextOf(solutions, m)) ==>
      m in record && record[m] == Base(record, solutions, m)
  {
    hide Blank;
  }

  /** The first verdicts known for a text make up a record that can be written. */
  lemma FirstsFit(record: Record, solutions: Solutions, labels: seq<int>, text: string)
    requires AllValid(record) && !Blank(text) && labels == SortedLabels(solutions.Keys)
    requires forall n :: n in solutions ==> !Mixes(record, solutions, n)
    ensures Checkpoint(FirstVerdict(record, solutions, labels, text, Correctness),
                       FirstVerdict(record, solutions, labels, text, StepRecognition)).Valid()
  {
    hide Blank, SortedLabels, FirstVerdict, Mixes, Base;
    var first, second := FirstVerdict(record, solutions, labels, text, Correctness),
                         FirstVerdict(record, solutions, labels, text, StepRecognition);
    if second.Some? {
      var n := FirstLabel(record, solutions, labels, text, StepRecognition);
      BaseIsValid(record, solutions, labels[n]);
      FirstVerdictOf(record, solutions, labels, text, Correctness);
      assert Base(record, solutions, labels[n]).Get(Correctness).Some?;
      var k := FirstLabel(record, solutions, labels, text, Correctness);
      BaseIsValid(record, solutions, labels[k]);
      if k < n {
        assert Base(record, solutions, labels[k]).Get(StepRecognition).None?;
        NotMixed(record, solutions, labels[k]);
      }
    } else if first.Some? {
      var k := FirstLabel(record, solutions, labels, text, Correctness);
      BaseIsValid(record, solutions, labels[k]);
      FirstVerdictOf(record, solutions, labels, text, StepRecognition);
      assert Base(record, solutions, labels[k]).Get(StepRecognition).None?;
    }
  }

  /** In particular, reuse keeps verdicts judged: a solution with text never receives the record of an
      empty one unless some label with text has it already. */
  lemma ReuseStaysJudged(record: Record, solutions: Solutions)
    requires Judged(record, solutions) && !Conflicting(record, solutions)
    ensures Judged(Reused(record, solutions), solutions)
  {
    hide Blank, SortedLabels, FirstVerdict;
    ReuseIsExact(record, solutions);
    var after := Reused(record, solutions);
    forall m | m in after
      ensures after[m].Valid() && (m in solutions && !Blank(TextOf(solutions, m)) ==> after[m] != EMPTY_RECORD)
    {
      if m !in solutions {
        assert after[m] == record[m];
      } else if Blank(TextOf(solutions, m)) {
        ReusedAt(record, solutions, m, Correctness);
        ReusedAt(record, solutions, m, StepRecognition);
      } else {
        ValidLabel(record, solutions, m);
      }
    }
  }

  lemma ValidLabel(record: Record, solutions: Solutions, m: int)
    requires Judged(record, solutions) && !Conflicting(record, solutions) && m in solutions
    requires !Blank(TextOf(solutions, m))
    ensures m in Reused(record, solutions) && Reused(record, solutions)[m].Valid()
    ensures Reused(record, solutions)[m] != EMPTY_RECORD
  {
    hide Blank, SortedLabels, FirstVerdict, Reused, Judged, Conflicting;
    ReusedAt(record, solutions, m, Correctness);
    ReusedAt(record, solutions, m, StepRecognition);
    var c := Reused(record, solutions)[m];
    if c.correctness.Some? { SourceOf(record, solutions, m, Correctness); }
    if c.step.Some? { SourceOf(record, solutions, m, StepRecognition); }
    assert c.Get(Correctness) == c.correctness && c.Get(StepRecognition) == c.step;
  }

  /** Where a verdict for a text comes from, and that a step verdict brings a correctness verdict. */
  lemma SourceOf(record: Record, solutions: Solutions, m: int, s: Stage)
    requires Judged(record, solutions) && !Conflicting(record, solutions) && m in solutions
    requires !Blank(TextOf(solutions, m))
    requires m in Reused(record, solutions) && Reused(record, solutions)[m].Get(s).Some?
    ensures Reused(record, solutions)[m].Get(s).value.judge.Some? && Reused(record, solutions)[m].correctness.Some?
  {
    hide Blank, SortedLabels, FirstVerdict, Reused, Conflicting;
    ReusedAt(record, solutions, m, s);
    ReusedAt(record, solutions, m, Correctness);
    FirstVerdictOf(record, solutions, SortedLabels(solutions.Keys), TextOf(solutions, m), s);
    FirstVerdictOf(record, solutions, SortedLabels(solutions.Keys), TextOf(solutions, m), Correctness);
    var v := Reused(record, solutions)[m].Get(s);
    var n :| n in solutions && TextOf(solutions, n) == TextOf(solutions, m) && Base(record, solutions, n).Get(s) == v;
    assert n in record && Base(record, solutions, n) == record[n] && record[n].Valid();
    assert record[n].Get(Correctness).Some?;
  }

  // ----- judging what is missing

  /** One more judgment, given to every label with the text that lacks the stage. */
  function FillPair(record: Record, solutions: Solutions, pair: Pair, v: Verdict): Record {
    map m | m in record ::
      if m in solutions && TextOf(solutions, m) == pair.text && record[m].Get(pair.stage).None?
      then record[m].Put(pair.stage, v) else record[m]
  }

  /** The record after the judge's first results, in the order of the pairs asked. */
  function After(record: Record, solutions: Solutions, asked: seq<Pair>, judge: string, results: seq<string>): Record
    requires |asked| <= |results|
  {
    if asked == [] then record
    else FillPair(After(record, solutions, asked[..|asked| - 1], judge, results), solutions, asked[|asked| - 1],
                  Verdict(results[|asked| - 1], Some(judge)))
  }

  function WithMissing(pairs: seq<Pair>, record: Record, solutions: Solutions, m: int, s: Stage): seq<Pair>
    requires m in record && m in solutions
  {
    var pair := Pair(TextOf(solutions, m), s);
    if record[m].Get(s).Some? || pair in pairs then pairs else pairs + [pair]
  }

  /** The distinct texts and stages without a verdict, in label order, correctness first. */
  function Pending(record: Record, solutions: Solutions, labels: seq<int>): seq<Pair>
    requires forall m :: m in labels ==> m in record && m in solutions
  {
    if labels == [] then []
    else
      var m := labels[|labels| - 1];
      WithMissing(WithMissing(Pending(record, solutions, labels[..|labels| - 1]), record, solutions, m, Correctness),
                  record, solutions, m, StepRecognition)
  }

  /** Putting a judgment on one label and reusing it elsewhere is the same as giving it to every
      label with that text. */
  lemma JudgmentSpreads(record: Record, solutions: Solutions, m: int, s: Stage, v: Verdict)
    requires Closed(record, solutions) && m in solutions && record[m].Get(s).None?
    ensures var judged := record[m := record[m].Put(s, v)];
      && !Conflicting(judged, solutions)
      && Reused(judged, solutions) == FillPair(record, solutions, Pair(TextOf(solutions, m), s), v)
      && Closed(Reused(judged, solutions), solutions)
  {
    hide Blank, SortedLabels, FirstVerdict, Reused;
    var judged, text := record[m := record[m].Put(s, v)], TextOf(solutions, m);
    assert !Blank(text);
    var after, filled := Reused(judged, solutions), FillPair(record, solutions, Pair(text, s), v);
    ReuseIsExact(judged, solutions);
    forall n | n in solutions ensures after[n] == filled[n] {
      SpreadAt(record, solutions, m, s, v, n, Correctness);
      SpreadAt(record, solutions, m, s, v, n, StepRecognition);
      assert after[n].correctness == after[n].Get(Correctness) && after[n].step == after[n].Get(StepRecognition);
      assert filled[n].correctness == filled[n].Get(Correctness) && filled[n].step == filled[n].Get(StepRecognition);
    }
    assert after.Keys == filled.Keys;
  }

  lemma SpreadAt(record: Record, solutions: Solutions, m: int, s: Stage, v: Verdict, n: int, s': Stage)
    requires Closed(record, solutions) && m in solutions && n in solutions && record[m].Get(s).None?
    ensures var judged := record[m := record[m].Put(s, v)];
      && n in Reused(judged, solutions)
      && Reused(judged, solutions)[n].Get(s')
           == FillPair(record, solutions, Pair(TextOf(solutions, m), s), v)[n].Get(s')
  {
    hide Blank, SortedLabels, FirstVerdict, Reused;
    var judged := record[m := record[m].Put(s, v)];
    ReusedAt(judged, solutions, n, s');
    FirstVerdictOf(judged, solutions, SortedLabels(solutions.Keys), TextOf(solutions, n), s');
  }

  lemma FillKeepsJudged(record: Record, solutions: Solutions, pair: Pair, v: Verdict)
    requires Closed(record, solutions) && AllValid(record) && v.judge.Some?
    requires pair.stage == StepRecognition ==>
      forall m :: m in solutions && TextOf(solutions, m) == pair.text ==> record[m].correctness.Some?
    ensures AllValid(FillPair(record, solutions, pair, v))
  {
    hide Blank;
  }

  // ----- the record after some judgments

  ghost predicate Distinct(pairs: seq<Pair>) {
    forall i, j :: 0 <= i < j < |pairs| ==> pairs[i] != pairs[j]
  }

  lemma {:induction false} PendingIsDistinct(record: Record, solutions: Solutions, labels: seq<int>)
    requires forall m :: m in labels ==> m in record && m in solutions
    ensures Distinct(Pending(record, solutions, labels))
  {
    if labels != [] { PendingIsDistinct(record, solutions, labels[..|labels| - 1]); }
  }

  /** Exactly the pairs that some label lacks are pending. */
  lemma {:induction false} PendingIsMissing(record: Record, solutions: Solutions, labels: seq<int>, pair: Pair)
    requires Closed(record, solutions) && forall m :: m in labels ==> m in solutions
    ensures pair in Pending(record, solutions, labels) <==>
      exists m :: m in labels && TextOf(solutions, m) == pair.text && record[m].Get(pair.stage).None?
  {
    hide Blank, TextOf;
    if labels != [] {
      var rest, m := labels[..|labels| - 1], labels[|labels| - 1];
      assert labels == rest + [m];
      PendingIsMissing(record, solutions, rest, pair);
      assert m in labels;
      var lacks := TextOf(solutions, m) == pair.text && record[m].Get(pair.stage).None?;
      assert pair in Pending(record, solutions, labels) <==> pair in Pending(record, solutions, rest) || lacks;
      if n :| n in rest && TextOf(solutions, n) == pair.text && record[n].Get(pair.stage).None? { assert n in labels; }
    }
  }

  lemma FillAt(record: Record, solutions: Solutions, pair: Pair, v: Verdict, m: int, s: Stage)
    requires m in record && m in solutions
    ensures var filled := FillPair(record, solutions, pair, v);
      && filled.Keys == record.Keys
      && filled[m].Get(s)
         == if record[m].Get(s).None? && pair == Pair(TextOf(solutions, m), s) then Some(v) else record[m].Get(s)
  {
  }

  /** A saved verdict stays; any other stage has a verdict exactly if its pair was asked, namely the
      present judge's result for that pair. */
  lemma {:induction false} AfterAt(record: Record, solutions: Solutions, asked: seq<Pair>, judge: string,
                                   results: seq<string>, m: int, s: Stage)
    requires Closed(record, solutions) && |asked| <= |results| && m in solutions && Distinct(asked)
    ensures var after, pair := After(record, solutions, asked, judge, results), Pair(TextOf(solutions, m), s);
      && after.Keys == record.Keys
      && (record[m].Get(s).Some? ==> after[m].Get(s) == record[m].Get(s))
      && (record[m].Get(s).None? && pair !in asked ==> after[m].Get(s).None?)
      && (forall i :: 0 <= i < |asked| && asked[i] == pair && record[m].Get(s).None? ==>
            after[m].Get(s) == Some(Verdict(results[i], Some(judge))))
  {
    hide Closed, TextOf, FillPair;
    assert m in record by { InRecord(record, solutions, m); }
    if asked != [] {
      AfterAt(record, solutions, asked[..|asked| - 1], judge, results, m, s);
      FillAt(After(record, solutions, asked[..|asked| - 1], judge, results), solutions, asked[|asked| - 1],
             Verdict(results[|asked| - 1], Some(judge)), m, s);
      assert asked == asked[..|asked| - 1] + [asked[|asked| - 1]];
    }
  }

  lemma InRecord(record: Record, solutions: Solutions, m: int)
    requires Closed(record, solutions) && m in solutions
    ensures m in record
  {
  }

  lemma AfterIsClosed(record: Record, solutions: Solutions, asked: seq<Pair>, judge: string, results: seq<string>)
    requires Closed(record, solutions) && |asked| <= |results| && Distinct(asked)
    ensures Closed(After(record, solutions, asked, judge, results), solutions)
  {
    hide Blank, After;
    var after := After(record, solutions, asked, judge, results);
    AfterKeys(record, solutions, asked, judge, results);
    forall m, s: Stage | m in solutions
      ensures after[m].Get(s).Some? <==> record[m].Get(s).Some? || Pair(TextOf(solutions, m), s) in asked
      ensures record[m].Get(s).Some? ==> after[m].Get(s) == record[m].Get(s)
    {
      AfterAt(record, solutions, asked, judge, results, m, s);
    }
    forall m | m in solutions && Blank(TextOf(solutions, m)) ensures after[m] == EMPTY_RECORD {
      assert record[m].Get(Correctness).Some? && record[m].Get(StepRecognition).Some?;
      assert after[m].correctness == after[m].Get(Correctness) && after[m].step == after[m].Get(StepRecognition);
    }
  }

  lemma {:induction false} AfterKeys(record: Record, solutions: Solutions, asked: seq<Pair>, judge: string,
                                     results: seq<string>)
    requires |asked| <= |results|
    ensures After(record, solutions, asked, judge, results).Keys == record.Keys
  {
    if asked != [] { AfterKeys(record, solutions, asked[..|asked| - 1], judge, results); }
  }

  // ----- preparing and running

  /** The published record of one seed. */
  class AuditDirectory {
    var saved: Record

    constructor (saved: Record)
      ensures this.saved == saved
    {
      this.saved := saved;
    }

    /** Replaces the record; the writer refuses one its schema does not accept. */
    method WriteAudit(record: AuditRecord) returns (ok: bool)
      modifies this
      ensures ok <==> AllValid(record.checkpoints)
      ensures saved == if ok then record.checkpoints else old(saved)
    {
      ok := AllValid(record.checkpoints);
      if ok { saved := record.checkpoints; }
    }
  }

  /** What a saved record must satisfy for an audit to start. */
  predicate Acceptable(saved: Record, solutions: Solutions) {
    && AllValid(saved) && solutions.Keys != {} && saved.Keys <= solutions.Keys
    && !Conflicting(saved, solutions) && AllValid(Reused(saved, solutions))
  }

  /** Opens the audit of a saved record; null if the record is refused. */
  method PrepareRecord(directory: AuditDirectory, solutions: Solutions) returns (record: AuditRecord?)
    modifies directory
    ensures record != null <==> Acceptable(old(directory.saved), solutions)
    ensures record != null ==>
      fresh(record) && record.checkpoints == directory.saved == Reused(old(directory.saved), solutions)
    ensures record == null ==> directory.saved == old(directory.saved)
  {
    hide Blank, SortedLabels, Reused, Conflicting;
    var previous := directory.saved;
    if !AllValid(previous) || solutions.Keys == {} || !(previous.Keys <= solutions.Keys) { return null; }
    record := new AuditRecord(previous);
    var ok := ReuseSavedVerdicts(record, solutions);
    if !ok { return null; }
    if record.checkpoints != previous {
      ok := directory.WriteAudit(record);
      if !ok { return null; }
    }
  }

  /** Does the record still lack a verdict? */
  method Prepare(directory: AuditDirectory, solutions: Solutions) returns (remains: Option<bool>)
    modifies directory
    ensures remains.Some? <==> Acceptable(old(directory.saved), solutions)
    ensures directory.saved == if remains.Some? then Reused(old(directory.saved), solutions) else old(directory.saved)
    ensures remains.Some? ==> Closed(directory.saved, solutions)
    ensures remains.Some? ==> remains.value == (Pending(directory.saved, solutions, SortedLabels(solutions.Keys)) != [])
  {
    hide Blank, Reused, Conflicting;
    var record := PrepareRecord(directory, solutions);
    if record == null { return None; }
    ReuseIsExact(old(directory.saved), solutions);
    var now := record.checkpoints;
    var remaining := exists m :: m in solutions && (now[m].correctness.None? || now[m].step.None?);
    NothingPending(directory.saved, solutions);
    remains := Some(remaining);
  }

  /** Nothing is pending exactly when every label has both verdicts. */
  lemma NothingPending(record: Record, solutions: Solutions)
    requires Closed(record, solutions)
    ensures Pending(record, solutions, SortedLabels(solutions.Keys)) == [] <==>
      forall m :: m in solutions ==> record[m].correctness.Some? && record[m].step.Some?
  {
    hide Blank, SortedLabels, Pending, TextOf;
    var labels := SortedLabels(solutions.Keys);
    var pairs := Pending(record, solutions, labels);
    if pairs != [] {
      PendingIsMissing(record, solutions, labels, pairs[0]);
      var m :| m in labels && record[m].Get(pairs[0].stage).None?;
    } else {
      forall m, s: Stage | m in solutions ensures record[m].Get(s).Some? {
        PendingIsMissing(record, solutions, labels, Pair(TextOf(solutions, m), s));
      }
      forall m | m in solutions ensures record[m].correctness.Some? && record[m].step.Some? {
        assert record[m].Get(Correctness).Some? && record[m].Get(StepRecognition).Some?;
      }
    }
  }

  lemma {:induction false} PendingGrows(record: Record, solutions: Solutions, labels: seq<int>, i: nat)
    requires i <= |labels| && forall m :: m in labels ==> m in record && m in solutions
    ensures Pending(record, solutions, labels[..i]) <= Pending(record, solutions, labels)
  {
    if i == |labels| {
      assert labels[..i] == labels;
    } else {
      var rest := labels[..|labels| - 1];
      assert rest[..i] == labels[..i];
      PendingGrows(record, solutions, rest, i);
    }
  }

  /** The next stage of a label is missing exactly when its pair is still to be asked. */
  lemma MissingNow(start: Record, solutions: Solutions, asked: seq<Pair>, judge: string, results: seq<string>, m: int,
                   s: Stage)
    requires Closed(start, solutions) && |asked| <= |results| && m in solutions && Distinct(asked)
    ensures var now, next := After(start, solutions, asked, judge, results), WithMissing(asked, start, solutions, m, s);
      && m in now && Closed(now, solutions) && Distinct(next)
      && (now[m].Get(s).Some? ==> next == asked)
      && (now[m].Get(s).None? ==> next == asked + [Pair(TextOf(solutions, m), s)])
      && (forall n :: n in solutions && TextOf(solutions, n) == TextOf(solutions, m) ==>
            (now[n].correctness.Some? <==> now[m].correctness.Some?))
  {
    hide Blank, TextOf;
    AfterAt(start, solutions, asked, judge, results, m, s);
    AfterIsClosed(start, solutions, asked, judge, results);
    var now := After(start, solutions, asked, judge, results);
    forall n | n in solutions && TextOf(solutions, n) == TextOf(solutions, m)
      ensures now[n].correctness.Some? <==> now[m].correctness.Some? {
      assert now[n].Get(Correctness).Some? <==> now[m].Get(Correctness).Some?;
    }
  }

  lemma AfterNone(start: Record, solutions: Solutions, judge: string, results: seq<string>)
    ensures After(start, solutions, [], judge, results) == start
  {
  }

  lemma AfterNext(start: Record, solutions: Solutions, asked: seq<Pair>, pair: Pair, judge: string,
                  results: seq<string>)
    requires |asked| < |results|
    ensures After(start, solutions, asked + [pair], judge, results)
         == FillPair(After(start, solutions, asked, judge, results), solutions, pair,
                     Verdict(results[|asked|], Some(judge)))
  {
    assert (asked + [pair])[..|asked|] == asked;
  }

  /** Judges one stage of one label unless it has a verdict, and publishes the judgment. */
  method JudgeStage(directory: AuditDirectory, record: AuditRecord, solutions: Solutions, judge: string,
                    results: seq<string>, m: int, s: Stage, asked: seq<Pair>, ghost start: Record)
      returns (ok: bool, askedNow: seq<Pair>)
    requires Closed(start, solutions) && m in solutions && Distinct(asked) && |asked| <= |results|
    requires record.checkpoints == directory.saved == After(start, solutions, asked, judge, results)
    requires AllValid(record.checkpoints) && m in record.checkpoints
    requires s == StepRecognition ==> record.checkpoints[m].correctness.Some?
    modifies directory, record
    ensures askedNow == if ok then WithMissing(asked, start, solutions, m, s) else asked
    ensures !ok ==> |asked| == |results| && WithMissing(asked, start, solutions, m, s) != asked
    ensures Distinct(askedNow) && |askedNow| <= |results| && AllValid(record.checkpoints)
    ensures record.checkpoints == directory.saved == After(start, solutions, askedNow, judge, results)
    ensures ok ==> m in record.checkpoints && record.checkpoints[m].Get(s).Some?
  {
    hide Blank, Reused, Conflicting, FillPair, After, AllValid, WithMissing;
    askedNow := asked;
    MissingNow(start, solutions, asked, judge, results, m, s);
    if record.checkpoints[m].Get(s).Some? { return true, asked; }
    if |asked| == |results| { return false, asked; }
    var pair, v := Pair(TextOf(solutions, m), s), Verdict(results[|asked|], Some(judge));
    JudgmentSpreads(record.checkpoints, solutions, m, s, v);
    FillKeepsJudged(record.checkpoints, solutions, pair, v);
    AfterNext(start, solutions, asked, pair, judge, results);
    record.checkpoints := record.checkpoints[m := record.checkpoints[m].Put(s, v)];
    ok := ReuseSavedVerdicts(record, solutions);
    askedNow := asked + [pair];
    MissingNow(start, solutions, askedNow, judge, results, m, s);
    AfterAt(start, solutions, askedNow, judge, results, m, s);
    assert record.checkpoints[m].Get(s).Some? by { SpreadReaches(start, solutions, asked, pair, judge, results, m, s); }
    ok := directory.WriteAudit(record);
  }

  lemma SpreadReaches(start: Record, solutions: Solutions, asked: seq<Pair>, pair: Pair, judge: string,
                      results: seq<string>, m: int, s: Stage)
    requires Closed(start, solutions) && m in solutions && |asked| < |results| && pair == Pair(TextOf(solutions, m), s)
    requires Distinct(asked + [pair])
    ensures var now := After(start, solutions, asked + [pair], judge, results); m in now && now[m].Get(s).Some?
  {
    hide Blank, TextOf;
    AfterAt(start, solutions, asked + [pair], judge, results, m, s);
    assert (asked + [pair])[|asked|] == pair;
    AfterKeys(start, solutions, asked + [pair], judge, results);
  }

  datatype Outcome = Refused | Interrupted | Finished

  lemma PendingUpTo(record: Record, solutions: Solutions, labels: seq<int>, i: nat)
    requires i < |labels| && forall m :: m in labels ==> m in record && m in solutions
    ensures var before, m := Pending(record, solutions, labels[..i]), labels[i];
            var first := WithMissing(before, record, solutions, m, Correctness);
            var second := WithMissing(first, record, solutions, m, StepRecognition);
      && Pending(record, solutions, labels[..i + 1]) == second && second <= Pending(record, solutions, labels)
      && before <= first <= Pending(record, solutions, labels) && Distinct(before)
      && (first != second ==> first != Pending(record, solutions, labels))
      && (before != first ==> before != Pending(record, solutions, labels))
  {
    assert labels[..i + 1][..i] == labels[..i];
    PendingGrows(record, solutions, labels, i + 1);
    PendingIsDistinct(record, solutions, labels[..i]);
  }

  /** Judges both stages of every label in order. */
  method JudgeLabels(directory: AuditDirectory, record: AuditRecord, solutions: Solutions, judge: string,
                     results: seq<string>, labels: seq<int>, ghost start: Record)
      returns (done: bool, asked: seq<Pair>)
    requires Closed(start, solutions) && (forall m :: m in labels ==> m in start && m in solutions)
    requires record.checkpoints == directory.saved == start && AllValid(start)
    modifies directory, record
    ensures asked <= Pending(start, solutions, labels) && |asked| <= |results|
    ensures directory.saved == After(start, solutions, asked, judge, results) && AllValid(directory.saved)
    ensures done <==> asked == Pending(start, solutions, labels)
    ensures !done ==> |asked| == |results|
  {
    hide Blank, TextOf, After, AllValid, WithMissing, Closed, Distinct, Pending;
    AfterNone(start, solutions, judge, results);
    PendingNone(start, solutions);
    asked := [];
    for i := 0 to |labels|
      invariant asked == Pending(start, solutions, labels[..i]) && |asked| <= |results|
      invariant record.checkpoints == directory.saved == After(start, solutions, asked, judge, results)
      invariant AllValid(record.checkpoints) && record.checkpoints.Keys == start.Keys
    {
      var m := labels[i];
      PendingUpTo(start, solutions, labels, i);
      done, asked := JudgeStage(directory, record, solutions, judge, results, m, Correctness, asked, start);
      if !done { return; }
      done, asked := JudgeStage(directory, record, solutions, judge, results, m, StepRecognition, asked, start);
      if !done { return; }
      AfterKeys(start, solutions, asked, judge, results);
    }
    assert labels[..|labels|] == labels;
    done := true;
  }

  lemma PendingNone(record: Record, solutions: Solutions)
    ensures Pending(record, solutions, []) == []
  {
  }

  /** Judges every missing stage in label order, publishing after each judgment. `results` are the
      judgments obtained before the process fails, if it does. */
  method Run(directory: AuditDirectory, solutions: Solutions, judge: string, results: seq<string>)
      returns (outcome: Outcome, asked: seq<Pair>)
    modifies directory
    ensures outcome == Refused <==> !Acceptable(old(directory.saved), solutions)
    ensures outcome == Refused ==> directory.saved == old(directory.saved)
    ensures outcome != Refused ==>
      var start := Reused(old(directory.saved), solutions);
      && Closed(start, solutions)
      && var pending := Pending(start, solutions, SortedLabels(solutions.Keys));
         && asked <= pending && |asked| <= |results|
         && directory.saved == After(start, solutions, asked, judge, results)
         && (outcome == Finished <==> asked == pending)
         && (outcome == Interrupted ==> |asked| == |results|)
    ensures outcome != Refused ==>
      Acceptable(directory.saved, solutions) && Reused(directory.saved, solutions) == directory.saved
  {
    hide Blank, TextOf, Reused, Conflicting, After, AllValid, Pending;
    var record := PrepareRecord(directory, solutions);
    if record == null { return Refused, []; }
    ghost var start := Reused(old(directory.saved), solutions);
    ReuseIsExact(old(directory.saved), solutions);
    var done;
    done, asked := JudgeLabels(directory, record, solutions, judge, results, SortedLabels(solutions.Keys), start);
    outcome := if done then Finished else Interrupted;
    PendingIsDistinct(start, solutions, SortedLabels(solutions.Keys));
    AfterIsClosed(start, solutions, asked, judge, results);
    ClosedIsReused(directory.saved, solutions);
  }

  /** There is nothing to judge: no write-up, or a blank one. */
  predicate NothingWritten(solution: Option<string>) {
    solution.None? || Blank(solution.value)
  }

  /** An audit starts exactly when there is a solution, every saved label belongs to one and is valid,
      nothing but the empty record is saved where nothing was written, and no label would mix the two
      kinds of verdict. */
  lemma AcceptableExactly(saved: Record, solutions: Solutions)
    ensures Acceptable(saved, solutions) <==>
      && solutions.Keys != {} && saved.Keys <= solutions.Keys && (forall m :: m in saved ==> saved[m].Valid())
      && (forall m, s: Stage :: m in saved && NothingWritten(solutions[m]) && saved[m].Get(s).Some? ==>
            saved[m] == EMPTY_RECORD)
      && (forall m :: m in solutions ==> !Mixes(saved, solutions, m))
  {
    hide SortedLabels, FirstVerdict, Reused, Mixes, Conflicting, Checkpoint.Valid;
    if saved.Keys <= solutions.Keys { ConflictingExactly(saved, solutions); }
    if !Conflicting(saved, solutions) && AllValid(saved) { ReuseIsValid(saved, solutions); }
  }

  lemma ConflictingExactly(saved: Record, solutions: Solutions)
    requires forall m :: m in saved ==> m in solutions
    ensures !Conflicting(saved, solutions) <==>
      forall m, s: Stage :: m in saved && NothingWritten(solutions[m]) && saved[m].Get(s).Some? ==>
        saved[m] == EMPTY_RECORD
  {
    hide Blank;
    forall m | m in saved
      ensures Conflict(saved, solutions, m) <==>
        NothingWritten(solutions[m]) && saved[m] != EMPTY_RECORD
        && (saved[m].Get(Correctness).Some? || saved[m].Get(StepRecognition).Some?) {
      assert solutions[m].None? ==> Blank("") by { BlankEmpty(); }
    }
    if m, s: Stage :| m in saved && NothingWritten(solutions[m]) && saved[m].Get(s).Some? && saved[m] != EMPTY_RECORD {
      assert Conflict(saved, solutions, m);
    }
  }

  lemma BlankEmpty()
    ensures Blank("")
  {
  }

  /** Where nothing was written, the audit starts with the empty record and never asks. */
  lemma NothingIsSettled(saved: Record, solutions: Solutions, m: int, s: Stage)
    requires Acceptable(saved, solutions) && m in solutions && NothingWritten(solutions[m])
    ensures m in Reused(saved, solutions) && Reused(saved, solutions)[m] == EMPTY_RECORD
    ensures Pair(TextOf(solutions, m), s) !in Pending(Reused(saved, solutions), solutions, SortedLabels(solutions.Keys))
  {
    hide SortedLabels, Reused, Mixes, Pending, Conflicting, AllValid;
    ReuseIsExact(saved, solutions);
    PendingIsMissing(Reused(saved, solutions), solutions, SortedLabels(solutions.Keys), Pair(TextOf(solutions, m), s));
  }

  // ----- complete and resumed audits

  ghost predicate Lacking(record: Record, solutions: Solutions, pair: Pair) {
    exists m :: m in solutions && m in record && TextOf(solutions, m) == pair.text && record[m].Get(pair.stage).None?
  }

  /** The verdict a label holds after the audit: its own earlier one, or the present judge's result
      for its text and stage. */
  ghost predicate HeldOrJudged(record: Record, solutions: Solutions, pairs: seq<Pair>, judge: string,
                               results: seq<string>, m: int, s: Stage, v: Option<Verdict>)
    requires m in solutions && m in record && |pairs| <= |results|
  {
    && v.Some?
    && (record[m].Get(s).Some? ==> v == record[m].Get(s))
    && (record[m].Get(s).None? ==>
          exists i :: 0 <= i < |pairs| && pairs[i] == Pair(TextOf(solutions, m), s)
            && v == Some(Verdict(results[i], Some(judge))))
  }

  /** A finished audit has asked exactly the pairs that some label lacked, each once and none for an
      empty solution, and every label is complete. */
  lemma FinishedIsComplete(record: Record, solutions: Solutions, judge: string, results: seq<string>)
    requires Closed(record, solutions) && |Pending(record, solutions, SortedLabels(solutions.Keys))| <= |results|
    ensures var pairs := Pending(record, solutions, SortedLabels(solutions.Keys));
            var after := After(record, solutions, pairs, judge, results);
      && Distinct(pairs)
      && (forall pair :: pair in pairs <==> Lacking(record, solutions, pair))
      && (forall pair :: pair in pairs ==> !Blank(pair.text))
      && after.Keys == record.Keys
      && (forall m, s: Stage :: m in solutions ==>
            HeldOrJudged(record, solutions, pairs, judge, results, m, s, after[m].Get(s)))
  {
    hide Blank, TextOf, Pending, After, SortedLabels;
    var labels := SortedLabels(solutions.Keys);
    var pairs := Pending(record, solutions, labels);
    PendingIsDistinct(record, solutions, labels);
    AfterKeys(record, solutions, pairs, judge, results);
    forall pair
      ensures pair in pairs <==> Lacking(record, solutions, pair)
      ensures Lacking(record, solutions, pair) ==> !Blank(pair.text)
    {
      PendingIsMissing(record, solutions, labels, pair);
      assert EMPTY_RECORD.Get(pair.stage).Some?;
    }
    var after := After(record, solutions, pairs, judge, results);
    forall m, s: Stage | m in solutions
      ensures HeldOrJudged(record, solutions, pairs, judge, results, m, s, after[m].Get(s)) {
      AfterAt(record, solutions, pairs, judge, results, m, s);
      PendingIsMissing(record, solutions, labels, Pair(TextOf(solutions, m), s));
    }
  }

  /** After k judgments exactly the rest is pending. */
  lemma {:induction false} RestIsPending(record: Record, solutions: Solutions, labels: seq<int>, all: seq<Pair>, k: nat,
                                         judge: string, results: seq<string>)
    requires Closed(record, solutions) && (forall m :: m in labels ==> m in solutions)
    requires Distinct(all) && k <= |all| && k <= |results| && Pending(record, solutions, labels) <= all
    ensures var now, pending := After(record, solutions, all[..k], judge, results), Pending(record, solutions, labels);
      && now.Keys == record.Keys
      && Pending(now, solutions, labels) == Rest(pending, k)
  {
    hide Blank, TextOf, Closed, After, Pending, WithMissing;
    AfterKeys(record, solutions, all[..k], judge, results);
    assert record.Keys == solutions.Keys by { SameKeys(record, solutions); }
    if labels == [] {
      PendingNone(record, solutions);
      PendingNone(After(record, solutions, all[..k], judge, results), solutions);
    } else {
      var rest, m := labels[..|labels| - 1], labels[|labels| - 1];
      var now := After(record, solutions, all[..k], judge, results);
      var before := Pending(record, solutions, rest);
      var first := WithMissing(before, record, solutions, m, Correctness);
      var second := WithMissing(first, record, solutions, m, StepRecognition);
      PendingSplit(record, solutions, labels);
      PendingSplit(now, solutions, labels);
      RestIsPending(record, solutions, rest, all, k, judge, results);
      RestOfOne(record, solutions, all, k, judge, results, before, m, Correctness);
      RestOfOne(record, solutions, all, k, judge, results, first, m, StepRecognition);
    }
  }

  lemma SameKeys(record: Record, solutions: Solutions)
    requires Closed(record, solutions)
    ensures record.Keys == solutions.Keys
  {
  }

  lemma PendingSplit(record: Record, solutions: Solutions, labels: seq<int>)
    requires labels != [] && forall m :: m in labels ==> m in record && m in solutions
    ensures var before, m := Pending(record, solutions, labels[..|labels| - 1]), labels[|labels| - 1];
            var first := WithMissing(before, record, solutions, m, Correctness);
      && Pending(record, solutions, labels) == WithMissing(first, record, solutions, m, StepRecognition)
      && before <= first <= Pending(record, solutions, labels)
  {
  }

  function Rest(pairs: seq<Pair>, k: nat): seq<Pair> {
    if |pairs| <= k then [] else pairs[k..]
  }

  lemma RestOfPairs(all: seq<Pair>, k: nat, before: seq<Pair>, pair: Pair, missing: bool, missingNow: bool)
    requires Distinct(all) && k <= |all| && missingNow == (missing && pair !in all[..k])
    requires (if missing && pair !in before then before + [pair] else before) <= all
    ensures var rest := Rest(before, k);
      (if missingNow && pair !in rest then rest + [pair] else rest)
      == Rest(if missing && pair !in before then before + [pair] else before, k)
  {
    assert before <= all;
    if missing {
      if pair in before {
        var i :| 0 <= i < |before| && before[i] == pair;
        if i < k { assert all[..k][i] == pair; } else { assert Rest(before, k)[i - k] == pair; }
      } else {
        assert all[|before|] == pair;
        if |before| < k { assert all[..k][|before|] == pair; }
      }
    }
  }

  lemma RestOfOne(record: Record, solutions: Solutions, all: seq<Pair>, k: nat, judge: string, results: seq<string>,
                  before: seq<Pair>, m: int, s: Stage)
    requires Closed(record, solutions) && Distinct(all) && k <= |all| && k <= |results| && m in solutions && m in record
    requires WithMissing(before, record, solutions, m, s) <= all
    ensures var now := After(record, solutions, all[..k], judge, results);
      m in now && WithMissing(Rest(before, k), now, solutions, m, s)
           == Rest(WithMissing(before, record, solutions, m, s), k)
  {
    hide Blank, TextOf, After, Closed, Rest;
    var now := After(record, solutions, all[..k], judge, results);
    var pair := Pair(TextOf(solutions, m), s);
    AfterAt(record, solutions, all[..k], judge, results, m, s);
    if record[m].Get(s).None? && pair in all[..k] {
      var i :| 0 <= i < k && all[..k][i] == pair;
    }
    RestOfPairs(all, k, before, pair, record[m].Get(s).None?, now[m].Get(s).None?);
  }

  /** One sitting of an audit: its judge and the judgments it obtains before it ends. */
  datatype Sitting = Sitting(judge: string, results: seq<string>)

  function AskedIn(record: Record, solutions: Solutions, sitting: Sitting): seq<Pair>
    requires solutions.Keys <= record.Keys
  {
    Take(Pending(record, solutions, SortedLabels(solutions.Keys)), |sitting.results|)
  }

  function Take(pairs: seq<Pair>, n: nat): seq<Pair> {
    if |pairs| <= n then pairs else pairs[..n]
  }

  lemma TakeTwice(pairs: seq<Pair>, n: nat, more: nat)
    requires Distinct(pairs)
    ensures var first := Take(pairs, n); first + Take(pairs[|first|..], more) == Take(pairs, n + more)
    ensures Distinct(Take(pairs, n)) && Take(pairs, n) <= pairs
  {
  }

  lemma RestAfterTake(pairs: seq<Pair>, n: nat)
    ensures Rest(pairs, |Take(pairs, n)|) == pairs[|Take(pairs, n)|..] && Take(pairs, n) == pairs[..|Take(pairs, n)|]
    ensures |Take(pairs, n)| <= n
  {
  }

  function AskedInAll(record: Record, solutions: Solutions, sittings: seq<Sitting>): seq<Pair>
    requires solutions.Keys <= record.Keys
    decreases |sittings|
  {
    if sittings == [] then []
    else
      var asked := AskedIn(record, solutions, sittings[0]);
      var next := After(record, solutions, asked, sittings[0].judge, sittings[0].results);
      AfterKeys(record, solutions, asked, sittings[0].judge, sittings[0].results);
      asked + AskedInAll(next, solutions, sittings[1..])
  }

  function ResultsIn(sittings: seq<Sitting>): nat {
    if sittings == [] then 0 else |sittings[0].results| + ResultsIn(sittings[1..])
  }

  /** However often an audit is interrupted and by whatever judges it is resumed, the pairs judged
      are those of one uninterrupted audit in the same order: none twice, and all of them once there
      were enough sittings. */
  lemma {:induction false} SittingsAskOnce(record: Record, solutions: Solutions, sittings: seq<Sitting>)
    requires Closed(record, solutions)
    ensures var pairs := Pending(record, solutions, SortedLabels(solutions.Keys));
            var asked := AskedInAll(record, solutions, sittings);
      Distinct(asked) && asked <= pairs && asked == Take(pairs, ResultsIn(sittings))
    decreases |sittings|
  {
    hide Blank, TextOf, After, Pending, SortedLabels, Closed, Distinct, Take, Rest;
    SameKeys(record, solutions);
    var labels := SortedLabels(solutions.Keys);
    var pairs := Pending(record, solutions, labels);
    PendingIsDistinct(record, solutions, labels);
    if sittings == [] {
      TakeTwice(pairs, 0, 0);
      TakeNone(pairs);
    } else {
      var judge, results := sittings[0].judge, sittings[0].results;
      var asked := AskedIn(record, solutions, sittings[0]);
      RestAfterTake(pairs, |results|);
      var next := After(record, solutions, asked, judge, results);
      TakeTwice(pairs, |results|, ResultsIn(sittings[1..]));
      TakeTwice(pairs, ResultsIn(sittings), 0);
      RestIsPending(record, solutions, labels, pairs, |asked|, judge, results);
      AfterIsClosed(record, solutions, asked, judge, results);
      SittingsAskOnce(next, solutions, sittings[1..]);
    }
  }

  lemma TakeNone(pairs: seq<Pair>)
    ensures Take(pairs, 0) == []
  {
  }
}

/** Concrete runs, with blocks of ten tokens, on which a frozen label differs from the branch's
    history and on which a continuation stops short of its labels. */
module ContinuationExamples {
  import opened Options
  import opened AgentSession
  import opened Refinement
  import opened RefinementRuns
  import opened Continuations

  /** One clean critique converges; every critique is clean; nothing is ever warned about. */
  function TenTokenBlocks(): Settings {
    Settings(10, 0, 0, 1, 0, (text: string) => true)
  }

  function FreshAttempt(budget: int, pauseAt: Option<int>): Saved {
    Saved(Initial("problem", budget, pauseAt, 10), {}, None, false)
  }

  function AllThree(text: Option<string>): map<int, Option<string>> {
    map[1 := text, 2 := text, 3 := text]
  }

  lemma CapturesNothing(p: Progress, through: int)
    requires p.count == 3 && p.frozen == map[] && through < 10
    ensures Capture(p, through, 10) == p
  {
  }

  lemma CapturesAll(p: Progress, through: int)
    requires p.count == 3 && p.frozen == map[] && p.ActiveLimit() == 30 <= through
    ensures Capture(p, through, 10) == p.(frozen := AllThree(p.solution))
  {
    hide Progress.BudgetStatus;
    var p1 := p.(frozen := p.frozen[1 := p.solution]);
    var p2 := p1.(frozen := p1.frozen[2 := p.solution]);
    var p3 := p2.(frozen := p2.frozen[3 := p.solution]);
    assert CaptureFrom(p2, 3, through, 10) == CaptureFrom(p3, 4, through, 10) == p3;
    assert CaptureFrom(p1, 2, through, 10) == CaptureFrom(p2, 3, through, 10);
    assert CaptureFrom(p, 1, through, 10) == CaptureFrom(p1, 2, through, 10);
  }

  lemma Nonblank()
    ensures !Blank("problem")
  {
    assert !IsSpace("problem"[0]);
  }

  lemma FreshIsValid(budget: int, pauseAt: Option<int>)
    requires (budget == 30 && pauseAt == None) || (budget == 40 && pauseAt == Some(30))
    ensures FreshAttempt(budget, pauseAt).progress.Valid() && FreshAttempt(budget, pauseAt).progress.count == 3
  {
    hide Blank;
    Nonblank();
  }

  lemma KeptOnePhase(d: Saved, tokens: nat, text: string, settings: Settings)
    requires d.progress.Valid() && !RollsBack(AtCompletion(d.progress, tokens, settings), Completed(tokens, text))
    requires d.progress.tokens + tokens <= d.progress.budget
    ensures Kept(d, OnePhase(tokens, text), settings)
  {
    hide ConsumeAll, Capture, Step;
    OnePhaseStep(d, tokens, text, settings);
  }

  /** The first phase of an attempt with three labels completes a solution at four tokens. */
  lemma SolvedAtFour(budget: int, pauseAt: Option<int>)
    requires (budget == 30 && pauseAt == None) || (budget == 40 && pauseAt == Some(30))
    ensures var d, settings := FreshAttempt(budget, pauseAt), TenTokenBlocks();
            var solved := d.progress.(tokens := 4, solution := Some("first"), phase := CritiquePhase);
      && d.progress.Valid() && d.progress.count == 3
      && Step(d, OnePhase(4, "first"), settings) == Next(Saved(solved, {}, Some(""), false))
      && Record([], d, OnePhase(4, "first"), settings) == [Entry(4, "first")]
  {
    hide ConsumeAll, Capture, Step, Kept;
    var d, settings := FreshAttempt(budget, pauseAt), TenTokenBlocks();
    FreshIsValid(budget, pauseAt);
    OnePhaseStep(d, 4, "first", settings);
    CapturesNothing(d.progress.(tokens := 4), 3);
    var solved := d.progress.(tokens := 4, solution := Some("first"), phase := CritiquePhase);
    assert AtCompletion(d.progress, 4, settings) == d.progress.(tokens := 4);
    assert Resolve(d.progress.(tokens := 4), d.progress, Completed(4, "first"), settings) == solved;
    CapturesNothing(solved, 4);
    assert Kept(d, OnePhase(4, "first"), settings) by { KeptOnePhase(d, 4, "first", settings); }
  }

  /** Two phases, of which the second stops the attempt. */
  lemma TwoPhases(d: Saved, first: Attempt, second: Attempt, solved: Saved, stopped: Saved, h: seq<Entry>,
                  settings: Settings)
    requires d.progress.status == Running && d.progress.BudgetStatus() == Running
    requires solved.progress.status == Running && solved.progress.BudgetStatus() == Running
    requires Step(d, first, settings) == Next(solved) && Step(solved, second, settings) == Next(stopped)
    requires Record([], d, first, settings) == h && solved.progress.phase == CritiquePhase
    requires stopped.progress.status != Running
    ensures Play(d, 0, [first, second], settings) == Returned(stopped)
    ensures PlayHistory([], d, 0, [first, second], settings) == h
  {
    hide Step, Record, Kept;
    assert [first, second][1..] == [second] && [second][1..] == [];
    assert Play(solved, 0, [second], settings) == Play(stopped, 0, [], settings);
    assert Record(h, solved, second, settings) == h by { CritiquesAreNotRecorded(h, solved, second, settings); }
    assert PlayHistory(h, solved, 0, [second], settings) == PlayHistory(h, stopped, 0, [], settings);
  }

  lemma CritiquesAreNotRecorded(h: seq<Entry>, d: Saved, a: Attempt, settings: Settings)
    requires d.progress.phase == CritiquePhase
    ensures Record(h, d, a, settings) == h
  {
  }

  /** A clean critique at five tokens finishes the attempt and freezes all labels. */
  lemma FinishedAtFive(budget: int, pauseAt: Option<int>)
    requires (budget == 30 && pauseAt == None) || (budget == 40 && pauseAt == Some(30))
    ensures var attempts := [OnePhase(4, "first"), OnePhase(1, "no gaps")];
            var d, settings := FreshAttempt(budget, pauseAt), TenTokenBlocks();
            var r := Play(d, 0, attempts, settings);
      && r.Returned? && r.saved.progress.status == Status.Finished
      && r.saved.progress == d.progress.(tokens := 5, solution := Some("first"), phase := RevisePhase, rounds := 1,
                                         cleanCritiques := 1, status := Status.Finished,
                                         frozen := AllThree(Some("first")))
      && PlayHistory([], d, 0, attempts, settings) == [Entry(4, "first")]
  {
    hide ConsumeAll, Capture, Step, Play, PlayHistory, Record;
    var d, settings := FreshAttempt(budget, pauseAt), TenTokenBlocks();
    SolvedAtFour(budget, pauseAt);
    var solved := Step(d, OnePhase(4, "first"), settings).saved;
    OnePhaseStep(solved, 1, "no gaps", settings);
    CapturesNothing(solved.progress.(tokens := 5), 4);
    assert AtCompletion(solved.progress, 1, settings) == solved.progress.(tokens := 5);
    var finished := solved.progress.(tokens := 5, phase := RevisePhase, rounds := 1, cleanCritiques := 1,
                                     status := Status.Finished);
    assert Resolve(solved.progress.(tokens := 5), solved.progress, Completed(1, "no gaps"), settings) == finished;
    CapturesAll(finished, 30);
    TwoPhases(d, OnePhase(4, "first"), OnePhase(1, "no gaps"), solved,
              Step(solved, OnePhase(1, "no gaps"), settings).saved, [Entry(4, "first")], settings);
  }

  /** A critique that overruns the pause is rolled back, and the prefix pauses at four tokens. */
  lemma RolledBackToFour()
    ensures var attempts := [OnePhase(4, "first"), OnePhase(30, "gaps")];
            var d, settings := FreshAttempt(40, Some(30)), TenTokenBlocks();
            var r := Play(d, 0, attempts, settings);
      && r.Returned? && r.saved.progress.status == Paused
      && r.saved.progress == d.progress.(tokens := 4, solution := Some("first"), phase := CritiquePhase,
                                         status := Paused, frozen := AllThree(Some("first")))
      && PlayHistory([], d, 0, attempts, settings) == [Entry(4, "first")]
  {
    hide ConsumeAll, Capture, Step, Play, PlayHistory, Record;
    var d, settings := FreshAttempt(40, Some(30)), TenTokenBlocks();
    SolvedAtFour(40, Some(30));
    var solved := Step(d, OnePhase(4, "first"), settings).saved;
    OnePhaseStep(solved, 30, "gaps", settings);
    assert RollsBack(AtCompletion(solved.progress, 30, settings), Completed(30, "gaps"));
    CapturesAll(solved.progress.(status := Paused), 30);
    TwoPhases(d, OnePhase(4, "first"), OnePhase(30, "gaps"), solved,
              Step(solved, OnePhase(30, "gaps"), settings).saved, [Entry(4, "first")], settings);
  }

  /** What the fork of a prefix stopped so early makes of its first label. */
  lemma ForkDisagrees(attempts: seq<Attempt>, tokens: int)
    requires var d, settings := FreshAttempt(40, Some(30)), TenTokenBlocks();
      && AllGenuine(attempts) && Play(d, 0, attempts, settings).Returned?
      && Play(d, 0, attempts, settings).saved.progress.tokens == tokens < 10
      && Play(d, 0, attempts, settings).saved.progress.frozen == AllThree(Some("first"))
      && PlayHistory([], d, 0, attempts, settings) == [Entry(4, "first")]
    ensures var d, settings := FreshAttempt(40, Some(30)), TenTokenBlocks();
            var b := Forked(Play(d, 0, attempts, settings).saved, Some(tokens + 10), 10);
      && b.Some?
      && var branch := Play(b.value, 0, [OnePhase(1, "second")], settings);
         var h := PlayHistory([Entry(4, "first")], b.value, 0, [OnePhase(1, "second")], settings);
         1 in branch.saved.progress.frozen && branch.saved.progress.frozen[1] == Some("first")
           && SolutionAt(h, 10) == Some("second")
  {
    hide Play, PlayHistory, Stopped, Forked, BoundaryOf, Ready;
    var d, settings := FreshAttempt(40, Some(30)), TenTokenBlocks();
    Nonblank();
    FreshIsReady("problem", 40, Some(30), 10);
    RunKeeps(d, 0, attempts, [], 0, settings);
    var prefix, h := Play(d, 0, attempts, settings).saved, [Entry(4, "first")];
    SoundFacts(prefix.progress, h, 0, 10);
    OneBlockFork(prefix, h, 0, settings);
    var b := Forked(prefix, Some(tokens + 10), 10).value;
    OnePhaseIsGenuine(1, "second");
    ForkThenSolve(prefix, b, h, 0, "second", settings);
    ForkedRunAgrees(prefix, b, h, 0, [OnePhase(1, "second")], settings);
    HistorySplit(h, [Entry(tokens + 1, "second")], 10);
    assert 1 in prefix.progress.frozen;
  }

  /** A prefix that finished early: its first label, for ten tokens, keeps the solution of token four
      although its branch has another one at token six. */
  lemma EarlyFinishExample()
    ensures var d, settings := FreshAttempt(40, Some(30)), TenTokenBlocks();
            var prefix := Play(d, 0, [OnePhase(4, "first"), OnePhase(1, "no gaps")], settings);
            var b := Forked(prefix.saved, Some(15), 10);
      && prefix.Returned? && prefix.saved.progress.status == Status.Finished && b.Some?
      && var branch := Play(b.value, 0, [OnePhase(1, "second")], settings);
         var h := PlayHistory([Entry(4, "first")], b.value, 0, [OnePhase(1, "second")], settings);
         1 in branch.saved.progress.frozen && branch.saved.progress.frozen[1] == Some("first")
           && SolutionAt(h, 10) == Some("second")
  {
    hide Play, PlayHistory, Forked, AllThree;
    FinishedAtFive(40, Some(30));
    TwoGenuine(4, "first", 1, "no gaps");
    ForkDisagrees([OnePhase(4, "first"), OnePhase(1, "no gaps")], 5);
  }

  /** The same with a prefix paused by rolling an overrunning critique back. */
  lemma RollbackExample()
    ensures var d, settings := FreshAttempt(40, Some(30)), TenTokenBlocks();
            var prefix := Play(d, 0, [OnePhase(4, "first"), OnePhase(30, "gaps")], settings);
            var b := Forked(prefix.saved, Some(14), 10);
      && prefix.Returned? && prefix.saved.progress.status == Paused && b.Some?
      && var branch := Play(b.value, 0, [OnePhase(1, "second")], settings);
         var h := PlayHistory([Entry(4, "first")], b.value, 0, [OnePhase(1, "second")], settings);
         1 in branch.saved.progress.frozen && branch.saved.progress.frozen[1] == Some("first")
           && SolutionAt(h, 10) == Some("second")
  {
    hide Play, PlayHistory, Forked, AllThree;
    RolledBackToFour();
    TwoGenuine(4, "first", 30, "gaps");
    ForkDisagrees([OnePhase(4, "first"), OnePhase(30, "gaps")], 4);
  }

  lemma TwoGenuine(tokens: nat, text: string, more: nat, other: string)
    requires tokens > 0 && more > 0
    ensures AllGenuine([OnePhase(tokens, text), OnePhase(more, other)])
  {
  }

  /** A continuation that stops short: finished at five tokens with three labels, reopened with
      twenty-one for two more, exhausted there without either, because the first needs forty. */
  lemma SeveralBlocksExample()
    ensures var d, settings := FreshAttempt(30, None), TenTokenBlocks();
            var first := Play(d, 0, [OnePhase(4, "first"), OnePhase(1, "no gaps")], settings);
            var c := ContinueState(first.saved.progress, 21, 10);
      && first.Returned? && first.saved.progress.status == Status.Finished && |first.saved.progress.frozen| == 3
      && c.Reopened? && c.progress.count == 5
      && var second := Play(first.saved.(progress := c.progress), 0, [OnePhase(16, "second")], settings);
         second.Returned? && second.saved.progress.status == Exhausted
           && |second.saved.progress.frozen| < second.saved.progress.count
  {
    hide Play, PlayHistory, ContinueState, FreshAttempt, Progress.Valid, TenTokenBlocks, OnePhase, AllThree;
    FinishedFields();
    var saved := Play(FreshAttempt(30, None), 0, [OnePhase(4, "first"), OnePhase(1, "no gaps")],
                      TenTokenBlocks()).saved;
    StillValid(saved.progress);
    Reopens(saved.progress);
    StopsShort(saved.(progress := ContinueState(saved.progress, 21, 10).progress));
  }

  lemma FinishedFields()
    ensures var r := Play(FreshAttempt(30, None), 0, [OnePhase(4, "first"), OnePhase(1, "no gaps")], TenTokenBlocks());
            var p := r.saved.progress;
      && r.Returned? && p.status == Status.Finished && p.phase == RevisePhase
      && p.problem == "problem" && p.budget == 30 && p.pauseAt.None? && p.tokens == 5 && p.rounds == 1
      && p.cleanCritiques == 1 && p.count == 3 && p.frozen == AllThree(Some("first")) && |p.frozen| == 3
  {
    hide Play, PlayHistory, TenTokenBlocks, OnePhase, Progress.Valid;
    FinishedAtFive(30, None);
    ThreeLabels(Some("first"));
  }

  lemma ThreeContiguous(p: Progress)
    requires p.frozen.Keys == {1, 2, 3} && |p.frozen| == 3
    ensures p.Contiguous()
  {
    assert forall m :: m in p.frozen <==> m in p.frozen.Keys;
  }

  lemma StillValid(p: Progress)
    requires p.problem == "problem" && p.budget == 30 && p.pauseAt.None? && p.tokens == 5 && p.rounds == 1
    requires p.cleanCritiques == 1 && p.count == 3 && p.frozen == AllThree(Some("first"))
    ensures p.Valid()
  {
    hide Progress.Contiguous, AllThree, Blank;
    Nonblank();
    ThreeLabels(Some("first"));
    ThreeContiguous(p);
  }

  lemma ThreeLabels(text: Option<string>)
    ensures |AllThree(text)| == 3 && AllThree(text).Keys == {1, 2, 3}
  {
    assert AllThree(text).Keys == {1, 2, 3};
    assert |AllThree(text).Keys| == |AllThree(text)|;
  }

  lemma Reopens(p: Progress)
    requires p.Valid() && p.status == Status.Finished && p.tokens == 5 && p.budget == 30 && |p.frozen| == 3
    ensures var c := ContinueState(p, 21, 10);
      && c.Reopened? && c.progress.Valid() && c.progress.status == Running && c.progress.tokens == 5
      && c.progress.budget == 21 && c.progress.pauseAt.None? && c.progress.count == 5 && c.progress.frozen == p.frozen
      && c.progress.phase == p.phase
  {
    assert CeilDiv(16, 10) == 2;
  }

  lemma StopsShort(d: Saved)
    requires var p := d.progress;
      && p.Valid() && p.status == Running && p.tokens == 5 && p.budget == 21 && p.pauseAt.None? && p.count == 5
      && |p.frozen| == 3 && p.phase == RevisePhase
    ensures var r := Play(d, 0, [OnePhase(16, "second")], TenTokenBlocks());
      r.Returned? && r.saved.progress.status == Exhausted && |r.saved.progress.frozen| == 3 < r.saved.progress.count
  {
    hide ConsumeAll, Capture, Step, Play, Record, Progress.Valid;
    var settings, c := TenTokenBlocks(), d.progress;
    OnePhaseStep(d, 16, "second", settings);
    NoFourthLabel(c.(tokens := 21), 20);
    assert AtCompletion(c, 16, settings) == c.(tokens := 21);
    var exhausted := c.(tokens := 21, solution := Some("second"), phase := CritiquePhase, status := Exhausted);
    assert Resolve(c.(tokens := 21), c, Completed(16, "second"), settings) == exhausted;
    NoFourthLabel(exhausted, 21);
    OneStep(d, OnePhase(16, "second"), settings);
  }

  lemma NoFourthLabel(p: Progress, through: int)
    requires p.count == 5 && |p.frozen| == 3 && through < 40
    ensures Capture(p, through, 10) == p
  {
  }

  lemma OneStep(d: Saved, a: Attempt, settings: Settings)
    requires d.progress.status == Running && d.progress.BudgetStatus() == Running
    requires Step(d, a, settings).Next? && Step(d, a, settings).saved.progress.status != Running
    ensures Play(d, 0, [a], settings) == Returned(Step(d, a, settings).saved)
  {
    assert [a][1..] == [];
  }
}

/** Continuing and forking stopped work: what carries over, when all labels are sure to be frozen,
    and when a prefix label still reads the same against the longer history of its branch. */
module Continuations {
  import opened Options
  import opened AgentSession
  import opened Refinement
  import opened RefinementRuns
  import opened PhaseOutcomes
  import opened PhaseOrder

  /** Reopening a stopped attempt keeps its history; it is ready if and only if its last solution lies
      within the first boundary still to come. */
  lemma ReopenedIsReady(p: Progress, h: seq<Entry>, kept: int, budget: int, settings: Settings)
    requires settings.Valid() && Stopped(p, h, kept, settings.block)
    ensures var c := ContinueState(p, budget, settings.block);
      && (c.Reopened? <==> budget > p.tokens)
      && (c.Reopened? ==> c.progress.tokens == p.tokens && c.progress.frozen == p.frozen)
      && (c.Reopened? ==> c.progress.solution == p.solution && c.progress.rounds == p.rounds)
      && (c.Reopened? ==> c.progress.count > |p.frozen|)
      && (c.Reopened? ==> (Ready(c.progress, h, |p.frozen|, settings.block) <==>
                             LastTokens(h) <= c.progress.Boundary(|p.frozen| + 1, settings.block)))
  {
    if budget > p.tokens { CeilDivBounds(budget - p.tokens, settings.block); }
  }

  lemma OneBlock(block: nat)
    requires block > 0
    ensures CeilDiv(block, block) == 1
  {
    CeilDivBounds(block, block);
    var c := CeilDiv(block, block);
    if c > 1 { BlockOrder(1, c - 1, block); }
  }

  lemma StoppedLast(p: Progress, h: seq<Entry>, kept: int, block: nat)
    requires Stopped(p, h, kept, block)
    ensures LastTokens(h) <= p.tokens && p.status != Running
  {
  }

  lemma LastBoundary(p: Progress, block: nat)
    ensures p.Boundary(p.count, block) == p.ActiveLimit()
  {
  }

  lemma ReadyInAnyPhase(p: Progress, h: seq<Entry>, kept: int, block: nat, phase: Phase)
    requires Ready(p, h, kept, block)
    ensures Ready(p.(phase := phase), h, kept, block)
  {
    hide BoundaryOf, SolutionAt;
  }

  /** A one-block fork keeps tokens, rounds, solution and every prefix label, adds one label whose
      boundary is the new budget, and starts out ready on the prefix's history. */
  lemma OneBlockFork(d: Saved, h: seq<Entry>, kept: int, settings: Settings)
    requires settings.Valid() && Stopped(d.progress, h, kept, settings.block)
    ensures var b := Forked(d, Some(d.progress.tokens + settings.block), settings.block);
      && b.Some?
      && var p := b.value.progress;
         && p.tokens == d.progress.tokens && p.rounds == d.progress.rounds && p.solution == d.progress.solution
         && p.frozen == d.progress.frozen && p.phase == ContinuePhase && b.value.ids == d.ids
         && p.count == |d.progress.frozen| + 1 && p.pauseAt.None?
         && p.Boundary(p.count, settings.block) == p.budget == d.progress.tokens + settings.block
         && Ready(p, h, |d.progress.frozen|, settings.block) && Allotted(p, |d.progress.frozen|, settings.block)
  {
    hide BoundaryOf, SolutionAt, CeilDiv, Ready, Stopped;
    var budget := d.progress.tokens + settings.block;
    OneBlock(settings.block);
    StoppedLast(d.progress, h, kept, settings.block);
    ReopenedIsReady(d.progress, h, kept, budget, settings);
    var c := ContinueState(d.progress, budget, settings.block).progress;
    assert budget - d.progress.tokens == settings.block;
    LastBoundary(c, settings.block);
    LastBoundary(c.(phase := ContinuePhase), settings.block);
    ReadyInAnyPhase(c, h, |d.progress.frozen|, settings.block, ContinuePhase);
  }

  /** Running the fork: prefix labels stay as they are, the one new label is decided by the whole
      history, and a branch that returns has exactly one label more than its prefix. */
  lemma ForkedRunAgrees(d: Saved, b: Saved, h: seq<Entry>, kept: int, attempts: seq<Attempt>, settings: Settings)
    requires settings.Valid() && AllGenuine(attempts) && Stopped(d.progress, h, kept, settings.block)
    requires Forked(d, Some(d.progress.tokens + settings.block), settings.block) == Some(b)
    ensures var result := Play(b, 0, attempts, settings);
            var q, h', n := result.saved.progress, PlayHistory(h, b, 0, attempts, settings), |d.progress.frozen|;
      && q.Valid() && (forall m :: m in d.progress.frozen ==> m in q.frozen && q.frozen[m] == d.progress.frozen[m])
      && (n + 1 in q.frozen ==> q.frozen[n + 1] == SolutionAt(h', d.progress.tokens + settings.block))
      && (result.Returned? ==> |q.frozen| == n + 1 && n + 1 in q.frozen)
  {
    hide SolutionAt, Play, PlayHistory, Ready, Stopped;
    OneBlockFork(d, h, kept, settings);
    var n := |d.progress.frozen|;
    RunKeeps(b, 0, attempts, h, n, settings);
    var q, h' := Play(b, 0, attempts, settings).saved.progress, PlayHistory(h, b, 0, attempts, settings);
    SoundFacts(q, h', n, settings.block);
    ForkLabel(q, h', n, settings.block);
    if q.status != Running { StopsComplete(q, h', n, settings.block); }
  }

  lemma ForkLabel(q: Progress, h: seq<Entry>, n: int, block: nat)
    requires Sound(q, h, n, block) && q.count == n + 1
    ensures n + 1 in q.frozen ==> q.frozen[n + 1] == SolutionAt(h, q.ActiveLimit())
    ensures |q.frozen| == n + 1 ==> n + 1 in q.frozen
  {
    SoundFacts(q, h, n, block);
  }

  // ----- phases of one event

  /** A phase that reports its completion and nothing else. */
  function OnePhase(tokens: nat, text: string): Attempt {
    Attempt("", [Completed(tokens, text)], false, {})
  }

  ghost predicate Startable(p: Progress) {
    p.Valid() && p.status == Running && p.tokens < p.ActiveLimit() && |p.frozen| < p.count
  }

  /** The progress when the completion arrives. */
  function AtCompletion(p: Progress, tokens: nat, settings: Settings): Progress {
    Capture(p.Warned(settings).(tokens := p.tokens + tokens), p.tokens + tokens - 1, settings.block)
  }

  lemma OnePhaseStep(d: Saved, tokens: nat, text: string, settings: Settings)
    requires d.progress.Valid()
    ensures var p, e, a := d.progress, Completed(tokens, text), OnePhase(tokens, text);
            var q := AtCompletion(p, tokens, settings);
      && ConsumeAll(LiveStart(d, settings), p.tokens, a.events, settings) == Live(q, false, Some(e))
      && Step(d, a, settings)
         == Next(if RollsBack(q, e) then d.(progress := CaptureAtEnd(p.(status := Paused), settings.block))
                 else Saved(CaptureAtEnd(Resolve(q, p, e, settings), settings.block), d.ids, Some(""), false))
      && q == p.(tokens := p.tokens + tokens, warned := q.warned, frozen := q.frozen)
  {
    hide Capture, Progress.Valid;
    var a, start := OnePhase(tokens, text), LiveStart(d, settings);
    assert a.events[..|a.events| - 1] == [];
    assert ConsumeAll(start, d.progress.tokens, [], settings) == start;
    assert ConsumeAll(start, d.progress.tokens, a.events, settings)
         == Consume(start, d.progress.tokens, a.events[0], settings);
    var q := AtCompletion(d.progress, tokens, settings);
    assert Consume(start, d.progress.tokens, a.events[0], settings) == Live(q, false, Some(a.events[0]));
    SavesPassValidation(d, a, settings);
    CaptureOnlyFreezes(start.progress.(tokens := d.progress.tokens + tokens), d.progress.tokens + tokens - 1,
                       settings.block);
    assert d.ids + a.ids == d.ids;
    assert q == d.progress.(tokens := d.progress.tokens + tokens, warned := q.warned, frozen := q.frozen);
  }

  lemma CaptureOnlyFreezes(p: Progress, through: int, block: nat)
    ensures Capture(p, through, block) == p.(frozen := Capture(p, through, block).frozen)
  {
    CaptureKeepsRest(p, |p.frozen| + 1, through, block);
  }

  lemma OnePhaseIsGenuine(tokens: nat, text: string)
    requires tokens > 0
    ensures AllGenuine([OnePhase(tokens, text)])
  {
  }

  // ----- when stopping is sure to be complete

  /** However the work goes, a run that returns has all its labels. */
  ghost predicate AlwaysComplete(d: Saved, settings: Settings) {
    forall attempts :: AllGenuine(attempts) && Play(d, 0, attempts, settings).Returned? ==>
      var q := Play(d, 0, attempts, settings).saved.progress; |q.frozen| == q.count
  }

  /** Whatever was frozen before, new labels can be read against a history of their own. */
  lemma StartableIsReady(p: Progress, block: nat) returns (h: seq<Entry>)
    requires Startable(p)
    ensures Ready(p, h, |p.frozen|, block)
  {
    h := if p.solution.None? then [] else [Entry(0, p.solution.value)];
    BlockOrder(0, |p.frozen| + 1, block);
  }

  lemma LimitPhaseStops(d: Saved, settings: Settings)
    requires Startable(d.progress)
    ensures var a := OnePhase(d.progress.ActiveLimit() - d.progress.tokens, "solved");
            var r := Play(d, 0, [a], settings);
      AllGenuine([a]) && r.Returned? && r.saved.progress.tokens == d.progress.ActiveLimit()
  {
    hide BoundaryOf, Apply, Converged, Capture, ConsumeAll, Step;
    var p, tokens := d.progress, d.progress.ActiveLimit() - d.progress.tokens;
    OnePhaseStep(d, tokens, "solved", settings);
    OnePhaseIsGenuine(tokens, "solved");
    var q := AtCompletion(p, tokens, settings);
    ApplySame(q, "solved", settings);
    var r := Resolve(q, p, Completed(tokens, "solved"), settings);
    assert r.status != Running && r.tokens == p.ActiveLimit();
    CaptureOnlyFreezes(r, r.ActiveLimit(), settings.block);
  }

  /** Running work stops with all its labels in every run if and only if, before it starts, its
      allowance covers every block label it was given. */
  lemma CompleteExactly(d: Saved, settings: Settings)
    requires settings.Valid() && Startable(d.progress)
    ensures AlwaysComplete(d, settings) <==> Allotted(d.progress, |d.progress.frozen|, settings.block)
  {
    hide SolutionAt, Play, PlayHistory, Ready, Stopped, AllGenuine;
    var p, kept, block := d.progress, |d.progress.frozen|, settings.block;
    var h := StartableIsReady(p, block);
    forall attempts | AllGenuine(attempts)
      ensures Allotted(p, kept, block) && Play(d, 0, attempts, settings).Returned? ==>
        var q := Play(d, 0, attempts, settings).saved.progress; |q.frozen| == q.count
    {
      RunKeeps(d, 0, attempts, h, kept, settings);
      var q := Play(d, 0, attempts, settings).saved.progress;
      if Allotted(p, kept, block) && q.status != Running {
        StopsComplete(q, PlayHistory(h, d, 0, attempts, settings), kept, block);
      }
    }
    if !Allotted(p, kept, block) {
      var last := [OnePhase(p.ActiveLimit() - p.tokens, "solved")];
      LimitPhaseStops(d, settings);
      RunKeeps(d, 0, last, h, kept, settings);
      var q, h' := Play(d, 0, last, settings).saved.progress, PlayHistory(h, d, 0, last, settings);
      SoundFacts(q, h', kept, block);
      StoppedShort(q, h', kept, block);
    }
  }

  lemma StoppedShort(q: Progress, h: seq<Entry>, kept: int, block: nat)
    requires Stopped(q, h, kept, block) && !Allotted(q, kept, block) && q.tokens == q.ActiveLimit()
    ensures |q.frozen| != q.count
  {
  }

  /** Any stopped attempt, reopened with any larger total: every run completes its labels if and only
      if one block suffices or the last whole block lies within the total. */
  lemma ContinuationCompletesExactly(d: Saved, budget: int, settings: Settings)
    requires settings.Valid() && d.progress.Valid() && d.progress.status != Running && budget > d.progress.tokens
    ensures var c := ContinueState(d.progress, budget, settings.block);
            var blocks := CeilDiv(budget - d.progress.tokens, settings.block);
      && c.Reopened?
      && (AlwaysComplete(d.(progress := c.progress), settings) <==>
            blocks == 1 || (|d.progress.frozen| + blocks - 1) * settings.block <= budget)
  {
    CeilDivBounds(budget - d.progress.tokens, settings.block);
    CompleteExactly(d.(progress := ContinueState(d.progress, budget, settings.block).progress), settings);
  }

  // ----- prefix labels and the branch's history

  /** How a longer history reads at a boundary: a later entry within it decides; otherwise the
      earlier part does. */
  lemma {:induction false} HistorySplit(h: seq<Entry>, more: seq<Entry>, boundary: int)
    ensures SolutionAt(h + more, boundary)
         == if SolutionAt(more, boundary).Some? then SolutionAt(more, boundary) else SolutionAt(h, boundary)
  {
    if more == [] {
      assert h + more == h;
    } else {
      HistorySplit(h, more[..|more| - 1], boundary);
      assert (h + more)[..|h + more| - 1] == h + more[..|more| - 1];
    }
  }

  ghost predicate After(more: seq<Entry>, tokens: int) {
    forall i :: 0 <= i < |more| ==> more[i].tokens > tokens
  }

  lemma {:induction false} NothingWithin(more: seq<Entry>, boundary: int, tokens: int)
    requires After(more, tokens) && boundary <= tokens
    ensures SolutionAt(more, boundary).None?
  {
    if more != [] { NothingWithin(more[..|more| - 1], boundary, tokens); }
  }

  lemma RecordIsLater(d: Saved, a: Attempt, h: seq<Entry>, settings: Settings)
    requires d.progress.Valid() && Genuine(a)
    ensures var r := Record(h, d, a, settings);
      r == h || (|r| == |h| + 1 && r[..|h|] == h && r[|h|].tokens > d.progress.tokens)
  {
    hide During, Passed, Capture, Progress.Valid, Apply;
    var start := LiveStart(d, settings);
    StartsDuring(d.progress, settings.block, settings);
    ConsumeAllKeeps(d.progress, start, a.events, settings);
    TerminalIsListed(start, d.progress.tokens, a.events, settings);
  }

  lemma ExtendsTokens(p: Progress, q: Progress)
    requires Extends(p, q)
    ensures p.tokens <= q.tokens
  {
  }

  /** A run adds solutions completed after the tokens it started with. */
  lemma {:induction false} RunAddsLater(d: Saved, retries: nat, attempts: seq<Attempt>, h: seq<Entry>, kept: int,
                                        settings: Settings)
      returns (more: seq<Entry>)
    requires settings.Valid() && AllGenuine(attempts) && Sound(d.progress, h, kept, settings.block)
    ensures PlayHistory(h, d, retries, attempts, settings) == h + more && After(more, d.progress.tokens)
    decreases |attempts|
  {
    hide Record, Step, Sound, Ready, Stopped, Progress.Valid, Extends, SolutionAt;
    more := [];
    SoundFacts(d.progress, h, kept, settings.block);
    if d.progress.status == Running && attempts != [] {
      StepKeeps(d, attempts[0], h, kept, settings);
      RecordIsLater(d, attempts[0], h, settings);
      match Step(d, attempts[0], settings)
      case Next(saved) =>
        var r := Record(h, d, attempts[0], settings);
        var rest := RunAddsLater(saved, 0, attempts[1..], r, kept, settings);
        StepExtends(d, attempts[0], settings);
        ExtendsTokens(d.progress, saved.progress);
        more := r[|h|..] + rest;
        assert r == h + r[|h|..];
      case Lost =>
        if retries < settings.maxRetries { more := RunAddsLater(d, retries + 1, attempts[1..], h, kept, settings); }
      case Broken =>
    }
  }

  lemma {:induction false} ReplayAddsLater(d: Saved, runs: seq<seq<Attempt>>, h: seq<Entry>, kept: int,
                                           settings: Settings)
      returns (more: seq<Entry>)
    requires settings.Valid() && Sound(d.progress, h, kept, settings.block)
    requires forall i :: 0 <= i < |runs| ==> AllGenuine(runs[i])
    ensures ReplayHistory(h, d, runs, settings) == h + more && After(more, d.progress.tokens)
  {
    hide Sound, Play, PlayHistory, AllGenuine, Settings.Valid;
    more := [];
    if runs != [] {
      var before := runs[..|runs| - 1];
      var earlier := ReplayAddsLater(d, before, h, kept, settings);
      ReplayKeeps(d, before, h, kept, settings);
      var q := Replay(d, before, settings);
      var rest := RunAddsLater(q, 0, runs[|runs| - 1], ReplayHistory(h, d, before, settings), kept, settings);
      more := earlier + rest;
      assert h + earlier + rest == h + more;
    }
  }

  /** In every run of the branch, each label frozen by the prefix since `kept` is the last solution
      of the branch's whole history within the label's boundary. */
  ghost predicate ReadsAsBranch(d: Saved, b: Saved, h: seq<Entry>, kept: int, settings: Settings) {
    forall attempts, m :: AllGenuine(attempts) && kept < m <= |d.progress.frozen| ==>
      m in d.progress.frozen
      && d.progress.frozen[m]
           == SolutionAt(PlayHistory(h, b, 0, attempts, settings), d.progress.Boundary(m, settings.block))
  }

  /** The prefix has spent its tokens beyond every boundary it has frozen a label for. */
  ghost predicate BoundariesSpent(p: Progress, kept: int, block: nat) {
    forall m :: kept < m <= |p.frozen| ==> p.Boundary(m, block) <= p.tokens
  }

  /** The labels of a prefix that has spent its boundaries read the same however its fork goes on,
      through any number of processes. */
  lemma SpentLabelsRead(d: Saved, b: Saved, h: seq<Entry>, kept: int, runs: seq<seq<Attempt>>, m: int,
                        settings: Settings)
    requires settings.Valid() && Stopped(d.progress, h, kept, settings.block)
    requires Forked(d, Some(d.progress.tokens + settings.block), settings.block) == Some(b)
    requires forall i :: 0 <= i < |runs| ==> AllGenuine(runs[i])
    requires kept < m <= |d.progress.frozen| && d.progress.Boundary(m, settings.block) <= d.progress.tokens
    ensures m in d.progress.frozen
    ensures d.progress.frozen[m]
         == SolutionAt(ReplayHistory(h, b, runs, settings), d.progress.Boundary(m, settings.block))
  {
    hide BoundaryOf, SolutionAt;
    OneBlockFork(d, h, kept, settings);
    var more := ReplayAddsLater(b, runs, h, |d.progress.frozen|, settings);
    var boundary := d.progress.Boundary(m, settings.block);
    HistorySplit(h, more, boundary);
    NothingWithin(more, boundary, d.progress.tokens);
  }

  /** One more solution right after the fork is read at every boundary not yet spent. */
  lemma ForkThenSolve(d: Saved, b: Saved, h: seq<Entry>, kept: int, text: string, settings: Settings)
    requires settings.Valid() && Stopped(d.progress, h, kept, settings.block)
    requires Forked(d, Some(d.progress.tokens + settings.block), settings.block) == Some(b)
    ensures PlayHistory(h, b, 0, [OnePhase(1, text)], settings) == h + [Entry(d.progress.tokens + 1, text)]
  {
    hide BoundaryOf, SolutionAt, Capture, ConsumeAll, Step, CaptureAtEnd, Progress.Valid, Ready, Stopped;
    OneBlockFork(d, h, kept, settings);
    ReadyFacts(b.progress, h, |d.progress.frozen|, settings.block, settings);
    OnePhaseStep(b, 1, text, settings);
    var saved := Step(b, OnePhase(1, text), settings).saved;
    assert [OnePhase(1, text)][1..] == [];
    assert Record(h, b, OnePhase(1, text), settings) == h + [Entry(d.progress.tokens + 1, text)];
  }

  /** The labels of a stopped prefix agree with every history of its one-block fork if and only if
      the prefix has spent every boundary they stand for, which is known before the fork. */
  lemma PrefixLabelsExactly(d: Saved, b: Saved, h: seq<Entry>, kept: int, settings: Settings)
    requires settings.Valid() && Stopped(d.progress, h, kept, settings.block)
    requires Forked(d, Some(d.progress.tokens + settings.block), settings.block) == Some(b)
    ensures ReadsAsBranch(d, b, h, kept, settings) <==> BoundariesSpent(d.progress, kept, settings.block)
  {
    hide BoundaryOf, SolutionAt, Stopped, PlayHistory, AllGenuine;
    if BoundariesSpent(d.progress, kept, settings.block) {
      forall attempts, m | AllGenuine(attempts) && kept < m <= |d.progress.frozen|
        ensures m in d.progress.frozen
        ensures d.progress.frozen[m]
             == SolutionAt(PlayHistory(h, b, 0, attempts, settings), d.progress.Boundary(m, settings.block))
      {
        SpentLabelsRead(d, b, h, kept, [attempts], m, settings);
        OneProcess(b, attempts, h, settings);
      }
    } else {
      var m :| kept < m <= |d.progress.frozen| && d.progress.Boundary(m, settings.block) > d.progress.tokens;
      UnspentLabelDiffers(d, b, h, kept, m, settings);
    }
  }

  lemma OneProcess(d: Saved, attempts: seq<Attempt>, h: seq<Entry>, settings: Settings)
    ensures ReplayHistory(h, d, [attempts], settings) == PlayHistory(h, d, 0, attempts, settings)
    ensures Replay(d, [attempts], settings) == Play(d, 0, attempts, settings).saved
  {
    assert [attempts][..0] == [];
  }

  lemma UnspentLabelDiffers(d: Saved, b: Saved, h: seq<Entry>, kept: int, m: int, settings: Settings)
    requires settings.Valid() && Stopped(d.progress, h, kept, settings.block)
    requires Forked(d, Some(d.progress.tokens + settings.block), settings.block) == Some(b)
    requires kept < m <= |d.progress.frozen| && d.progress.Boundary(m, settings.block) > d.progress.tokens
    ensures !ReadsAsBranch(d, b, h, kept, settings)
  {
    hide BoundaryOf, PlayHistory, AllGenuine;
    assert m in d.progress.frozen;
    var text := if d.progress.frozen[m] == Some("solved") then "solved again" else "solved";
    OnePhaseIsGenuine(1, text);
    ForkThenSolve(d, b, h, kept, text, settings);
    var whole := PlayHistory(h, b, 0, [OnePhase(1, text)], settings);
    assert SolutionAt(whole, d.progress.Boundary(m, settings.block)) == Some(text);
  }

  /** A fresh attempt that has stopped has frozen a label for its limit, so the condition is that it
      has spent its whole limit; one that finished early or was rolled back has not. */
  lemma FreshLabelsExactly(p: Progress, h: seq<Entry>, settings: Settings)
    requires settings.Valid() && Stopped(p, h, 0, settings.block) && Allotted(p, 0, settings.block)
    ensures BoundariesSpent(p, 0, settings.block) <==> p.ActiveLimit() <= p.tokens
  {
    assert |p.frozen| == p.count;
    if p.ActiveLimit() <= p.tokens {
      forall m | 0 < m <= |p.frozen| ensures p.Boundary(m, settings.block) <= p.tokens {
        if m < p.count { BlockOrder(m, p.count - 1, settings.block); }
      }
    } else {
      assert p.Boundary(p.count, settings.block) == p.ActiveLimit();
    }
  }

  // ----- what a continuation changes, and the conversation of a branch

  /** Reopening changes the allowance and what depends on it, and nothing else: new labels are granted
      for every begun block of it, the clean streak starts anew, and a notice is kept only if the
      allowance has not grown. */
  lemma ReopenedExactly(p: Progress, budget: int, block: nat)
    requires block > 0
    ensures var c := ContinueState(p, budget, block);
      && (c.NotStopped? <==> p.status == Running)
      && (c.BudgetSpent? <==> p.status != Running && budget <= p.tokens)
      && (c.Reopened? ==>
            var q := c.progress; var granted := q.count - |p.frozen|;
            && q == p.(budget := budget, pauseAt := None, status := Running, cleanCritiques := 0,
                       count := q.count, warned := q.warned)
            && (granted - 1) * block < budget - p.tokens <= granted * block
            && (q.warned <==> p.warned && budget <= p.budget))
  {
    CeilDivBounds(budget - p.tokens, block);
  }

  /** A fork is refused only if it asks for a continuation of running work or for no new tokens. The
      published archive keeps conversation and sealed identities and is marked for forking exactly if
      there is a conversation to fork; a continuation is next instructed to continue. */
  lemma ForkKeepsConversation(d: Saved, budget: Option<int>, block: nat)
    requires block > 0
    ensures var b := Forked(d, budget, block);
      && (b.Some? <==> budget.None? || (d.progress.status != Running && budget.value > d.progress.tokens))
      && (b.Some? ==> b.value.sessionId == d.sessionId && b.value.ids == d.ids)
      && (b.Some? ==> (b.value.forked <==> d.sessionId.Some?))
      && (b.Some? && budget.None? ==> b.value.progress == d.progress)
      && (b.Some? && budget.Some? ==>
            b.value.progress == ContinueState(d.progress, budget.value, block).progress.(phase := ContinuePhase))
  {
  }

  /** The branch goes on forking the source's conversation until its first phase is retained, and is in
      that phase's own conversation from then on. */
  lemma BranchConverses(d: Saved, budget: Option<int>, b: Saved, runs: seq<seq<Attempt>>, settings: Settings)
    requires settings.Valid() && Fit(d.progress) && Forked(d, budget, settings.block) == Some(b)
    ensures var q, last := Replay(b, runs, settings), LastRetainedInAll(b, runs, settings);
      if last.None? then q.sessionId == d.sessionId && (q.forked <==> d.sessionId.Some?)
      else q.sessionId == Some(last.value.sessionId) && !q.forked
  {
    hide Replay, LastRetainedInAll;
    ForkKeepsConversation(d, budget, settings.block);
    if budget.Some? { CeilDivBounds(budget.value - d.progress.tokens, settings.block); }
    ReplayConverses(b, runs, settings);
  }
}

/** The phases of whole runs: solutions and critiques take turns, a prefix holds completed phases
    only, losses are retried within their allowance, and the archived conversation is that of the
    last phase saved. */
module PhaseOrder {
  import opened Options
  import opened AgentSession
  import opened TokenUsage
  import opened Refinement
  import opened RefinementRuns
  import opened Convergence
  import opened PhaseOutcomes

  // ----- the phases kept

  datatype Done = Solution(tokens: int, text: string) | Critique(tokens: int, text: string)

  /** The phase the attempt completed, if it was kept. */
  function DoneBy(d: Saved, a: Attempt, settings: Settings): seq<Done> {
    if Kept(d, a, settings) then
      var live := ConsumeAll(LiveStart(d, settings), d.progress.tokens, a.events, settings);
      var tokens, text := live.progress.tokens, live.terminal.value.text;
      [if d.progress.phase == CritiquePhase then Critique(tokens, text) else Solution(tokens, text)]
    else []
  }

  function PlayLog(d: Saved, retries: nat, attempts: seq<Attempt>, settings: Settings): seq<Done>
    decreases |attempts|
  {
    if d.progress.status != Running || d.progress.BudgetStatus() != Running || attempts == [] then []
    else
      match Step(d, attempts[0], settings)
      case Next(saved) => DoneBy(d, attempts[0], settings) + PlayLog(saved, 0, attempts[1..], settings)
      case Lost =>
        if retries >= settings.maxRetries then [] else PlayLog(d, retries + 1, attempts[1..], settings)
      case Broken => []
  }

  function ReplayLog(d: Saved, runs: seq<seq<Attempt>>, settings: Settings): seq<Done> {
    if runs == [] then []
    else
      var before := runs[..|runs| - 1];
      ReplayLog(d, before, settings) + PlayLog(Replay(d, before, settings), 0, runs[|runs| - 1], settings)
  }

  /** Critiques and solutions take turns, a critique first if `critiqueFirst`. */
  ghost predicate TakeTurns(log: seq<Done>, critiqueFirst: bool) {
    forall i :: 0 <= i < |log| ==> (log[i].Critique? <==> (critiqueFirst == (i % 2 == 0)))
  }

  /** The instruction that follows the log. */
  function PhaseAfter(phase: Phase, log: seq<Done>): Phase {
    if log == [] then phase else if log[|log| - 1].Critique? then RevisePhase else CritiquePhase
  }

  /** A solution becomes the current one; critiques leave it alone. */
  function SolutionAfter(solution: Option<string>, log: seq<Done>): Option<string> {
    if log == [] then solution
    else if log[|log| - 1].Solution? then Some(log[|log| - 1].text)
    else SolutionAfter(solution, log[..|log| - 1])
  }

  function Solutions(log: seq<Done>): seq<Entry> {
    if log == [] then []
    else (if log[0].Solution? then [Entry(log[0].tokens, log[0].text)] else []) + Solutions(log[1..])
  }

  function Verdicts(log: seq<Done>, settings: Settings): seq<bool> {
    if log == [] then []
    else (if log[0].Critique? then [settings.clean(log[0].text)] else []) + Verdicts(log[1..], settings)
  }

  /** What a log says about the state it leads to. */
  ghost predicate Leads(p: Progress, log: seq<Done>, q: Progress) {
    && Fit(q) && TakeTurns(log, p.phase == CritiquePhase)
    && q.phase == PhaseAfter(p.phase, log) && q.solution == SolutionAfter(p.solution, log)
    && (p.pauseAt.Some? ==> q.pauseAt == p.pauseAt && q.tokens == if log == [] then p.tokens else log[|log| - 1].tokens)
    && (p.pauseAt.None? ==> q.pauseAt.None?)
    && (p.pauseAt.Some? && p.tokens <= p.pauseAt.value ==> q.tokens <= p.pauseAt.value)
  }

  /** One saved phase: every kept critique is followed by a revision, every kept solution by a
      critique, and any other phase leaves phase and solution as they were. */
  lemma StepLeads(d: Saved, a: Attempt, settings: Settings)
    requires Fit(d.progress) && d.progress.status == Running
    ensures Step(d, a, settings).Next? ==>
      Leads(d.progress, DoneBy(d, a, settings), Step(d, a, settings).saved.progress)
  {
    hide ConsumeAll, Step, Kept, Progress.Valid, Coherent, SolutionAfter;
    StepOutcome(d, a, settings);
    KeptExactly(d, a, settings);
    StepExtends(d, a, settings) by { FitIsValid(d.progress); }
    var log := DoneBy(d, a, settings);
    SolutionOfOne(d.progress.solution, log);
  }

  lemma FitIsValid(p: Progress)
    requires Fit(p)
    ensures p.Valid()
  {
  }

  lemma SolutionOfOne(solution: Option<string>, log: seq<Done>)
    requires |log| <= 1
    ensures SolutionAfter(solution, log)
         == if log == [] || log[0].Critique? then solution else Some(log[0].text)
  {
  }

  lemma LeadsNowhere(p: Progress)
    requires Fit(p)
    ensures Leads(p, [], p)
  {
  }

  /** Logs follow one another. */
  lemma LeadsOn(p: Progress, first: seq<Done>, q: Progress, second: seq<Done>, r: Progress)
    requires Leads(p, first, q) && Leads(q, second, r)
    ensures Leads(p, first + second, r)
  {
    hide Fit, SolutionAfter;
    var log := first + second;
    SolutionInTurn(p.solution, first, second);
    PhaseOfLog(p, first, q);
    forall i | 0 <= i < |log| ensures log[i].Critique? <==> ((p.phase == CritiquePhase) == (i % 2 == 0)) {
      if i >= |first| { ParityShift(i, |first|); }
    }
  }

  lemma ParityShift(i: int, n: int)
    ensures ((i - n) % 2 == 0) == ((i % 2 == 0) == (n % 2 == 0))
  {
  }

  lemma PhaseOfLog(p: Progress, log: seq<Done>, q: Progress)
    requires TakeTurns(log, p.phase == CritiquePhase) && q.phase == PhaseAfter(p.phase, log)
    ensures (q.phase == CritiquePhase) == ((p.phase == CritiquePhase) == (|log| % 2 == 0))
  {
    if log != [] { ParityShift(|log|, 1); }
  }

  lemma {:induction false} SolutionInTurn(solution: Option<string>, first: seq<Done>, second: seq<Done>)
    ensures SolutionAfter(solution, first + second) == SolutionAfter(SolutionAfter(solution, first), second)
  {
    if second == [] {
      assert first + second == first;
    } else {
      SolutionInTurn(solution, first, second[..|second| - 1]);
      assert (first + second)[..|first + second| - 1] == first + second[..|second| - 1];
    }
  }

  lemma {:induction false} PlayLeads(d: Saved, retries: nat, attempts: seq<Attempt>, settings: Settings)
    requires Fit(d.progress)
    ensures Leads(d.progress, PlayLog(d, retries, attempts, settings),
                  Play(d, retries, attempts, settings).saved.progress)
    decreases |attempts|
  {
    hide Step, Kept, Leads, DoneBy, Progress.Valid;
    LeadsNowhere(d.progress);
    if d.progress.status == Running && attempts != [] {
      RunningBelowLimit(d.progress);
      var a := attempts[0];
      match Step(d, a, settings)
      case Next(saved) =>
        StepLeads(d, a, settings);
        LeadsToFit(d.progress, DoneBy(d, a, settings), saved.progress);
        PlayLeads(saved, 0, attempts[1..], settings);
        var rest, last := PlayLog(saved, 0, attempts[1..], settings), Play(saved, 0, attempts[1..], settings).saved;
        LeadsOn(d.progress, DoneBy(d, a, settings), saved.progress, rest, last.progress);
      case Lost =>
        if retries < settings.maxRetries { PlayLeads(d, retries + 1, attempts[1..], settings); }
      case Broken =>
    } else if d.progress.status == Running {
      RunningBelowLimit(d.progress);
    }
  }

  lemma {:induction false} PlayRecords(d: Saved, retries: nat, attempts: seq<Attempt>, h: seq<Entry>,
                                       verdicts: seq<bool>, settings: Settings)
    ensures var log := PlayLog(d, retries, attempts, settings);
      && PlayHistory(h, d, retries, attempts, settings) == h + Solutions(log)
      && PlayCritiques(verdicts, d, retries, attempts, settings) == verdicts + Verdicts(log, settings)
    decreases |attempts|
  {
    hide Step, Kept, Record, Critiques, DoneBy, Progress.Valid, Progress.BudgetStatus, Solutions, Verdicts;
    NothingDone(settings);
    if d.progress.status == Running && d.progress.BudgetStatus() == Running && attempts != [] {
      var a := attempts[0];
      match Step(d, a, settings)
      case Next(saved) =>
        var h', v' := Record(h, d, a, settings), Critiques(verdicts, d, a, settings);
        PlayRecords(saved, 0, attempts[1..], h', v', settings);
        OneDone(h, verdicts, d, a, settings);
        Parts(DoneBy(d, a, settings), PlayLog(saved, 0, attempts[1..], settings), settings);
      case Lost =>
        if retries < settings.maxRetries { PlayRecords(d, retries + 1, attempts[1..], h, verdicts, settings); }
      case Broken =>
    }
  }

  /** Over every run, with losses and rollbacks, the kept phases take turns and lead to the archived
      state; the history holds their solutions and the verdict list their critiques. */
  lemma PlayTakesTurns(d: Saved, retries: nat, attempts: seq<Attempt>, h: seq<Entry>, verdicts: seq<bool>,
                       settings: Settings)
    requires Fit(d.progress)
    ensures var log := PlayLog(d, retries, attempts, settings);
      && Leads(d.progress, log, Play(d, retries, attempts, settings).saved.progress)
      && PlayHistory(h, d, retries, attempts, settings) == h + Solutions(log)
      && PlayCritiques(verdicts, d, retries, attempts, settings) == verdicts + Verdicts(log, settings)
  {
    hide Leads, Play, PlayLog, PlayHistory, PlayCritiques, Fit;
    PlayLeads(d, retries, attempts, settings);
    PlayRecords(d, retries, attempts, h, verdicts, settings);
  }

  lemma RunningBelowLimit(p: Progress)
    requires Fit(p) && p.status == Running
    ensures p.BudgetStatus() == Running
  {
    StatusAtLimit(p);
  }

  lemma LeadsToFit(p: Progress, log: seq<Done>, q: Progress)
    requires Leads(p, log, q)
    ensures Fit(q)
  {
  }

  lemma OneDone(h: seq<Entry>, verdicts: seq<bool>, d: Saved, a: Attempt, settings: Settings)
    ensures |DoneBy(d, a, settings)| <= 1
    ensures Record(h, d, a, settings) == h + Solutions(DoneBy(d, a, settings))
    ensures Critiques(verdicts, d, a, settings) == verdicts + Verdicts(DoneBy(d, a, settings), settings)
  {
    hide ConsumeAll, Kept;
    var log := DoneBy(d, a, settings);
    if log != [] {
      assert log[1..] == [] && Solutions(log[1..]) == [] && Verdicts(log[1..], settings) == [];
    }
  }

  lemma NothingDone(settings: Settings)
    ensures Solutions([]) == [] && Verdicts([], settings) == []
  {
  }

  lemma Parts(first: seq<Done>, second: seq<Done>, settings: Settings)
    requires |first| <= 1
    ensures Solutions(first + second) == Solutions(first) + Solutions(second)
    ensures Verdicts(first + second, settings) == Verdicts(first, settings) + Verdicts(second, settings)
  {
    if first == [] {
      assert first + second == second;
    } else {
      assert first[1..] == [] && (first + second)[1..] == second;
      assert Solutions(first[1..]) == [] && Verdicts(first[1..], settings) == [];
    }
  }

  /** The same over any number of processes that resume the archive and vanish. */
  lemma {:induction false} ReplayTakesTurns(d: Saved, runs: seq<seq<Attempt>>, settings: Settings)
    requires Fit(d.progress)
    ensures Leads(d.progress, ReplayLog(d, runs, settings), Replay(d, runs, settings).progress)
  {
    hide Leads, Play, PlayLog, Fit;
    if runs == [] {
      LeadsNowhere(d.progress);
    } else {
      var before := runs[..|runs| - 1];
      ReplayTakesTurns(d, before, settings);
      var q := Replay(d, before, settings);
      LeadsToFit(d.progress, ReplayLog(d, before, settings), q.progress);
      PlayTakesTurns(q, 0, runs[|runs| - 1], [], [], settings);
      LeadsOn(d.progress, ReplayLog(d, before, settings), q.progress, PlayLog(q, 0, runs[|runs| - 1], settings),
              Replay(d, runs, settings).progress);
    }
  }

  /** Between two critiques in a row exactly one solution was completed. */
  lemma OneSolutionBetween(log: seq<Done>, critiqueFirst: bool, i: nat, j: nat)
    requires TakeTurns(log, critiqueFirst) && i < j < |log| && log[i].Critique? && log[j].Critique?
    requires forall k :: i < k < j ==> log[k].Solution?
    ensures j == i + 2 && log[i + 1].Solution?
  {
    ParityShift(i + 1, 1);
    assert log[i + 1].Solution?;
    ParityShift(i + 2, 2);
    assert log[i + 2].Critique?;
  }

  /** Every state archived for a prefix stays within its pause and has spent exactly the tokens of its
      last kept phase: interrupted or overrun phases are undone, also one interrupted just at the
      pause. */
  lemma PrefixHoldsCompletions(d: Saved, runs: seq<seq<Attempt>>, settings: Settings)
    requires Fit(d.progress) && d.progress.pauseAt.Some? && d.progress.tokens <= d.progress.pauseAt.value
    ensures var q, log := Replay(d, runs, settings).progress, ReplayLog(d, runs, settings);
      q.tokens <= d.progress.pauseAt.value && q.tokens == if log == [] then d.progress.tokens else log[|log| - 1].tokens
  {
    hide Fit;
    ReplayTakesTurns(d, runs, settings);
  }

  // ----- the retry allowance

  /** Exactly `maxRetries` losses in a row are survived, each leaving the state as it was. */
  lemma {:induction false} RetryAllowance(d: Saved, retries: nat, losses: seq<Attempt>, rest: seq<Attempt>,
                                          settings: Settings)
    requires Fit(d.progress) && d.progress.status == Running && retries <= settings.maxRetries
    requires forall i :: 0 <= i < |losses| ==> Step(d, losses[i], settings).Lost?
    ensures Play(d, retries, losses + rest, settings)
         == if retries + |losses| <= settings.maxRetries then Play(d, retries + |losses|, rest, settings) else Raised(d)
    decreases |losses|
  {
    hide Step, Fit;
    if losses == [] {
      assert losses + rest == rest;
    } else {
      RunningBelowLimit(d.progress);
      assert (losses + rest)[0] == losses[0] && (losses + rest)[1..] == losses[1..] + rest;
      if retries < settings.maxRetries { RetryAllowance(d, retries + 1, losses[1..], rest, settings); }
    }
  }

  /** Every saved phase gives the whole allowance back. */
  lemma SavingResetsAllowance(d: Saved, retries: nat, a: Attempt, rest: seq<Attempt>, settings: Settings)
    requires Fit(d.progress) && d.progress.status == Running && Step(d, a, settings).Next?
    ensures Play(d, retries, [a] + rest, settings) == Play(Step(d, a, settings).saved, 0, rest, settings)
  {
    hide Step, Fit;
    RunningBelowLimit(d.progress);
    assert ([a] + rest)[1..] == rest;
  }

  // ----- the archived conversation

  /** The phase was saved and not rolled back. */
  ghost predicate Retained(d: Saved, a: Attempt, settings: Settings) {
    Step(d, a, settings).Next? && (d.progress.pauseAt.None? || Completes(d.progress, a.events))
  }

  /** The last attempt retained by a run. */
  ghost function LastRetained(d: Saved, retries: nat, attempts: seq<Attempt>, settings: Settings): Option<Attempt>
    decreases |attempts|
  {
    if d.progress.status != Running || d.progress.BudgetStatus() != Running || attempts == [] then None
    else
      match Step(d, attempts[0], settings)
      case Next(saved) =>
        var later := LastRetained(saved, 0, attempts[1..], settings);
        if later.Some? then later else if Retained(d, attempts[0], settings) then Some(attempts[0]) else None
      case Lost =>
        if retries >= settings.maxRetries then None else LastRetained(d, retries + 1, attempts[1..], settings)
      case Broken => None
  }

  /** The archived conversation: as before until a phase is retained, then that phase's own, no longer
      marked for forking. */
  ghost predicate Converses(d: Saved, last: Option<Attempt>, q: Saved) {
    if last.None? then q.sessionId == d.sessionId && q.forked == d.forked && q.ids == d.ids
    else q.sessionId == Some(last.value.sessionId) && !q.forked && d.ids + last.value.ids <= q.ids
  }

  lemma StepConverses(d: Saved, a: Attempt, settings: Settings)
    requires Fit(d.progress) && d.progress.status == Running && Step(d, a, settings).Next?
    ensures Converses(d, if Retained(d, a, settings) then Some(a) else None, Step(d, a, settings).saved)
  {
    hide Step, Coherent, Completes, Follows;
    StepOutcome(d, a, settings);
  }

  lemma {:induction false} PlayConverses(d: Saved, retries: nat, attempts: seq<Attempt>, settings: Settings)
    requires Fit(d.progress)
    ensures Converses(d, LastRetained(d, retries, attempts, settings), Play(d, retries, attempts, settings).saved)
    decreases |attempts|
  {
    hide Step, Retained, Progress.Valid;
    if d.progress.status == Running {
      RunningBelowLimit(d.progress);
      if attempts != [] {
        match Step(d, attempts[0], settings)
        case Next(saved) =>
          StepConverses(d, attempts[0], settings);
          StepOutcome(d, attempts[0], settings);
          PlayConverses(saved, 0, attempts[1..], settings);
        case Lost =>
          if retries < settings.maxRetries { PlayConverses(d, retries + 1, attempts[1..], settings); }
        case Broken =>
      }
    }
  }

  ghost function LastRetainedInAll(d: Saved, runs: seq<seq<Attempt>>, settings: Settings): Option<Attempt> {
    if runs == [] then None
    else
      var before := runs[..|runs| - 1];
      var later := LastRetained(Replay(d, before, settings), 0, runs[|runs| - 1], settings);
      if later.Some? then later else LastRetainedInAll(d, before, settings)
  }

  /** Over any number of processes, too. */
  lemma {:induction false} ReplayConverses(d: Saved, runs: seq<seq<Attempt>>, settings: Settings)
    requires Fit(d.progress)
    ensures Converses(d, LastRetainedInAll(d, runs, settings), Replay(d, runs, settings))
  {
    hide Play, LastRetained, Fit;
    if runs != [] {
      var before := runs[..|runs| - 1];
      ReplayConverses(d, before, settings);
      ReplayTakesTurns(d, before, settings);
      LeadsToFit(d.progress, ReplayLog(d, before, settings), Replay(d, before, settings).progress);
      PlayConverses(Replay(d, before, settings), 0, runs[|runs| - 1], settings);
    }
  }
}

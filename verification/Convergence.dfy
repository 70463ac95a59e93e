/** When a run finishes and when it warns: the critique counters agree with the history of kept
    critiques, and the low-budget notice is neither early nor missing. */
module Convergence {
  import opened Options
  import opened AgentSession
  import opened Refinement
  import opened RefinementRuns

  // ----- convergence

  /** How many critiques at the end of the list were clean. */
  function Streak(verdicts: seq<bool>): (n: nat)
    ensures n <= |verdicts|
  {
    if verdicts == [] || !verdicts[|verdicts| - 1] then 0 else Streak(verdicts[..|verdicts| - 1]) + 1
  }

  lemma {:induction false} StreakIsClean(verdicts: seq<bool>)
    ensures forall i :: |verdicts| - Streak(verdicts) <= i < |verdicts| ==> verdicts[i]
    ensures Streak(verdicts) < |verdicts| ==> !verdicts[|verdicts| - Streak(verdicts) - 1]
  {
    if verdicts != [] && verdicts[|verdicts| - 1] { StreakIsClean(verdicts[..|verdicts| - 1]); }
  }

  /** The last n critiques were all clean. */
  ghost predicate EndsClean(verdicts: seq<bool>, n: nat) {
    n <= |verdicts| && forall i :: |verdicts| - n <= i < |verdicts| ==> verdicts[i]
  }

  lemma StreakEndsClean(verdicts: seq<bool>, n: nat)
    ensures EndsClean(verdicts, n) <==> n <= Streak(verdicts)
  {
    StreakIsClean(verdicts);
  }

  /** The verdicts of the critiques that were kept. */
  function Critiques(verdicts: seq<bool>, d: Saved, a: Attempt, settings: Settings): seq<bool> {
    var live := ConsumeAll(LiveStart(d, settings), d.progress.tokens, a.events, settings);
    if !Kept(d, a, settings) || d.progress.phase != CritiquePhase then verdicts
    else verdicts + [settings.clean(live.terminal.value.text)]
  }

  function PlayCritiques(verdicts: seq<bool>, d: Saved, retries: nat, attempts: seq<Attempt>,
                         settings: Settings): seq<bool>
    decreases |attempts|
  {
    if d.progress.status != Running || d.progress.BudgetStatus() != Running || attempts == [] then verdicts
    else
      match Step(d, attempts[0], settings)
      case Next(saved) => PlayCritiques(Critiques(verdicts, d, attempts[0], settings), saved, 0, attempts[1..],
                                        settings)
      case Lost =>
        if retries >= settings.maxRetries then verdicts
        else PlayCritiques(verdicts, d, retries + 1, attempts[1..], settings)
      case Broken => verdicts
  }

  /** Rounds count the critiques, `earlier` of them before this allowance; the streak counts the
      clean ones at the end. */
  ghost predicate Counted(p: Progress, earlier: int, verdicts: seq<bool>) {
    p.rounds == earlier + |verdicts| && p.cleanCritiques == Streak(verdicts)
  }

  ghost predicate Converging(p: Progress, settings: Settings) {
    p.rounds >= settings.minRounds && p.cleanCritiques >= settings.minCleanCritiques
  }

  /** Events change tokens, the warning and frozen labels, nothing else. */
  lemma {:induction false} EventsKeep(live: Live, start: int, events: seq<Event>, settings: Settings)
    requires live.Live?
    ensures var after := ConsumeAll(live, start, events, settings); after.Live? ==>
      after.progress == live.progress.(tokens := after.progress.tokens, warned := after.progress.warned,
                                       frozen := after.progress.frozen)
  {
    hide CaptureFrom;
    if events != [] {
      EventsKeep(live, start, events[..|events| - 1], settings);
      var before := ConsumeAll(live, start, events[..|events| - 1], settings);
      var e := events[|events| - 1];
      if before.Live? {
        CaptureKeepsRest(before.progress.(tokens := start + e.tokens), |before.progress.frozen| + 1,
                         start + e.tokens - 1, settings.block);
      }
    }
  }

  lemma EndKeepsCounts(p: Progress, block: nat)
    ensures CaptureAtEnd(p, block) == p.(frozen := CaptureAtEnd(p, block).frozen)
  {
    hide CaptureFrom;
    CaptureKeepsRest(p, |p.frozen| + 1, if p.status == Running then p.tokens else p.ActiveLimit(), block);
  }

  lemma StreakNext(verdicts: seq<bool>, clean: bool)
    ensures Streak(verdicts + [clean]) == if clean then Streak(verdicts) + 1 else 0
  {
    assert (verdicts + [clean])[..|verdicts|] == verdicts;
  }

  /** How the end of a phase moves the counters. */
  lemma ResolveCounts(p: Progress, q: Progress, e: Event, settings: Settings)
    requires p.status == Running && q == p.(tokens := q.tokens, warned := q.warned, frozen := q.frozen)
    ensures var r := Resolve(q, p, e, settings);
      if e.Completed? && !RollsBack(q, e) && q.tokens <= q.budget && p.phase == CritiquePhase then
        && r.rounds == p.rounds + 1
        && r.cleanCritiques == (if settings.clean(e.text) then p.cleanCritiques + 1 else 0)
        && (r.status == Status.Finished <==> Converging(r, settings))
      else
        r.rounds == p.rounds && r.cleanCritiques == p.cleanCritiques && r.status != Status.Finished
  {
  }

  /** One saved phase keeps the counters in step with the critiques, and finishes exactly when a kept
      critique completes both conditions. */
  lemma StepCounts(d: Saved, a: Attempt, earlier: int, verdicts: seq<bool>, settings: Settings)
    requires d.progress.status == Running && Counted(d.progress, earlier, verdicts)
    ensures var r := Step(d, a, settings); r.Next? ==>
      && Counted(r.saved.progress, earlier, Critiques(verdicts, d, a, settings))
      && (r.saved.progress.status == Status.Finished <==>
            Kept(d, a, settings) && d.progress.phase == CritiquePhase && Converging(r.saved.progress, settings))
  {
    hide ConsumeAll, CaptureAtEnd, Progress.Warned, Progress.Valid, Resolve, RollsBack, Streak;
    var start := LiveStart(d, settings);
    EventsKeep(start, d.progress.tokens, a.events, settings);
    WarningKeepsRest(d.progress, settings);
    var live := ConsumeAll(start, d.progress.tokens, a.events, settings);
    if Step(d, a, settings).Next? {
      ResolveCounts(d.progress, live.progress, live.terminal.value, settings);
      EndKeepsCounts(Resolve(live.progress, d.progress, live.terminal.value, settings), settings.block);
      StreakNext(verdicts, settings.clean(if live.terminal.value.Completed? then live.terminal.value.text else ""));
    }
  }

  lemma WarningKeepsRest(p: Progress, settings: Settings)
    ensures p.Warned(settings) == p.(warned := p.Warned(settings).warned)
  {
  }

  /** A run that finishes has seen enough kept critiques, of which enough at the end in a row were
      clean; lost and rolled back critiques do not count. */
  lemma {:induction false} FinishedHasConverged(d: Saved, retries: nat, attempts: seq<Attempt>, earlier: int,
                                                verdicts: seq<bool>, settings: Settings)
    requires d.progress.status == Running && Counted(d.progress, earlier, verdicts)
    ensures var q := Play(d, retries, attempts, settings).saved.progress;
            var log := PlayCritiques(verdicts, d, retries, attempts, settings);
      && Counted(q, earlier, log)
      && (q.status == Status.Finished ==>
            earlier + |log| >= settings.minRounds && EndsClean(log, settings.minCleanCritiques))
    decreases |attempts|
  {
    hide Step, Critiques, CaptureFrom, Kept, EndsClean;
    if d.progress.BudgetStatus() != Running {
      var p := d.progress.(status := d.progress.BudgetStatus());
      CaptureKeepsRest(p, |p.frozen| + 1, p.ActiveLimit(), settings.block);
    } else if attempts != [] {
      StepCounts(d, attempts[0], earlier, verdicts, settings);
      match Step(d, attempts[0], settings)
      case Next(saved) =>
        if saved.progress.status == Running {
          FinishedHasConverged(saved, 0, attempts[1..], earlier, Critiques(verdicts, d, attempts[0], settings),
                               settings);
        } else {
          StreakEndsClean(Critiques(verdicts, d, attempts[0], settings), settings.minCleanCritiques);
        }
      case Lost =>
        if retries < settings.maxRetries {
          FinishedHasConverged(d, retries + 1, attempts[1..], earlier, verdicts, settings);
        }
      case Broken =>
    }
  }

  /** A continuation starts a new streak and keeps the rounds, so it cannot finish on critiques made
      before it. */
  lemma ContinuationCountsAnew(p: Progress, budget: int, block: nat)
    requires block > 0
    ensures var c := ContinueState(p, budget, block); c.Reopened? ==> Counted(c.progress, p.rounds, [])
  {
  }

  // ----- the low-budget notice

  /** A notice that was sent was due: usage only grows within an allowance. */
  ghost predicate NotEarly(p: Progress, settings: Settings) {
    p.warned ==> p.budget - p.tokens <= settings.warning
  }

  ghost predicate NotMissing(p: Progress, settings: Settings) {
    p.status == Running && p.BudgetStatus() == Running && p.budget - p.tokens <= settings.warning ==> p.warned
  }

  /** Every usage event, and the start of every phase, sends the notice if it is due. */
  lemma EventWarns(live: Live, start: int, e: Event, settings: Settings)
    requires live.Live? && NotEarly(live.progress, settings)
    ensures var next := Consume(live, start, e, settings); next.Live? ==>
      NotEarly(next.progress, settings) && (e.Usage? ==> NotMissing(next.progress, settings))
  {
    hide CaptureFrom;
    var p := live.progress.(tokens := start + e.tokens);
    CaptureKeepsRest(p, |p.frozen| + 1, start + e.tokens - 1, settings.block);
  }

  lemma {:induction false} EventsWarn(live: Live, start: int, events: seq<Event>, settings: Settings)
    requires live.Live? && NotEarly(live.progress, settings)
    ensures var after := ConsumeAll(live, start, events, settings); after.Live? ==> NotEarly(after.progress, settings)
  {
    hide Consume;
    if events != [] {
      EventsWarn(live, start, events[..|events| - 1], settings);
      var before := ConsumeAll(live, start, events[..|events| - 1], settings);
      if before.Live? {
        EventWarns(before, start, events[|events| - 1], settings);
      } else {
        RejectedConsumes(start, events[|events| - 1], settings);
      }
    }
  }

  lemma RejectedConsumes(start: int, e: Event, settings: Settings)
    ensures Consume(Rejected, start, e, settings) == Rejected
  {
  }

  lemma StepWarns(d: Saved, a: Attempt, settings: Settings)
    requires NotEarly(d.progress, settings)
    ensures NotEarly(LiveStart(d, settings).progress, settings) && NotMissing(LiveStart(d, settings).progress, settings)
    ensures var r := Step(d, a, settings); r.Next? ==> NotEarly(r.saved.progress, settings)
  {
    hide ConsumeAll, CaptureFrom, Progress.Valid;
    var start := LiveStart(d, settings);
    EventsWarn(start, d.progress.tokens, a.events, settings);
    var live := ConsumeAll(start, d.progress.tokens, a.events, settings);
    if Step(d, a, settings).Next? {
      var p := Resolve(live.progress, d.progress, live.terminal.value, settings);
      CaptureKeepsRest(p, |p.frozen| + 1, if p.status == Running then p.tokens else p.ActiveLimit(), settings.block);
    }
  }

  /** Over every run, with losses, rollbacks and retries, the saved state never claims a notice that
      was not yet due, so a later phase still sends it. */
  lemma {:induction false} RunsNeverWarnEarly(d: Saved, retries: nat, attempts: seq<Attempt>, settings: Settings)
    requires NotEarly(d.progress, settings)
    ensures NotEarly(Play(d, retries, attempts, settings).saved.progress, settings)
    decreases |attempts|
  {
    hide Step, CaptureFrom;
    if d.progress.status == Running && d.progress.BudgetStatus() != Running {
      var p := d.progress.(status := d.progress.BudgetStatus());
      CaptureKeepsRest(p, |p.frozen| + 1, p.ActiveLimit(), settings.block);
    } else if d.progress.status == Running && attempts != [] {
      StepWarns(d, attempts[0], settings);
      match Step(d, attempts[0], settings)
      case Next(saved) => RunsNeverWarnEarly(saved, 0, attempts[1..], settings);
      case Lost =>
        if retries < settings.maxRetries { RunsNeverWarnEarly(d, retries + 1, attempts[1..], settings); }
      case Broken =>
    }
  }

  /** A larger allowance forgets the notice and a smaller one leaves it due. */
  lemma ContinuationWarnsAgain(p: Progress, budget: int, settings: Settings)
    requires settings.Valid() && NotEarly(p, settings)
    ensures var c := ContinueState(p, budget, settings.block); c.Reopened? ==> NotEarly(c.progress, settings)
  {
  }
}

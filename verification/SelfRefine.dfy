/** The controller, its recovery and the session manager as objects. Live progress is mutated while a
    phase runs; a save archives it by value, and a restore replaces the live objects. Each method is
    proved against the functions of module Refinement. */
module SelfRefine {
  import opened Options
  import opened AgentSession
  import opened TokenUsage
  import opened Refinement

  class RefinementState {
    var problem: string
    var budget: int
    var pauseAt: Option<int>
    var phase: Phase
    var tokens: int
    var rounds: int
    var cleanCritiques: int
    var warned: bool
    var solution: Option<string>
    var status: Status
    var frozen: map<int, Option<string>>
    var count: int

    function Value(): Progress
      reads this
    {
      Progress(problem, budget, pauseAt, phase, tokens, rounds, cleanCritiques, warned, solution, status, frozen, count)
    }

    constructor (p: Progress)
      ensures Value() == p
    {
      problem, budget, pauseAt, phase, tokens := p.problem, p.budget, p.pauseAt, p.phase, p.tokens;
      rounds, cleanCritiques, warned, solution := p.rounds, p.cleanCritiques, p.warned, p.solution;
      status, frozen, count := p.status, p.frozen, p.count;
    }
  }

  class SessionState {
    const refinement: RefinementState
    const sealed: SealedIds
    var sessionId: Option<string>
    var forkSession: bool

    function Value(): Saved
      reads this, refinement, sealed
    {
      Saved(refinement.Value(), sealed.ids, sessionId, forkSession)
    }

    constructor (refinement: RefinementState, saved: Saved)
      requires refinement.Value() == saved.progress
      ensures this.refinement == refinement && fresh(sealed) && Value() == saved
    {
      this.refinement := refinement;
      sealed := new SealedIds(saved.ids);
      sessionId, forkSession := saved.sessionId, saved.forked;
    }
  }

  /** The archive of one seed, and the live objects while the seed is open. */
  class SessionManager {
    var archive: Option<Saved>
    var sessionState: SessionState?

    constructor (archive: Option<Saved>)
      ensures this.archive == archive && sessionState == null
    {
      this.archive := archive;
      sessionState := null;
    }

    ghost predicate IsOpen()
      reads this, sessionState
    {
      archive.Some? && sessionState != null
    }

    /** Resumes the archive when it is the requested attempt, or archives a new one. */
    method Open(initial: RefinementState) returns (state: RefinementState?)
      requires sessionState == null
      modifies this
      ensures (state != null) == Opened(old(archive), initial.Value()).Some?
      ensures archive == if state != null then Opened(old(archive), initial.Value()) else old(archive)
      ensures state != null ==> IsOpen() && sessionState.refinement == state && archive == Some(sessionState.Value())
      ensures state != null ==> fresh(sessionState) && fresh(sessionState.sealed)
      ensures state != null ==> if old(archive).None? then state == initial else fresh(state)
    {
      state := null;
      if !initial.Value().Valid() { return; }
      if archive.Some? {
        var saved := archive.value.progress;
        if saved.problem != initial.problem || saved.budget != initial.budget { return; }
        state := Restore();
      } else {
        var saved := Saved(initial.Value(), {}, None, false);
        sessionState := new SessionState(initial, saved);
        archive := Some(saved);
        state := initial;
      }
    }

    /** Archives the live objects if they pass validation. */
    method Checkpoint() returns (ok: bool)
      requires IsOpen()
      modifies this`archive
      ensures ok <==> sessionState.refinement.Value().Valid()
      ensures archive == if ok then Some(sessionState.Value()) else old(archive)
    {
      ok := sessionState.refinement.Value().Valid();
      if ok { archive := Some(sessionState.Value()); }
    }

    /** Replaces the live objects by fresh ones read from the archive. */
    method Restore() returns (state: RefinementState)
      requires archive.Some?
      modifies this`sessionState
      ensures IsOpen() && fresh(sessionState) && fresh(sessionState.sealed) && fresh(state)
      ensures sessionState.refinement == state && Some(sessionState.Value()) == archive
    {
      state := new RefinementState(archive.value.progress);
      sessionState := new SessionState(state, archive.value);
    }

    method Close()
      modifies this`sessionState
      ensures sessionState == null
    {
      sessionState := null;
    }

    /** Reopens stopped work with a total allowance; refused work leaves the archive as it is. */
    method ContinueRun(budget: int, block: nat) returns (ok: bool)
      requires IsOpen() && block > 0
      modifies this
      ensures var c := ContinueState(old(archive).value.progress, budget, block);
        && ok == (c.Reopened? && c.progress.Valid())
        && archive == if ok then Some(old(archive).value.(progress := c.progress)) else old(archive)
      ensures ok ==> IsOpen() && archive == Some(sessionState.Value())
    {
      var reopened := ContinueState(archive.value.progress, budget, block);
      if !reopened.Reopened? { return false; }
      var saved := archive.value.(progress := reopened.progress);
      var state := new RefinementState(saved.progress);
      sessionState := new SessionState(state, saved);
      ok := Checkpoint();
    }

    /** Publishes the saved history to a new attempt in one replacement; the source is untouched. */
    method Fork(target: SessionManager, budget: Option<int>, block: nat) returns (ok: bool)
      requires IsOpen() && block > 0 && target != this
      modifies target`archive
      ensures ok <==> old(target.archive).None? && Forked(archive.value, budget, block).Some?
      ensures target.archive == if ok then Forked(archive.value, budget, block) else old(target.archive)
    {
      if target.archive.Some? { return false; }
      var forked := Forked(archive.value, budget, block);
      if forked.None? { return false; }
      target.archive := forked;
      ok := true;
    }
  }

  datatype Outcome = Stopped | ConnectionLost | RunError | OutOfAttempts

  /** How a run goes on after a lost connection. */
  function AfterLoss(d: Saved, retries: nat, rest: seq<Attempt>, settings: Settings): RunResult {
    if retries >= settings.maxRetries then Raised(d) else Play(d, retries + 1, rest, settings)
  }

  class Controller {
    const sessions: SessionManager
    const settings: Settings
    var retries: nat

    constructor (sessions: SessionManager, settings: Settings)
      ensures this.sessions == sessions && this.settings == settings && retries == 0
    {
      this.sessions := sessions;
      this.settings := settings;
      retries := 0;
    }

    /** The loop's progress object is the one a checkpoint would archive. */
    ghost predicate Advancing(state: RefinementState)
      reads sessions, sessions.sessionState
    {
      sessions.IsOpen() && sessions.sessionState.refinement == state
    }

    /** Between phases the live state equals the archive. */
    ghost predicate AtBoundary(state: RefinementState)
      reads sessions, sessions.sessionState, state
      reads if sessions.sessionState == null then {} else {sessions.sessionState.sealed}
    {
      Advancing(state) && Some(sessions.sessionState.Value()) == sessions.archive
    }

    // ----- budgets

    /** Labels are added in order until one stands for a budget beyond `through`. */
    method CaptureSolutionCheckpoints(state: RefinementState, through: int)
      modifies state`frozen
      ensures state.Value() == Capture(old(state.Value()), through, settings.block)
    {
      var multiplier := |state.frozen| + 1;
      ghost var before := state.Value();
      while multiplier <= state.count
        invariant CaptureFrom(state.Value(), multiplier, through, settings.block)
             == Capture(before, through, settings.block)
        invariant state.Value() == before.(frozen := state.frozen)
        decreases state.count + 1 - multiplier
      {
        var limit := if state.pauseAt.None? then state.budget else state.pauseAt.value;
        var boundary := if multiplier == state.count then limit else multiplier * settings.block;
        if boundary > through { break; }
        state.frozen := state.frozen[multiplier := state.solution];
        multiplier := multiplier + 1;
      }
    }

    method UpdateTokenUsage(state: RefinementState, total: int) returns (ok: bool)
      modifies state`tokens, state`frozen
      ensures ok <==> total >= old(state.tokens)
      ensures ok ==> state.Value() == Capture(old(state.Value()).(tokens := total), total - 1, settings.block)
      ensures !ok ==> state.Value() == old(state.Value())
    {
      if total < state.tokens { return false; }
      state.tokens := total;
      CaptureSolutionCheckpoints(state, total - 1);
      ok := true;
    }

    method WarnIfNeeded(state: RefinementState)
      modifies state`warned
      ensures state.Value() == old(state.Value()).Warned(settings)
    {
      if state.warned || state.status != Running || state.Value().BudgetStatus() != Running { return; }
      if state.budget - state.tokens <= settings.warning {
        state.warned := true;
      }
    }

    // ----- one phase

    method ApplyPhaseResult(state: RefinementState, text: string) returns (converged: bool)
      modifies state
      ensures state.Value() == Apply(old(state.Value()), text, settings)
      ensures converged <==> Converged(old(state.Value()), text, settings)
    {
      if state.phase == CritiquePhase {
        state.rounds := state.rounds + 1;
        state.cleanCritiques := if settings.clean(text) then state.cleanCritiques + 1 else 0;
        state.phase := RevisePhase;
        return state.rounds >= settings.minRounds && state.cleanCritiques >= settings.minCleanCritiques;
      }
      state.solution := Some(text);
      state.phase := CritiquePhase;
      converged := false;
    }

    /** Decides what remains of a phase that has ended; a rollback hands back another object. */
    method ResolvePhaseOutcome(state: RefinementState, e: Event) returns (resolved: RefinementState)
      requires Advancing(state) && e.Terminal()
      modifies state, sessions`sessionState
      ensures Advancing(resolved) && sessions.archive == old(sessions.archive)
      ensures resolved.Value() == Resolve(old(state.Value()), sessions.archive.value.progress, e, settings)
      ensures RollsBack(old(state.Value()), e) ==>
        fresh(resolved) && fresh(sessions.sessionState) && fresh(sessions.sessionState.sealed)
        && sessions.sessionState.Value() == sessions.archive.value.(progress := resolved.Value())
      ensures !RollsBack(old(state.Value()), e) ==>
        resolved == state && sessions.sessionState == old(sessions.sessionState)
    {
      resolved := state;
      if RollsBack(state.Value(), e) {
        resolved := sessions.Restore();
        resolved.status := Paused;
      } else if e.Interrupted? || state.tokens > state.budget {
        state.status := state.Value().BudgetStatus();
      } else {
        var converged := ApplyPhaseResult(state, e.text);
        state.status := if converged then Status.Finished else state.Value().BudgetStatus();
      }
    }

    /** Accounts for one event; refused are decreasing usage, events after the terminal one and
        interruptions nobody asked for. */
    method ConsumeEvent(state: RefinementState, startingTokens: int, asked: bool, e: Event, ghost live: Live)
        returns (ok: bool, askedNow: bool)
      requires live == Live(state.Value(), asked, None)
      modifies state`tokens, state`frozen, state`warned
      ensures var next := Consume(live, startingTokens, e, settings);
        && ok == next.Live?
        && (ok ==> next == Live(state.Value(), askedNow, if e.Usage? then None else Some(e)))
    {
      hide Capture, Progress.BudgetStatus, Progress.Warned;
      askedNow := asked;
      ok := UpdateTokenUsage(state, startingTokens + e.tokens);
      if !ok || (e.Interrupted? && !asked) { return false, asked; }
      if e.Usage? {
        askedNow := asked || state.Value().BudgetStatus() != Running;
        WarnIfNeeded(state);
      }
    }

    /** Consumes one phase's events; the terminal event is resolved by the caller. */
    method ConsumePhase(state: RefinementState, a: Attempt) returns (outcome: Outcome, terminal: Option<Event>)
      requires Advancing(state)
      modifies state
      ensures var live := ConsumeAll(Live(old(state.Value()), false, None), old(state.tokens), a.events, settings);
        && (outcome == RunError <==> live.Rejected? || (!a.lost && live.terminal.None?))
        && (outcome == ConnectionLost <==> live.Live? && a.lost)
        && (outcome == Stopped ==>
              live == Live(state.Value(), live.asked, terminal) && terminal.Some? && terminal.value.Terminal())
        && outcome != OutOfAttempts
    {
      hide Consume;
      ghost var start := Live(state.Value(), false, None);
      var startingTokens, asked := state.tokens, false;
      terminal := None;
      for i := 0 to |a.events|
        invariant ConsumeAll(start, startingTokens, a.events[..i], settings) == Live(state.Value(), asked, terminal)
        invariant terminal.Some? ==> terminal.value.Terminal()
      {
        var e := a.events[i];
        ghost var live := Live(state.Value(), asked, terminal);
        ConsumeNext(start, startingTokens, a.events, settings, i, live);
        if terminal.Some? { return RunError, None; }
        var ok;
        ok, asked := ConsumeEvent(state, startingTokens, asked, e, live);
        if !ok { return RunError, None; }
        if !e.Usage? { terminal := Some(e); }
      }
      assert a.events[..|a.events|] == a.events;
      outcome := if a.lost then ConnectionLost else if terminal.None? then RunError else Stopped;
    }

    // ----- the loops

    /** Resolves the phase, freezes what its end has reached and checkpoints; only a state that fails
        validation is not saved. */
    method EndPhase(state: RefinementState, e: Event) returns (saved: bool, next: RefinementState)
      requires Advancing(state) && e.Terminal()
      modifies this`retries, state, sessions`sessionState, sessions`archive
      ensures var d, q := old(sessions.archive).value, old(state.Value());
              var p := CaptureAtEnd(Resolve(q, d.progress, e, settings), settings.block);
        && saved == p.Valid()
        && sessions.archive == Some(if !saved then d
                                    else if RollsBack(q, e) then d.(progress := p)
                                    else old(sessions.sessionState.Value()).(progress := p))
      ensures saved ==> AtBoundary(next) && retries == 0
      ensures !saved ==> retries == old(retries)
      ensures next == state || fresh(next)
      ensures sessions.sessionState != null
      ensures sessions.sessionState == old(sessions.sessionState) || fresh(sessions.sessionState)
      ensures sessions.sessionState.sealed == old(sessions.sessionState.sealed) || fresh(sessions.sessionState.sealed)
    {
      hide Capture, Resolve, RollsBack, Progress.Valid;
      next := ResolvePhaseOutcome(state, e);
      CaptureSolutionCheckpoints(next, if next.status == Running then next.tokens else next.Value().ActiveLimit());
      saved := sessions.Checkpoint();
      if saved { retries := 0; }
    }

    /** Runs one phase from a boundary and checkpoints it, or reports what went wrong. The identities
        it seals are live at once, so a lost phase leaves them to the next restore. */
    method RunPhase(state: RefinementState, a: Attempt) returns (outcome: Outcome, next: RefinementState)
      requires AtBoundary(state) && state.Value().status == Running && state.Value().BudgetStatus() == Running
      modifies this`retries, state, sessions, sessions.sessionState, sessions.sessionState.sealed
      ensures var r := Step(old(sessions.archive).value, a, settings);
        && (outcome == Stopped <==> r.Next?) && (outcome == ConnectionLost <==> r.Lost?)
              && (outcome == RunError <==> r.Broken?)
        && sessions.archive == (if r.Next? then Some(r.saved) else old(sessions.archive))
        && (r.Next? ==> AtBoundary(next) && retries == 0)
        && (!r.Next? ==> retries == old(retries))
      ensures next == state || fresh(next)
      ensures sessions.sessionState != null
      ensures sessions.sessionState == old(sessions.sessionState) || fresh(sessions.sessionState)
      ensures sessions.sessionState.sealed == old(sessions.sessionState.sealed) || fresh(sessions.sessionState.sealed)
    {
      hide Capture, Resolve, RollsBack, Progress.Valid, Progress.BudgetStatus, ConsumeAll;
      ghost var d := sessions.archive.value;
      next := state;
      sessions.sessionState.sessionId := Some(a.sessionId);
      sessions.sessionState.forkSession := false;
      WarnIfNeeded(state);
      assert Live(state.Value(), false, None) == LiveStart(d, settings);
      sessions.sessionState.sealed.ids := sessions.sessionState.sealed.ids + a.ids;
      var terminal;
      outcome, terminal := ConsumePhase(state, a);
      if outcome != Stopped { return; }
      assert sessions.sessionState.Value() == Saved(state.Value(), d.ids + a.ids, Some(a.sessionId), false);
      var saved;
      saved, next := EndPhase(state, terminal.value);
      if !saved { outcome := RunError; }
    }

    /** Runs phases, each from the last checkpoint, until the work stops, the connection is lost or
        the conversation breaks its protocol. */
    method RunPhases(state: RefinementState, attempts: seq<Attempt>)
        returns (outcome: Outcome, final: RefinementState, used: nat)
      requires AtBoundary(state)
      modifies this`retries, state, sessions, sessions.sessionState, sessions.sessionState.sealed
      ensures used <= |attempts| && sessions.archive.Some? && sessions.sessionState != null
      ensures var r := Play(old(sessions.archive).value, old(retries), attempts, settings);
              var saved := sessions.archive.value;
        && (outcome == Stopped ==> r == Returned(saved) && AtBoundary(final))
        && (outcome == RunError ==> r == Raised(saved))
        && (outcome == OutOfAttempts ==> r == Waiting(saved, retries))
        && (outcome == ConnectionLost ==> used > 0 && r == AfterLoss(saved, retries, attempts[used..], settings))
      ensures final == state || fresh(final)
      ensures sessions.sessionState == old(sessions.sessionState) || fresh(sessions.sessionState)
      ensures sessions.sessionState.sealed == old(sessions.sessionState.sealed) || fresh(sessions.sessionState.sealed)
    {
      hide Step, Capture, Progress.Valid;
      ghost var result := Play(sessions.archive.value, retries, attempts, settings);
      final, used := state, 0;
      if state.status != Running { return Stopped, final, used; }
      while true
        invariant AtBoundary(final) && final.status == Running && used <= |attempts|
        invariant result == Play(sessions.archive.value, retries, attempts[used..], settings)
        invariant final == state || fresh(final)
        invariant sessions.sessionState == old(sessions.sessionState) || fresh(sessions.sessionState)
        invariant || sessions.sessionState.sealed == old(sessions.sessionState.sealed)
                  || fresh(sessions.sessionState.sealed)
        decreases |attempts| - used
      {
        ghost var d := sessions.archive.value;
        var status := final.Value().BudgetStatus();
        if status != Running {
          final.status := status;
          CaptureSolutionCheckpoints(final, final.Value().ActiveLimit());
          var saved := sessions.Checkpoint();
          outcome := if saved then Stopped else RunError;
          return;
        }
        if used == |attempts| { return OutOfAttempts, final, used; }
        assert attempts[used..][0] == attempts[used] && attempts[used..][1..] == attempts[used + 1..];
        outcome, final := RunPhase(final, attempts[used]);
        used := used + 1;
        if outcome != Stopped || final.status != Running { return outcome, final, used; }
      }
    }

    /** Retries lost phases from the last checkpoint within the allowance. */
    method RetryPhases(state: RefinementState, attempts: seq<Attempt>)
        returns (result: RunResult, final: RefinementState)
      requires AtBoundary(state)
      modifies this`retries, state, sessions, sessions.sessionState, sessions.sessionState.sealed
      ensures result == Play(old(sessions.archive).value, old(retries), attempts, settings)
      ensures sessions.archive == Some(result.saved)
      ensures result.Returned? ==> final.Value() == result.saved.progress
    {
      hide Play, Progress.BudgetStatus, Capture;
      ghost var expected := Play(sessions.archive.value, retries, attempts, settings);
      var rest, used, outcome := attempts, 0, ConnectionLost;
      final := state;
      while true
        invariant AtBoundary(final) && expected == Play(sessions.archive.value, retries, rest, settings)
        invariant final == state || fresh(final)
        invariant sessions.sessionState == old(sessions.sessionState) || fresh(sessions.sessionState)
        invariant || sessions.sessionState.sealed == old(sessions.sessionState.sealed)
                  || fresh(sessions.sessionState.sealed)
        decreases |rest|
      {
        outcome, final, used := RunPhases(final, rest);
        var saved := sessions.archive.value;
        match outcome
        case Stopped => return Returned(saved), final;
        case OutOfAttempts => return RunResult.Waiting(saved, retries), final;
        case RunError => return Raised(saved), final;
        case ConnectionLost =>
          if retries >= settings.maxRetries { return Raised(saved), final; }
          retries := retries + 1;
          final := sessions.Restore();
          rest := rest[used..];
      }
    }

    /** Opens the attempt and runs it to its end. `None` means the archive refused the request. */
    method Run(initial: RefinementState, attempts: seq<Attempt>)
        returns (result: Option<RunResult>, final: RefinementState)
      requires sessions.sessionState == null
      modifies this`retries, sessions, initial
      ensures var start := Opened(old(sessions.archive), old(initial.Value()));
        if start.None? then result.None? else result == Some(Play(start.value, 0, attempts, settings))
      ensures result.None? ==> sessions.archive == old(sessions.archive)
      ensures result.Some? ==>
        && sessions.archive == Some(result.value.saved)
        && (result.value.Returned? ==> final.Value() == result.value.saved.progress)
      ensures sessions.sessionState == null
    {
      hide Play, Opened;
      final := initial;
      var loaded := sessions.Open(initial);
      if loaded == null {
        sessions.Close();
        return None, final;
      }
      retries := 0;
      var ended;
      ended, final := RetryPhases(loaded, attempts);
      sessions.Close();
      result := Some(ended);
    }
  }

  /** One more event consumed; once rejected, a phase stays rejected. */
  lemma ConsumeNext(start: Live, tokens: int, events: seq<Event>, settings: Settings, i: nat, live: Live)
    requires i < |events| && ConsumeAll(start, tokens, events[..i], settings) == live
    ensures ConsumeAll(start, tokens, events[..i + 1], settings) == Consume(live, tokens, events[i], settings)
    ensures Consume(live, tokens, events[i], settings).Rejected? ==>
      ConsumeAll(start, tokens, events, settings).Rejected?
    ensures live.Live? && live.terminal.Some? ==> ConsumeAll(start, tokens, events, settings).Rejected?
  {
    assert events[..i + 1][..i] == events[..i];
    if Consume(live, tokens, events[i], settings).Rejected? { RejectedStays(start, tokens, events, settings, i + 1); }
  }

  lemma {:induction false} RejectedStays(live: Live, start: int, events: seq<Event>, settings: Settings, n: nat)
    requires n <= |events| && ConsumeAll(live, start, events[..n], settings).Rejected?
    ensures ConsumeAll(live, start, events, settings).Rejected?
  {
    if n == |events| {
      assert events[..n] == events;
    } else {
      var rest := events[..|events| - 1];
      assert rest[..n] == events[..n];
      RejectedStays(live, start, rest, settings, n);
    }
  }
}

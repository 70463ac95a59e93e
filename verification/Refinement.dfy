/** Refinement progress as a value: budget status, frozen budget solutions, one phase driven by the
    session's events, continuation and forking. The controller's methods are proved against these
    functions, and the properties of whole runs are proved about them. */
module Refinement {
  import opened Options
  import opened AgentSession
  import opened TokenUsage

  datatype Phase = SolvePhase | CritiquePhase | RevisePhase | ContinuePhase
  datatype Status = Running | Finished | Exhausted | Paused

  /** Convergence settings and the harness constants; `clean` reads a critique's verdict. */
  datatype Settings = Settings(block: nat, warning: nat, minRounds: nat, minCleanCritiques: nat,
                               maxRetries: nat, clean: string -> bool)
  {
    predicate Valid() {
      block > 0 && minCleanCritiques > 0
    }
  }

  function CeilDiv(x: int, y: nat): int
    requires y > 0
  {
    -((-x) / y)
  }

  function BoundaryOf(count: int, limit: int, mark: int, block: nat): int {
    if mark == count then limit else mark * block
  }

  datatype Progress = Progress(problem: string, budget: int, pauseAt: Option<int>, phase: Phase, tokens: int,
                               rounds: int, cleanCritiques: int, warned: bool, solution: Option<string>,
                               status: Status, frozen: map<int, Option<string>>, count: int)
  {
    function ActiveLimit(): int {
      if pauseAt.None? then budget else pauseAt.value
    }

    function BudgetStatus(): Status {
      if tokens >= budget then Exhausted
      else if pauseAt.Some? && tokens >= pauseAt.value then Paused
      else Running
    }

    /** The representation check made before every save. */
    predicate Valid() {
      && !Blank(problem) && budget > 0 && tokens >= 0
      && (pauseAt.Some? ==> 0 < pauseAt.value < budget)
      && 0 <= cleanCritiques <= rounds && count > 0
      && Contiguous() && |frozen| <= count
    }

    predicate Contiguous() {
      && (forall m :: m in frozen ==> 1 <= m <= |frozen|)
      && (forall m :: 1 <= m <= |frozen| ==> m in frozen)
    }

    /** The budget a label stands for: the last label takes the active limit. */
    function Boundary(mark: int, block: nat): int {
      BoundaryOf(count, ActiveLimit(), mark, block)
    }

    function Warned(settings: Settings): Progress {
      if warned || status != Running || BudgetStatus() != Running then this
      else if budget - tokens <= settings.warning then this.(warned := true)
      else this
    }
  }

  function Initial(problem: string, budget: int, pauseAt: Option<int>, block: nat): Progress
    requires block > 0
  {
    var limit := if pauseAt.None? then budget else pauseAt.value;
    Progress(problem, budget, pauseAt, SolvePhase, 0, 0, 0, false, None, Running, map[], CeilDiv(limit, block))
  }

  // ----- freezing solutions at crossed budgets

  function CaptureFrom(p: Progress, mark: int, through: int, block: nat): Progress
    decreases p.count + 1 - mark
  {
    if mark > p.count || p.Boundary(mark, block) > through then p
    else CaptureFrom(p.(frozen := p.frozen[mark := p.solution]), mark + 1, through, block)
  }

  /** Freezes the current solution at every further label whose boundary is at most `through`. */
  function Capture(p: Progress, through: int, block: nat): Progress {
    CaptureFrom(p, |p.frozen| + 1, through, block)
  }

  // ----- one phase

  /** A phase in progress: has an interrupt been requested, and which terminal event arrived. */
  datatype Live = Live(progress: Progress, asked: bool, terminal: Option<Event>) | Rejected

  function Consume(live: Live, start: int, e: Event, settings: Settings): Live {
    if live.Rejected? || live.terminal.Some? then Rejected
    else if start + e.tokens < live.progress.tokens then Rejected
    else
      var p := Capture(live.progress.(tokens := start + e.tokens), start + e.tokens - 1, settings.block);
      match e
      case Usage(_) => Live(p.Warned(settings), live.asked || p.BudgetStatus() != Running, None)
      case Completed(_, _) => Live(p, live.asked, Some(e))
      case Interrupted(_) => if live.asked then Live(p, true, Some(e)) else Rejected
  }

  function ConsumeAll(live: Live, start: int, events: seq<Event>, settings: Settings): Live {
    if events == [] then live
    else Consume(ConsumeAll(live, start, events[..|events| - 1], settings), start, events[|events| - 1], settings)
  }

  /** Applies a completed phase: a solution, or a critique and its streak. */
  function Apply(p: Progress, text: string, settings: Settings): Progress {
    if p.phase == CritiquePhase then
      p.(rounds := p.rounds + 1,
         cleanCritiques := if settings.clean(text) then p.cleanCritiques + 1 else 0,
         phase := RevisePhase)
    else p.(solution := Some(text), phase := CritiquePhase)
  }

  predicate Converged(p: Progress, text: string, settings: Settings) {
    && p.phase == CritiquePhase
    && Apply(p, text, settings).rounds >= settings.minRounds
    && Apply(p, text, settings).cleanCritiques >= settings.minCleanCritiques
  }

  /** An ineligible prefix phase is undone before pausing. */
  predicate RollsBack(p: Progress, e: Event) {
    p.pauseAt.Some? && (p.tokens > p.pauseAt.value || (e.Interrupted? && p.tokens >= p.pauseAt.value))
  }

  function Resolve(p: Progress, durable: Progress, e: Event, settings: Settings): Progress {
    if RollsBack(p, e) then durable.(status := Paused)
    else if !e.Completed? || p.tokens > p.budget then p.(status := p.BudgetStatus())
    else
      var q := Apply(p, e.text, settings);
      q.(status := if Converged(p, e.text, settings) then Finished else q.BudgetStatus())
  }

  function CaptureAtEnd(p: Progress, block: nat): Progress {
    Capture(p, if p.status == Running then p.tokens else p.ActiveLimit(), block)
  }

  /** What a checkpoint archives. */
  datatype Saved = Saved(progress: Progress, ids: set<MessageId>, sessionId: Option<string>, forked: bool)

  /** The saved state a request starts from: a valid request opens a new archive or resumes the
      archive of the same problem and budget. */
  function Opened(archive: Option<Saved>, initial: Progress): Option<Saved> {
    if !initial.Valid() then None
    else if archive.None? then Some(Saved(initial, {}, None, false))
    else
      var saved := archive.value.progress;
      if saved.problem != initial.problem || saved.budget != initial.budget then None else archive
  }

  /** One attempt at a phase: the connection's conversation id, the events that arrived, whether the
      connection was lost after them, and the message identities sealed meanwhile. */
  datatype Attempt = Attempt(sessionId: string, events: seq<Event>, lost: bool, ids: set<MessageId>)

  datatype StepResult = Next(saved: Saved) | Lost | Broken

  function LiveStart(d: Saved, settings: Settings): Live {
    Live(d.progress.Warned(settings), false, None)
  }

  function Step(d: Saved, a: Attempt, settings: Settings): StepResult {
    var live := ConsumeAll(LiveStart(d, settings), d.progress.tokens, a.events, settings);
    if live.Rejected? then Broken
    else if a.lost then Lost
    else if live.terminal.None? then Broken
    else
      var p := CaptureAtEnd(Resolve(live.progress, d.progress, live.terminal.value, settings), settings.block);
      if !p.Valid() then Broken
      else if RollsBack(live.progress, live.terminal.value) then Next(d.(progress := p))
      else Next(Saved(p, d.ids + a.ids, Some(a.sessionId), false))
  }

  // ----- whole runs

  /** A run with failures: lost phases are retried from the last save, at most maxRetries times in a
      row; any other error ends the run. */
  datatype RunResult = Waiting(saved: Saved, retries: nat) | Returned(saved: Saved) | Raised(saved: Saved)

  function Play(d: Saved, retries: nat, attempts: seq<Attempt>, settings: Settings): RunResult
    decreases |attempts|
  {
    if d.progress.status != Running then Returned(d)
    else if d.progress.BudgetStatus() != Running then
      var p := CaptureAtEnd(d.progress.(status := d.progress.BudgetStatus()), settings.block);
      if p.Valid() then Returned(d.(progress := p)) else Raised(d)
    else if attempts == [] then Waiting(d, retries)
    else
      match Step(d, attempts[0], settings)
      case Next(saved) => Play(saved, 0, attempts[1..], settings)
      case Lost => if retries >= settings.maxRetries then Raised(d) else Play(d, retries + 1, attempts[1..], settings)
      case Broken => Raised(d)
  }

  /** A completed phase that produced a solution, and the cumulative tokens when it completed. */
  datatype Entry = Entry(tokens: int, text: string)

  /** The attempt completed a phase within its allowance and the phase was saved. */
  predicate Kept(d: Saved, a: Attempt, settings: Settings) {
    var live := ConsumeAll(LiveStart(d, settings), d.progress.tokens, a.events, settings);
    && Step(d, a, settings).Next? && live.terminal.value.Completed? && !RollsBack(live.progress, live.terminal.value)
    && live.progress.tokens <= live.progress.budget
  }

  /** The history of solution phases that were kept. */
  function Record(h: seq<Entry>, d: Saved, a: Attempt, settings: Settings): seq<Entry> {
    var live := ConsumeAll(LiveStart(d, settings), d.progress.tokens, a.events, settings);
    if Kept(d, a, settings) && d.progress.phase != CritiquePhase then
      h + [Entry(live.progress.tokens, live.terminal.value.text)]
    else h
  }

  function PlayHistory(h: seq<Entry>, d: Saved, retries: nat, attempts: seq<Attempt>, settings: Settings): seq<Entry>
    decreases |attempts|
  {
    if d.progress.status != Running || d.progress.BudgetStatus() != Running || attempts == [] then h
    else
      match Step(d, attempts[0], settings)
      case Next(saved) => PlayHistory(Record(h, d, attempts[0], settings), saved, 0, attempts[1..], settings)
      case Lost => if retries >= settings.maxRetries then h else PlayHistory(h, d, retries + 1, attempts[1..], settings)
      case Broken => h
  }

  // ----- continuation and forks

  datatype Continuation = Reopened(progress: Progress) | NotStopped | BudgetSpent

  function ContinueState(p: Progress, budget: int, block: nat): Continuation
    requires block > 0
  {
    if p.status == Running then NotStopped
    else if budget <= p.tokens then BudgetSpent
    else Reopened(p.(warned := if budget > p.budget then false else p.warned,
                     count := |p.frozen| + CeilDiv(budget - p.tokens, block),
                     budget := budget, pauseAt := None, cleanCritiques := 0, status := Running))
  }

  /** The archive published for a branch; None keeps the saved progress as it is. */
  function Forked(d: Saved, budget: Option<int>, block: nat): Option<Saved>
    requires block > 0
  {
    if budget.None? then Some(d.(forked := d.sessionId.Some?))
    else
      match ContinueState(d.progress, budget.value, block)
      case Reopened(p) => Some(d.(progress := p.(phase := ContinuePhase), forked := d.sessionId.Some?))
      case _ => None
  }
}

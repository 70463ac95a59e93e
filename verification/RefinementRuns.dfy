/** Properties of whole refinement runs: frozen solutions agree with the history of completed
    phases, stopping is complete, lost phases leave nothing behind, and every run ends. */
module RefinementRuns {
  import opened Options
  import opened AgentSession
  import opened TokenUsage
  import opened Refinement

  // ----- history

  function LastTokens(h: seq<Entry>): int {
    if h == [] then 0 else h[|h| - 1].tokens
  }

  function LastText(h: seq<Entry>): Option<string> {
    if h == [] then None else Some(h[|h| - 1].text)
  }

  ghost predicate Sorted(h: seq<Entry>) {
    && (forall i, j :: 0 <= i < j < |h| ==> h[i].tokens < h[j].tokens)
    && (forall i :: 0 <= i < |h| ==> h[i].tokens >= 0)
  }

  /** The last solution completed with cumulative tokens within the boundary. */
  function SolutionAt(h: seq<Entry>, boundary: int): Option<string> {
    if h == [] then None
    else if h[|h| - 1].tokens <= boundary then Some(h[|h| - 1].text)
    else SolutionAt(h[..|h| - 1], boundary)
  }

  lemma SolutionAtEnd(h: seq<Entry>, boundary: int)
    requires LastTokens(h) <= boundary
    ensures SolutionAt(h, boundary) == LastText(h)
  {
  }

  lemma SolutionAtEarlier(h: seq<Entry>, e: Entry, boundary: int)
    requires e.tokens > boundary
    ensures SolutionAt(h + [e], boundary) == SolutionAt(h, boundary)
  {
    assert (h + [e])[..|h|] == h;
  }

  // ----- boundaries

  lemma BlockOrder(m: int, n: int, block: nat)
    requires m <= n
    ensures m * block <= n * block
  {
    assert (n - m) * block >= 0;
  }

  /** A limit on the last entry that the next boundary respects is respected by every later one. */
  lemma LaterBoundary(p: Progress, m: int, n: int, block: nat, tokens: int)
    requires m <= n <= p.count && tokens <= p.Boundary(m, block) && tokens <= p.ActiveLimit()
    ensures tokens <= p.Boundary(n, block)
  {
    BlockOrder(m, n, block);
  }

  // ----- capturing

  /** Capturing only adds labels, consecutively, all with the current solution, exactly while the
      boundary is reached. */
  ghost predicate Captured(p: Progress, q: Progress, through: int, block: nat) {
    && q == p.(frozen := q.frozen)
    && q.Contiguous() && |p.frozen| <= |q.frozen|
    && (|p.frozen| <= p.count ==> |q.frozen| <= p.count)
    && (forall m :: m in p.frozen ==> m in q.frozen && q.frozen[m] == p.frozen[m])
    && (forall m :: m in q.frozen && m !in p.frozen ==> q.frozen[m] == p.solution && p.Boundary(m, block) <= through)
    && (|q.frozen| >= p.count || p.Boundary(|q.frozen| + 1, block) > through)
  }

  lemma Extend(p: Progress, text: Option<string>)
    requires p.Contiguous()
    ensures var n := |p.frozen| + 1;
      n !in p.frozen && |p.frozen[n := text]| == n && p.(frozen := p.frozen[n := text]).Contiguous()
  {
    var n := |p.frozen| + 1;
    assert n !in p.frozen;
    assert p.frozen[n := text].Keys == p.frozen.Keys + {n};
    assert |p.frozen[n := text].Keys| == |p.frozen[n := text]|;
  }

  lemma CaptureOnce(p: Progress, through: int, block: nat)
    requires p.Contiguous()
    requires |p.frozen| + 1 <= p.count && p.Boundary(|p.frozen| + 1, block) <= through
    ensures Capture(p, through, block) == Capture(p.(frozen := p.frozen[|p.frozen| + 1 := p.solution]), through, block)
  {
    hide BoundaryOf;
    Extend(p, p.solution);
  }

  lemma CapturedOnce(p: Progress, q: Progress, r: Progress, through: int, block: nat)
    requires p.Contiguous() && q == p.(frozen := p.frozen[|p.frozen| + 1 := p.solution])
    requires Captured(q, r, through, block)
    requires |p.frozen| + 1 <= p.count && p.Boundary(|p.frozen| + 1, block) <= through
    ensures Captured(p, r, through, block)
  {
    hide BoundaryOf;
    Extend(p, p.solution);
  }

  lemma CapturedNothing(p: Progress, through: int, block: nat)
    requires p.Contiguous() && (|p.frozen| + 1 > p.count || p.Boundary(|p.frozen| + 1, block) > through)
    ensures Captured(p, Capture(p, through, block), through, block)
  {
    hide BoundaryOf;
  }

  lemma {:induction false} CaptureFacts(p: Progress, through: int, block: nat)
    requires p.Contiguous()
    ensures Captured(p, Capture(p, through, block), through, block)
    decreases p.count - |p.frozen|
  {
    hide BoundaryOf, Captured, Capture;
    var n := |p.frozen| + 1;
    if n <= p.count && p.Boundary(n, block) <= through {
      Extend(p, p.solution);
      var q := p.(frozen := p.frozen[n := p.solution]);
      CaptureFacts(q, through, block);
      CaptureOnce(p, through, block);
      CapturedOnce(p, q, Capture(p, through, block), through, block);
    } else {
      CapturedNothing(p, through, block);
    }
  }

  /** Capturing touches the frozen labels only. */
  lemma {:induction false} CaptureKeepsRest(p: Progress, mark: int, through: int, block: nat)
    ensures var q := CaptureFrom(p, mark, through, block); q == p.(frozen := q.frozen)
    decreases p.count + 1 - mark
  {
    if mark <= p.count && p.Boundary(mark, block) <= through {
      CaptureKeepsRest(p.(frozen := p.frozen[mark := p.solution]), mark + 1, through, block);
    }
  }

  // ----- the invariant

  /** The progress saved between phases agrees with the history h. Labels up to `kept` were frozen
      before this allowance was granted and are not constrained here. */
  ghost predicate Agrees(p: Progress, h: seq<Entry>, kept: int, block: nat) {
    && p.Valid() && 0 <= kept <= |p.frozen|
    && Sorted(h) && LastTokens(h) <= p.tokens && LastTokens(h) <= p.ActiveLimit() && p.solution == LastText(h)
    && (forall m :: kept < m <= |p.frozen| ==> p.frozen[m] == SolutionAt(h, p.Boundary(m, block)))
  }

  /** Between phases of a running attempt: below the limit, everything reached is frozen, and the
      last solution belongs to the next boundary. */
  ghost predicate Ready(p: Progress, h: seq<Entry>, kept: int, block: nat) {
    && Agrees(p, h, kept, block) && p.status == Running
    && p.tokens < p.ActiveLimit() && |p.frozen| < p.count
    && LastTokens(h) <= p.Boundary(|p.frozen| + 1, block)
    && (forall m :: kept < m <= |p.frozen| ==> p.Boundary(m, block) <= p.tokens)
  }

  /** Enough budget for every block label before the last one. */
  ghost predicate Allotted(p: Progress, kept: int, block: nat) {
    p.count <= kept + 1 || (p.count - 1) * block <= p.ActiveLimit()
  }

  /** A stopped attempt has all its labels exactly when the last block label was within the
      allowance or was overrun by usage. */
  ghost predicate Stopped(p: Progress, h: seq<Entry>, kept: int, block: nat) {
    && Agrees(p, h, kept, block) && p.status != Running
    && (|p.frozen| == p.count <==> Allotted(p, kept, block) || (p.count - 1) * block < p.tokens)
  }

  ghost predicate Sound(p: Progress, h: seq<Entry>, kept: int, block: nat) {
    Ready(p, h, kept, block) || Stopped(p, h, kept, block)
  }

  // ----- one phase

  /** A phase in progress differs from its saved start in tokens, the warning flag and labels frozen
      with the old solution at boundaries already passed. */
  ghost predicate During(p: Progress, q: Progress, block: nat) {
    && q == p.(tokens := q.tokens, warned := q.warned, frozen := q.frozen)
    && p.tokens <= q.tokens && q.Contiguous() && |p.frozen| <= |q.frozen| <= p.count
    && (forall m :: m in p.frozen ==> m in q.frozen && q.frozen[m] == p.frozen[m])
    && (forall m :: m in q.frozen && m !in p.frozen ==> q.frozen[m] == p.solution && p.Boundary(m, block) < q.tokens)
  }

  ghost predicate Passed(p: Progress, q: Progress, block: nat) {
    |q.frozen| >= p.count || p.Boundary(|q.frozen| + 1, block) >= q.tokens
  }

  ghost predicate InPhase(p: Progress, live: Live, block: nat) {
    live.Live? ==>
      && During(p, live.progress, block)
      && (live.asked ==> live.progress.BudgetStatus() != Running)
      && (live.terminal.Some? ==>
            && Passed(p, live.progress, block) && live.terminal.value.Terminal()
            && live.progress.tokens == p.tokens + live.terminal.value.tokens
            && (live.terminal.value.Interrupted? ==> live.asked))
  }

  lemma UsageKeeps(p: Progress, q: Progress, total: int, block: nat)
    requires During(p, q, block) && q.tokens <= total
    ensures var r := Capture(q.(tokens := total), total - 1, block);
      During(p, r, block) && Passed(p, r, block) && r.tokens == total
  {
    hide BoundaryOf, Capture;
    var q' := q.(tokens := total);
    CaptureFacts(q', total - 1, block);
    var r := Capture(q', total - 1, block);
    forall m | m in r.frozen && m !in p.frozen ensures r.frozen[m] == p.solution && p.Boundary(m, block) < total {
      if m in q.frozen { assert p.Boundary(m, block) < q.tokens; }
    }
  }

  lemma WarningKeeps(p: Progress, q: Progress, settings: Settings)
    requires During(p, q, settings.block)
    ensures During(p, q.Warned(settings), settings.block) && q.Warned(settings).BudgetStatus() == q.BudgetStatus()
  {
    hide BoundaryOf;
  }

  lemma ConsumeKeeps(p: Progress, live: Live, e: Event, settings: Settings)
    requires p.Valid() && InPhase(p, live, settings.block)
    ensures InPhase(p, Consume(live, p.tokens, e, settings), settings.block)
  {
    hide During, Passed, Capture, Progress.Valid;
    var next := Consume(live, p.tokens, e, settings);
    if next.Live? {
      UsageKeeps(p, live.progress, p.tokens + e.tokens, settings.block);
      var q := Capture(live.progress.(tokens := p.tokens + e.tokens), p.tokens + e.tokens - 1, settings.block);
      WarningKeeps(p, q, settings);
      if live.asked { StillOver(p, live.progress, q, settings.block); }
    }
  }

  /** Once over budget, more usage cannot bring the phase back under it. */
  lemma StillOver(p: Progress, q: Progress, r: Progress, block: nat)
    requires During(p, q, block) && During(p, r, block) && q.tokens <= r.tokens && q.BudgetStatus() != Running
    ensures r.BudgetStatus() != Running
  {
    hide BoundaryOf;
  }

  lemma {:induction false} ConsumeAllKeeps(p: Progress, live: Live, events: seq<Event>, settings: Settings)
    requires p.Valid() && InPhase(p, live, settings.block)
    ensures InPhase(p, ConsumeAll(live, p.tokens, events, settings), settings.block)
  {
    if events != [] {
      ConsumeAllKeeps(p, live, events[..|events| - 1], settings);
      ConsumeKeeps(p, ConsumeAll(live, p.tokens, events[..|events| - 1], settings), events[|events| - 1], settings);
    }
  }

  /** What the session guarantees about completions. */
  ghost predicate Genuine(a: Attempt) {
    forall i :: 0 <= i < |a.events| && a.events[i].Completed? ==> a.events[i].tokens > 0
  }

  lemma {:induction false} TerminalIsListed(live: Live, start: int, events: seq<Event>, settings: Settings)
    requires live.Live? && live.terminal.None?
    ensures var after := ConsumeAll(live, start, events, settings);
      after.Live? && after.terminal.Some? ==> after.terminal.value in events
  {
    if events != [] {
      TerminalIsListed(live, start, events[..|events| - 1], settings);
    }
  }

  /** Labels frozen on top of an agreeing state with a solution that is the last one of the history. */
  lemma CaptureAgrees(p: Progress, h: seq<Entry>, kept: int, through: int, block: nat)
    requires Agrees(p, h, kept, block)
    requires |p.frozen| < p.count ==> LastTokens(h) <= p.Boundary(|p.frozen| + 1, block)
    ensures Agrees(Capture(p, through, block), h, kept, block)
    ensures Captured(p, Capture(p, through, block), through, block)
  {
    var q := Capture(p, through, block);
    CaptureFacts(p, through, block);
    forall m | kept < m <= |q.frozen| ensures q.frozen[m] == SolutionAt(h, q.Boundary(m, block)) {
      if m !in p.frozen {
        LaterBoundary(p, |p.frozen| + 1, m, block, LastTokens(h));
        SolutionAtEnd(h, p.Boundary(m, block));
      }
    }
  }

  /** While a phase runs, its progress still agrees with the history saved before it. */
  lemma DuringAgrees(p: Progress, q: Progress, h: seq<Entry>, kept: int, block: nat)
    requires Ready(p, h, kept, block) && During(p, q, block)
    ensures Agrees(q, h, kept, block)
    ensures |q.frozen| < p.count ==> LastTokens(h) <= p.Boundary(|q.frozen| + 1, block)
    ensures forall m :: kept < m <= |q.frozen| ==> p.Boundary(m, block) <= p.tokens || p.Boundary(m, block) < q.tokens
  {
    hide BoundaryOf, SolutionAt, Sorted;
    forall m | kept < m <= |q.frozen| ensures q.frozen[m] == SolutionAt(h, q.Boundary(m, block)) {
      if m !in p.frozen {
        LaterBoundary(p, |p.frozen| + 1, m, block, LastTokens(h));
        SolutionAtEnd(h, p.Boundary(m, block));
      }
    }
    if |q.frozen| < p.count {
      LaterBoundary(p, |p.frozen| + 1, |q.frozen| + 1, block, LastTokens(h));
    }
  }

  /** A new solution leaves the frozen labels as they are: they lie before it. */
  lemma AppendAgrees(q: Progress, h: seq<Entry>, kept: int, block: nat, e: Entry)
    requires Agrees(q, h, kept, block)
    requires e.tokens == q.tokens && LastTokens(h) < e.tokens && 0 < e.tokens <= q.ActiveLimit()
    requires forall m :: kept < m <= |q.frozen| ==> q.Boundary(m, block) < e.tokens
    ensures Agrees(q.(solution := Some(e.text), phase := CritiquePhase), h + [e], kept, block)
  {
    hide BoundaryOf;
    var r, h' := q.(solution := Some(e.text), phase := CritiquePhase), h + [e];
    forall i | 0 <= i < |h| ensures h[i].tokens < e.tokens {
      if i < |h| - 1 { assert h[i].tokens < h[|h| - 1].tokens; }
    }
    forall m | kept < m <= |r.frozen| ensures r.frozen[m] == SolutionAt(h', r.Boundary(m, block)) {
      SolutionAtEarlier(h, e, q.Boundary(m, block));
    }
  }

  /** How many labels an attempt has when it stops. */
  lemma StopCount(q0: Progress, q: Progress, kept: int, block: nat)
    requires Captured(q0, q, q0.ActiveLimit(), block) && 0 <= kept <= |q0.frozen| <= q0.count && q0.Contiguous()
    requires forall m :: kept < m <= |q0.frozen| && m < q0.count ==>
      m * block <= q0.ActiveLimit() || m * block < q0.tokens
    requires || q0.tokens <= q0.ActiveLimit() || |q0.frozen| >= q0.count
             || q0.Boundary(|q0.frozen| + 1, block) >= q0.tokens
    ensures |q.frozen| == q.count <==> Allotted(q, kept, block) || (q.count - 1) * block < q.tokens
  {
    var n, c := |q.frozen|, q.count;
    if n == c {
      if c > kept + 1 { CountReached(q0, q, kept, block); }
    } else {
      assert q0.Boundary(n + 1, block) > q0.ActiveLimit();
      assert n + 1 < c;
      BlockOrder(n + 1, c - 1, block);
      BlockOrder(|q0.frozen| + 1, n + 1, block);
    }
  }

  lemma CountReached(q0: Progress, q: Progress, kept: int, block: nat)
    requires Captured(q0, q, q0.ActiveLimit(), block) && 0 <= kept <= |q0.frozen| <= q0.count && q0.Contiguous()
    requires forall m :: kept < m <= |q0.frozen| && m < q0.count ==>
      m * block <= q0.ActiveLimit() || m * block < q0.tokens
    requires |q.frozen| == q.count > kept + 1
    ensures (q.count - 1) * block <= q.ActiveLimit() || (q.count - 1) * block < q.tokens
  {
    var m := q.count - 1;
    assert m in q.frozen;
    if m !in q0.frozen { assert q0.Boundary(m, block) <= q0.ActiveLimit(); }
  }

  lemma RollbackStops(p: Progress, h: seq<Entry>, kept: int, block: nat)
    requires Ready(p, h, kept, block)
    ensures Stopped(CaptureAtEnd(p.(status := Paused), block), h, kept, block)
  {
    var q0 := p.(status := Paused);
    CaptureAgrees(q0, h, kept, q0.ActiveLimit(), block);
    BoundariesWithin(p, p, kept, block);
    StopCount(q0, CaptureAtEnd(q0, block), kept, block);
  }

  lemma BoundariesWithin(p: Progress, q: Progress, kept: int, block: nat)
    requires p.tokens < p.ActiveLimit() && p.count == q.count
    requires forall m :: kept < m <= |q.frozen| ==> p.Boundary(m, block) <= p.tokens || p.Boundary(m, block) < q.tokens
    ensures forall m :: kept < m <= |q.frozen| && m < q.count ==> m * block <= p.ActiveLimit() || m * block < q.tokens
  {
    forall m | kept < m <= |q.frozen| && m < q.count ensures m * block <= p.ActiveLimit() || m * block < q.tokens {
      assert p.Boundary(m, block) == m * block;
    }
  }

  lemma ReadyBelowLimit(p: Progress, h: seq<Entry>, kept: int, block: nat)
    requires Ready(p, h, kept, block)
    ensures p.tokens < p.ActiveLimit()
  {
  }

  lemma AgreesBounds(p: Progress, h: seq<Entry>, kept: int, block: nat)
    requires Agrees(p, h, kept, block)
    ensures 0 <= kept <= |p.frozen| <= p.count && p.Contiguous()
  {
  }

  /** Stopping at the end of a phase, with whatever solution the phase left. */
  lemma PhaseStops(p: Progress, q: Progress, r: Progress, h: seq<Entry>, h': seq<Entry>, kept: int, block: nat)
    requires Ready(p, h, kept, block) && During(p, q, block) && Passed(p, q, block)
    requires Agrees(r, h', kept, block) && r.status != Running && r.frozen == q.frozen && r.tokens == q.tokens
    requires r.count == p.count && r.ActiveLimit() == p.ActiveLimit()
    requires |r.frozen| < r.count ==> LastTokens(h') <= r.Boundary(|r.frozen| + 1, block)
    ensures Stopped(CaptureAtEnd(r, block), h', kept, block)
  {
    hide BoundaryOf, SolutionAt, Sorted, Capture, Agrees, Ready;
    ReadyBelowLimit(p, h, kept, block);
    AgreesBounds(r, h', kept, block);
    CaptureAgrees(r, h', kept, r.ActiveLimit(), block);
    DuringAgrees(p, q, h, kept, block);
    BoundariesWithin(p, q, kept, block);
    StopCount(r, CaptureAtEnd(r, block), kept, block);
  }

  /** Going on after a phase that was kept. */
  lemma PhaseGoesOn(p: Progress, q: Progress, r: Progress, h: seq<Entry>, h': seq<Entry>, kept: int, block: nat)
    requires Ready(p, h, kept, block) && During(p, q, block) && Passed(p, q, block)
    requires Agrees(r, h', kept, block) && r.status == Running && r.frozen == q.frozen && r.tokens == q.tokens
    requires r.count == p.count && r.ActiveLimit() == p.ActiveLimit() && r.tokens < r.ActiveLimit()
    requires |r.frozen| < r.count ==> LastTokens(h') <= r.Boundary(|r.frozen| + 1, block)
    ensures Ready(CaptureAtEnd(r, block), h', kept, block)
  {
    hide SolutionAt, Sorted;
    var s := CaptureAtEnd(r, block);
    CaptureAgrees(r, h', kept, r.tokens, block);
    DuringAgrees(p, q, h, kept, block);
    forall m | kept < m <= |s.frozen| ensures s.Boundary(m, block) <= s.tokens {
      if m in q.frozen { assert p.Boundary(m, block) <= p.tokens || p.Boundary(m, block) < q.tokens; }
    }
    assert |s.frozen| == s.count ==> s.count in s.frozen;
  }

  lemma ApplyAgrees(q: Progress, h: seq<Entry>, kept: int, block: nat, text: string, settings: Settings)
    requires Agrees(q, h, kept, block) && q.phase == CritiquePhase
    ensures Agrees(Apply(q, text, settings), h, kept, block)
  {
    hide BoundaryOf, SolutionAt, Sorted;
  }

  lemma StatusAgrees(q: Progress, h: seq<Entry>, kept: int, block: nat, status: Status)
    requires Agrees(q, h, kept, block)
    ensures Agrees(q.(status := status), h, kept, block)
  {
    hide BoundaryOf, SolutionAt, Sorted;
  }

  /** A kept completion extends the history when it produced a solution. */
  lemma CompletionAgrees(p: Progress, q: Progress, h: seq<Entry>, kept: int, block: nat, text: string,
                         settings: Settings)
    requires Ready(p, h, kept, block) && During(p, q, block) && Passed(p, q, block)
    requires p.tokens < q.tokens <= q.ActiveLimit()
    ensures var h' := if p.phase == CritiquePhase then h else h + [Entry(q.tokens, text)];
      && Agrees(Apply(q, text, settings), h', kept, block)
      && (|q.frozen| < q.count ==> LastTokens(h') <= q.Boundary(|q.frozen| + 1, block))
  {
    hide BoundaryOf, SolutionAt, Sorted;
    DuringAgrees(p, q, h, kept, block);
    if p.phase == CritiquePhase {
      ApplyAgrees(q, h, kept, block, text, settings);
    } else {
      AppendAgrees(q, h, kept, block, Entry(q.tokens, text));
    }
  }

  /** One saved phase keeps progress and history in agreement, rewrites no frozen label, and either
      stops the attempt or moves it strictly forward. */
  lemma StepKeeps(d: Saved, a: Attempt, h: seq<Entry>, kept: int, settings: Settings)
    requires settings.Valid() && Genuine(a) && Ready(d.progress, h, kept, settings.block)
    ensures var r := Step(d, a, settings); r.Next? ==>
      && Sound(r.saved.progress, Record(h, d, a, settings), kept, settings.block)
      && (r.saved.progress.status == Running ==> r.saved.progress.tokens > d.progress.tokens)
  {
    hide Ready, Stopped, Agrees, During, Passed, Capture, BoundaryOf, Apply, Converged, Progress.Valid;
    var p, block := d.progress, settings.block;
    var start := LiveStart(d, settings);
    var live := ConsumeAll(start, p.tokens, a.events, settings);
    if Step(d, a, settings).Next? {
      ReadyFacts(p, h, kept, block, settings);
      ConsumeAllKeeps(p, start, a.events, settings);
      TerminalIsListed(start, p.tokens, a.events, settings);
      var q, e := live.progress, live.terminal.value;
      CaptureTokens(Resolve(q, p, e, settings), block);
      if RollsBack(q, e) {
        RollbackStops(p, h, kept, block);
      } else if !e.Completed? || q.tokens > q.budget {
        DuringAgrees(p, q, h, kept, block);
        DuringSame(p, q, block);
        StatusAgrees(q, h, kept, block, q.BudgetStatus());
        PhaseStops(p, q, q.(status := q.BudgetStatus()), h, h, kept, block);
      } else {
        DuringSame(p, q, block);
        var h' := Record(h, d, a, settings);
        CompletionAgrees(p, q, h, kept, block, e.text, settings);
        var r := Apply(q, e.text, settings);
        ApplySame(q, e.text, settings);
        var status := if Converged(q, e.text, settings) then Status.Finished else r.BudgetStatus();
        StatusAgrees(r, h', kept, block, status);
        if status == Running {
          PhaseGoesOn(p, q, r.(status := status), h, h', kept, block);
        } else {
          PhaseStops(p, q, r.(status := status), h, h', kept, block);
        }
      }
    }
  }

  lemma ReadyFacts(p: Progress, h: seq<Entry>, kept: int, block: nat, settings: Settings)
    requires Ready(p, h, kept, block) && block == settings.block
    ensures p.Valid() && p.status == Running && p.BudgetStatus() == Running
    ensures During(p, p.Warned(settings), block)
  {
    hide BoundaryOf, SolutionAt;
  }

  lemma DuringSame(p: Progress, q: Progress, block: nat)
    requires During(p, q, block)
    ensures q == p.(tokens := q.tokens, warned := q.warned, frozen := q.frozen) && p.tokens <= q.tokens
    ensures forall m {:trigger p.Boundary(m, block)} :: q.Boundary(m, block) == p.Boundary(m, block)
  {
  }

  lemma ApplySame(q: Progress, text: string, settings: Settings)
    ensures var r := Apply(q, text, settings);
      && r.frozen == q.frozen && r.tokens == q.tokens && r.count == q.count && r.budget == q.budget
        && r.pauseAt == q.pauseAt
      && (forall m {:trigger q.Boundary(m, settings.block)} ::
            r.Boundary(m, settings.block) == q.Boundary(m, settings.block))
  {
  }

  lemma CaptureTokens(p: Progress, block: nat)
    ensures CaptureAtEnd(p, block).tokens == p.tokens && CaptureAtEnd(p, block).status == p.status
  {
    CaptureKeepsRest(p, |p.frozen| + 1, if p.status == Running then p.tokens else p.ActiveLimit(), block);
  }

  // ----- whole runs

  ghost predicate AllGenuine(attempts: seq<Attempt>) {
    forall i :: 0 <= i < |attempts| ==> Genuine(attempts[i])
  }

  /** Labels once saved are never rewritten, and a run never changes what was asked of it. */
  ghost predicate Extends(p: Progress, q: Progress) {
    && q.problem == p.problem && q.budget == p.budget && q.pauseAt == p.pauseAt && q.count == p.count
    && p.tokens <= q.tokens
    && (forall m :: m in p.frozen ==> m in q.frozen && q.frozen[m] == p.frozen[m])
  }

  lemma StepExtends(d: Saved, a: Attempt, settings: Settings)
    requires d.progress.Valid()
    ensures var r := Step(d, a, settings); r.Next? ==> Extends(d.progress, r.saved.progress)
  {
    hide During, Capture, Resolve, Passed, Progress.Valid;
    var p, block := d.progress, settings.block;
    var start := LiveStart(d, settings);
    var live := ConsumeAll(start, p.tokens, a.events, settings);
    if Step(d, a, settings).Next? {
      StartsDuring(p, block, settings);
      ConsumeAllKeeps(p, start, a.events, settings);
      ResolveExtends(p, live.progress, live.terminal.value, settings);
    }
  }

  lemma StartsDuring(p: Progress, block: nat, settings: Settings)
    requires p.Valid()
    ensures During(p, p.Warned(settings), block)
    ensures p.Warned(settings).BudgetStatus() == p.BudgetStatus()
  {
    hide BoundaryOf;
  }

  lemma ResolveKeeps(p: Progress, q: Progress, e: Event, settings: Settings)
    requires p.Valid() && During(p, q, settings.block)
    ensures var r := Resolve(q, p, e, settings);
      && r.problem == p.problem && r.budget == p.budget && r.pauseAt == p.pauseAt && r.count == p.count
      && p.tokens <= r.tokens && 0 <= r.cleanCritiques <= r.rounds && (r.frozen == p.frozen || r.frozen == q.frozen)
  {
    hide BoundaryOf;
  }

  /** Labels frozen on top of the saved ones leave a state that extends it and passes validation. */
  lemma CaptureExtends(p: Progress, r: Progress, through: int, block: nat)
    requires p.Valid() && r.Contiguous() && |p.frozen| <= |r.frozen| <= p.count
    requires r.problem == p.problem && r.budget == p.budget && r.pauseAt == p.pauseAt && r.count == p.count
    requires p.tokens <= r.tokens && 0 <= r.cleanCritiques <= r.rounds
    requires forall m :: m in p.frozen ==> m in r.frozen && r.frozen[m] == p.frozen[m]
    ensures Extends(p, Capture(r, through, block)) && Capture(r, through, block).Valid()
  {
    hide BoundaryOf, Capture;
    CaptureFacts(r, through, block);
  }

  lemma ResolveExtends(p: Progress, q: Progress, e: Event, settings: Settings)
    requires p.Valid() && During(p, q, settings.block)
    ensures var r := CaptureAtEnd(Resolve(q, p, e, settings), settings.block); Extends(p, r) && r.Valid()
  {
    hide BoundaryOf, Capture, Resolve, Extends;
    ResolveKeeps(p, q, e, settings);
    var r := Resolve(q, p, e, settings);
    CaptureExtends(p, r, if r.status == Running then r.tokens else r.ActiveLimit(), settings.block);
  }

  /** Validation never stands in the way: a phase of a valid attempt is refused only for its events. */
  lemma SavesPassValidation(d: Saved, a: Attempt, settings: Settings)
    requires d.progress.Valid()
    ensures var live := ConsumeAll(LiveStart(d, settings), d.progress.tokens, a.events, settings);
      && (Step(d, a, settings).Broken? <==> live.Rejected? || (!a.lost && live.terminal.None?))
      && (Step(d, a, settings).Next? ==> Step(d, a, settings).saved.progress.Valid())
  {
    hide During, Capture, Resolve, Passed, Progress.Valid, Extends;
    var start := LiveStart(d, settings);
    var live := ConsumeAll(start, d.progress.tokens, a.events, settings);
    StartsDuring(d.progress, settings.block, settings);
    ConsumeAllKeeps(d.progress, start, a.events, settings);
    if live.Live? && live.terminal.Some? { ResolveExtends(d.progress, live.progress, live.terminal.value, settings); }
  }

  lemma ExtendsTransitive(p: Progress, q: Progress, r: Progress)
    requires Extends(p, q) && Extends(q, r)
    ensures Extends(p, r)
  {
  }

  /** Every state a run saves or returns, whatever was lost on the way, agrees with the history of
      the phases that were kept. */
  lemma {:induction false} RunKeeps(d: Saved, retries: nat, attempts: seq<Attempt>, h: seq<Entry>, kept: int,
                                    settings: Settings)
    requires settings.Valid() && AllGenuine(attempts) && Sound(d.progress, h, kept, settings.block)
    ensures var q := Play(d, retries, attempts, settings).saved.progress;
      && Sound(q, PlayHistory(h, d, retries, attempts, settings), kept, settings.block)
      && Extends(d.progress, q)
      && (Play(d, retries, attempts, settings).Returned? <==> q.status != Running)
    decreases |attempts|
  {
    hide Agrees, Extends, Step, Record;
    SoundFacts(d.progress, h, kept, settings.block);
    if d.progress.status == Running && attempts != [] {
      var a := attempts[0];
      StepKeeps(d, a, h, kept, settings);
      StepExtends(d, a, settings);
      match Step(d, a, settings)
      case Next(saved) =>
        RunKeeps(saved, 0, attempts[1..], Record(h, d, a, settings), kept, settings);
        ExtendsTransitive(d.progress, saved.progress, Play(saved, 0, attempts[1..], settings).saved.progress);
      case Lost =>
        if retries < settings.maxRetries { RunKeeps(d, retries + 1, attempts[1..], h, kept, settings); }
      case Broken =>
    }
  }

  lemma SoundFacts(p: Progress, h: seq<Entry>, kept: int, block: nat)
    requires Sound(p, h, kept, block)
    ensures p.Valid() && (p.status == Running ==> Ready(p, h, kept, block) && p.BudgetStatus() == Running)
    ensures p.status != Running ==> Stopped(p, h, kept, block)
    ensures Extends(p, p)
  {
    hide BoundaryOf, SolutionAt;
  }

  lemma CeilDivBounds(x: int, y: nat)
    requires y > 0
    ensures (CeilDiv(x, y) - 1) * y < x <= CeilDiv(x, y) * y
    ensures x > 0 ==> CeilDiv(x, y) > 0
  {
    var q := (-x) / y;
    assert -x == q * y + (-x) % y;
    assert CeilDiv(x, y) * y == -(q * y);
    assert (CeilDiv(x, y) - 1) * y == -(q * y) - y;
    if x > 0 && CeilDiv(x, y) <= 0 { BlockOrder(CeilDiv(x, y), 0, y); }
  }

  /** A fresh attempt is accepted exactly for a nonblank problem, a positive budget and a pause
      inside it; it is then ready, with an empty history and every block label affordable. */
  lemma FreshIsReady(problem: string, budget: int, pauseAt: Option<int>, block: nat)
    requires block > 0
    ensures var p := Initial(problem, budget, pauseAt, block);
      && (p.Valid() <==> !Blank(problem) && budget > 0 && (pauseAt.Some? ==> 0 < pauseAt.value < budget))
      && (p.Valid() ==> Ready(p, [], 0, block) && Allotted(p, 0, block))
      && p.problem == problem && p.budget == budget && p.pauseAt == pauseAt && p.phase == SolvePhase
      && p.tokens == 0 && p.rounds == 0 && !p.warned && p.solution.None? && p.frozen == map[]
      && (p.count - 1) * block < p.ActiveLimit() <= p.count * block
  {
    var p := Initial(problem, budget, pauseAt, block);
    CeilDivBounds(p.ActiveLimit(), block);
  }

  /** An archive is opened only for its own problem and budget, and then as it was saved; a new one is
      made only for a valid request where there was none. */
  lemma OpensItsOwn(archive: Option<Saved>, initial: Progress)
    ensures var start := Opened(archive, initial);
      && (start.Some? ==>
            start.value.progress.problem == initial.problem && start.value.progress.budget == initial.budget)
      && (archive.Some? && start.Some? ==> start == archive)
      && (archive.None? && start.Some? ==> start.value == Saved(initial, {}, None, false))
      && (start.None? <==>
            || !initial.Valid()
            || (archive.Some? && (archive.value.progress.problem != initial.problem
                                  || archive.value.progress.budget != initial.budget)))
  {
    hide Progress.Valid;
  }

  /** A stopped attempt that was allotted every block label has all of them. */
  lemma StopsComplete(p: Progress, h: seq<Entry>, kept: int, block: nat)
    requires Sound(p, h, kept, block) && Allotted(p, kept, block) && p.status != Running
    ensures |p.frozen| == p.count
  {
    SoundFacts(p, h, kept, block);
  }

  /** Fresh runs, with or without a pause: after any events, losses and retries, every frozen label
      holds the last solution completed with cumulative tokens within its boundary, labels are
      contiguous, saved states are valid, and a run that returns has exactly `count` labels. */
  lemma FreshRunAgrees(problem: string, budget: int, pauseAt: Option<int>, attempts: seq<Attempt>, settings: Settings,
                       start: Saved)
    requires settings.Valid() && AllGenuine(attempts)
    requires start.progress == Initial(problem, budget, pauseAt, settings.block) && start.progress.Valid()
    ensures var result := Play(start, 0, attempts, settings);
            var q, h := result.saved.progress, PlayHistory([], start, 0, attempts, settings);
      && q.Valid() && q.count == start.progress.count && Sorted(h) && q.solution == LastText(h)
      && (forall m :: m in q.frozen ==>
            1 <= m <= q.count && q.frozen[m] == SolutionAt(h, q.Boundary(m, settings.block)))
      && (result.Returned? ==> |q.frozen| == q.count && forall m :: 1 <= m <= q.count ==> m in q.frozen)
  {
    hide SolutionAt, Play, PlayHistory, BoundaryOf, Sorted;
    FreshIsReady(problem, budget, pauseAt, settings.block);
    RunKeeps(start, 0, attempts, [], 0, settings);
    var q, h := Play(start, 0, attempts, settings).saved.progress, PlayHistory([], start, 0, attempts, settings);
    SoundFacts(q, h, 0, settings.block);
    if q.status != Running { StopsComplete(q, h, 0, settings.block); }
  }

  // ----- runs in processes that die

  /** The archive after several processes in turn have opened it, run for a while and vanished. */
  function Replay(d: Saved, runs: seq<seq<Attempt>>, settings: Settings): Saved {
    if runs == [] then d
    else Play(Replay(d, runs[..|runs| - 1], settings), 0, runs[|runs| - 1], settings).saved
  }

  function ReplayHistory(h: seq<Entry>, d: Saved, runs: seq<seq<Attempt>>, settings: Settings): seq<Entry> {
    if runs == [] then h
    else PlayHistory(ReplayHistory(h, d, runs[..|runs| - 1], settings), Replay(d, runs[..|runs| - 1], settings), 0,
                     runs[|runs| - 1], settings)
  }

  /** The archive and its history stay in agreement however often the work is resumed. */
  lemma {:induction false} ReplayKeeps(d: Saved, runs: seq<seq<Attempt>>, h: seq<Entry>, kept: int, settings: Settings)
    requires settings.Valid() && Sound(d.progress, h, kept, settings.block)
    requires forall i :: 0 <= i < |runs| ==> AllGenuine(runs[i])
    ensures Sound(Replay(d, runs, settings).progress, ReplayHistory(h, d, runs, settings), kept, settings.block)
    ensures Extends(d.progress, Replay(d, runs, settings).progress)
  {
    hide Sound, Extends, Play, PlayHistory, AllGenuine, Settings.Valid;
    if runs == [] {
      SoundFacts(d.progress, h, kept, settings.block);
    } else {
      var before := runs[..|runs| - 1];
      ReplayKeeps(d, before, h, kept, settings);
      var q, g := Replay(d, before, settings), ReplayHistory(h, d, before, settings);
      RunKeeps(q, 0, runs[|runs| - 1], g, kept, settings);
      ExtendsTransitive(d.progress, q.progress, Replay(d, runs, settings).progress);
    }
  }

  // ----- failures leave nothing behind

  /** The attempts that were saved. */
  function KeptAttempts(d: Saved, retries: nat, attempts: seq<Attempt>, settings: Settings): seq<Attempt>
    decreases |attempts|
  {
    if d.progress.status != Running || d.progress.BudgetStatus() != Running || attempts == [] then []
    else
      match Step(d, attempts[0], settings)
      case Next(saved) => [attempts[0]] + KeptAttempts(saved, 0, attempts[1..], settings)
      case Lost => if retries >= settings.maxRetries then [] else KeptAttempts(d, retries + 1, attempts[1..], settings)
      case Broken => []
  }

  /** A run in which nothing is ever lost: one saved phase after the other. */
  ghost predicate CleanRun(d: Saved, attempts: seq<Attempt>, last: Saved, h: seq<Entry>, h': seq<Entry>,
                           settings: Settings)
    decreases |attempts|
  {
    if attempts == [] then last == d && h' == h
    else
      && d.progress.status == Running && !attempts[0].lost
      && var r := Step(d, attempts[0], settings);
         r.Next? && CleanRun(r.saved, attempts[1..], last, Record(h, d, attempts[0], settings), h', settings)
  }

  /** Whatever is interleaved with failures, the saved state and history are those of the failure-
      free run of the kept phases alone: lost phases leave no tokens, solution, warning, label or
      message identity behind. */
  lemma {:induction false} FailuresLeaveNothing(d: Saved, retries: nat, attempts: seq<Attempt>, h: seq<Entry>,
                                                kept: int, settings: Settings)
    requires settings.Valid() && AllGenuine(attempts) && Sound(d.progress, h, kept, settings.block)
    ensures CleanRun(d, KeptAttempts(d, retries, attempts, settings), Play(d, retries, attempts, settings).saved,
                     h, PlayHistory(h, d, retries, attempts, settings), settings)
    decreases |attempts|
  {
    hide Agrees, Record, ConsumeAll;
    SoundFacts(d.progress, h, kept, settings.block);
    if d.progress.status == Running && attempts != [] {
      StepKeeps(d, attempts[0], h, kept, settings);
      match Step(d, attempts[0], settings)
      case Next(saved) =>
        FailuresLeaveNothing(saved, 0, attempts[1..], Record(h, d, attempts[0], settings), kept, settings);
        assert KeptAttempts(d, retries, attempts, settings)[1..] == KeptAttempts(saved, 0, attempts[1..], settings);
      case Lost =>
        if retries < settings.maxRetries { FailuresLeaveNothing(d, retries + 1, attempts[1..], h, kept, settings); }
      case Broken =>
    }
  }

  // ----- every run ends

  /** A run still waiting after some attempts has spent at least one token for every maxRetries + 1
      of them. */
  lemma {:induction false} WaitingCostsTokens(d: Saved, retries: nat, attempts: seq<Attempt>, h: seq<Entry>, kept: int,
                                              settings: Settings)
    requires settings.Valid() && AllGenuine(attempts) && Sound(d.progress, h, kept, settings.block)
    requires retries <= settings.maxRetries
    ensures var result := Play(d, retries, attempts, settings); result.Waiting? ==>
      && result.retries <= settings.maxRetries
      && |attempts| + retries
         <= (result.saved.progress.tokens - d.progress.tokens) * (settings.maxRetries + 1) + result.retries
    decreases |attempts|
  {
    hide Agrees, Record, Step;
    SoundFacts(d.progress, h, kept, settings.block);
    if d.progress.status == Running && attempts != [] {
      StepKeeps(d, attempts[0], h, kept, settings);
      match Step(d, attempts[0], settings)
      case Next(saved) =>
        WaitingCostsTokens(saved, 0, attempts[1..], Record(h, d, attempts[0], settings), kept, settings);
        var result := Play(saved, 0, attempts[1..], settings);
        if result.Waiting? && saved.progress.status == Running {
          var t, t', t'' := d.progress.tokens, saved.progress.tokens, result.saved.progress.tokens;
          BlockOrder(t'' - t', t'' - t - 1, settings.maxRetries + 1);
          assert (t'' - t - 1) * (settings.maxRetries + 1)
               == (t'' - t) * (settings.maxRetries + 1) - (settings.maxRetries + 1);
        }
      case Lost =>
        if retries < settings.maxRetries { WaitingCostsTokens(d, retries + 1, attempts[1..], h, kept, settings); }
      case Broken =>
    }
  }

  /** Hence a run ends within (limit - tokens) * (maxRetries + 1) attempts, however they go. */
  lemma EveryRunEnds(d: Saved, attempts: seq<Attempt>, h: seq<Entry>, kept: int, settings: Settings)
    requires settings.Valid() && AllGenuine(attempts) && Sound(d.progress, h, kept, settings.block)
    requires |attempts| >= (d.progress.ActiveLimit() - d.progress.tokens) * (settings.maxRetries + 1)
    ensures !Play(d, 0, attempts, settings).Waiting?
  {
    hide *;
    WaitingCostsTokens(d, 0, attempts, h, kept, settings);
    RunKeeps(d, 0, attempts, h, kept, settings);
    var result := Play(d, 0, attempts, settings);
    if result.Waiting? {
      WaitingBelowLimit(d.progress, result.saved.progress, PlayHistory(h, d, 0, attempts, settings), kept,
                        settings.block);
      TooManyAttempts(|attempts|, d.progress.ActiveLimit() - d.progress.tokens,
                      result.saved.progress.tokens - d.progress.tokens, settings.maxRetries, result.retries);
    }
  }

  lemma WaitingBelowLimit(p: Progress, q: Progress, h: seq<Entry>, kept: int, block: nat)
    requires Sound(q, h, kept, block) && q.status == Running && Extends(p, q)
    ensures q.tokens < p.ActiveLimit()
  {
  }

  lemma TooManyAttempts(used: nat, limit: int, spent: int, retries: nat, last: nat)
    requires used <= spent * (retries + 1) + last && last <= retries && spent < limit
    ensures used < limit * (retries + 1)
  {
    BlockOrder(spent, limit - 1, retries + 1);
    assert (limit - 1) * (retries + 1) == limit * (retries + 1) - (retries + 1);
  }
}

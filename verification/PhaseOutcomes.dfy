/** What a phase leaves behind, in terms of its events alone: which event streams are accepted, when
    an interrupt is due, what is saved, and in which order solutions and critiques follow. */
module PhaseOutcomes {
  import opened Options
  import opened AgentSession
  import opened Refinement
  import opened RefinementRuns
  import opened Convergence

  /** A saved state between phases: valid, and below its limit while it is running. */
  ghost predicate Fit(p: Progress) {
    p.Valid() && (p.status == Running ==> p.tokens < p.ActiveLimit())
  }

  // ----- which events are accepted

  /** Some usage event has reached the limit. */
  ghost predicate LimitSeen(p: Progress, events: seq<Event>) {
    exists i :: 0 <= i < |events| && events[i].Usage? && p.tokens + events[i].tokens >= p.ActiveLimit()
  }

  /** Usage never decreases, only the last event may be terminal, and an interruption follows a usage
      event that had reached the limit. */
  ghost predicate Coherent(p: Progress, events: seq<Event>) {
    && (forall i, j :: 0 <= i <= j < |events| ==> events[i].tokens <= events[j].tokens)
    && (forall i :: 0 <= i < |events| - 1 ==> events[i].Usage?)
    && (events != [] && events[|events| - 1].Interrupted? ==> LimitSeen(p, events))
  }

  function Total(p: Progress, events: seq<Event>): int {
    if events == [] then p.tokens else p.tokens + events[|events| - 1].tokens
  }

  lemma LimitSeenNext(p: Progress, events: seq<Event>, e: Event)
    ensures LimitSeen(p, events + [e]) <==> LimitSeen(p, events) || (e.Usage? && p.tokens + e.tokens >= p.ActiveLimit())
  {
    var all := events + [e];
    if i :| 0 <= i < |events| && events[i].Usage? && p.tokens + events[i].tokens >= p.ActiveLimit() {
      assert all[i] == events[i];
    }
    if e.Usage? && p.tokens + e.tokens >= p.ActiveLimit() { assert all[|events|] == e; }
  }

  lemma StatusAtLimit(p: Progress)
    requires p.Valid()
    ensures p.BudgetStatus() != Running <==> p.tokens >= p.ActiveLimit()
    ensures p.tokens >= p.ActiveLimit() && (p.pauseAt.None? || p.tokens < p.budget) ==>
      p.BudgetStatus() == if p.pauseAt.Some? then Paused else Exhausted
  {
  }

  /** One more event: accepted or not, and whether an interrupt has been requested by then. */
  lemma ConsumeOutcome(p: Progress, live: Live, e: Event, settings: Settings)
    requires p.Valid() && live.Live?
    requires live.progress
         == p.(tokens := live.progress.tokens, warned := live.progress.warned, frozen := live.progress.frozen)
    ensures var next, total := Consume(live, p.tokens, e, settings), p.tokens + e.tokens;
      && (next.Live? <==> live.terminal.None? && live.progress.tokens <= total && (e.Interrupted? ==> live.asked))
      && (next.Live? ==>
            && next.progress == p.(tokens := total, warned := next.progress.warned, frozen := next.progress.frozen)
            && (next.asked <==> live.asked || (e.Usage? && total >= p.ActiveLimit()))
            && next.terminal == if e.Usage? then None else Some(e))
  {
    hide CaptureFrom;
    var total := p.tokens + e.tokens;
    var moved := live.progress.(tokens := total);
    CaptureKeepsRest(moved, |moved.frozen| + 1, total - 1, settings.block);
    var q := Capture(moved, total - 1, settings.block);
    LimitOfBudget(p, q);
  }

  lemma LimitOfBudget(p: Progress, q: Progress)
    requires p.Valid() && q == p.(tokens := q.tokens, warned := q.warned, frozen := q.frozen)
    ensures q.BudgetStatus() != Running <==> q.tokens >= p.ActiveLimit()
  {
  }

  /** A stream is accepted exactly when it is coherent; an interrupt has been requested exactly when
      some usage event has reached the limit, so at the first that does. */
  lemma {:induction false} AcceptedExactly(d: Saved, events: seq<Event>, settings: Settings)
    requires d.progress.Valid()
    ensures var p, live := d.progress, ConsumeAll(LiveStart(d, settings), d.progress.tokens, events, settings);
      && (live.Live? <==> Coherent(p, events))
      && (live.Live? ==>
            && live.progress
               == p.(tokens := Total(p, events), warned := live.progress.warned, frozen := live.progress.frozen)
            && (live.asked <==> LimitSeen(p, events))
            && live.terminal == if events == [] || events[|events| - 1].Usage? then None
                                else Some(events[|events| - 1]))
  {
    hide Consume, Progress.Valid, LimitSeen;
    var p, start := d.progress, LiveStart(d, settings);
    WarningKeepsRest(p, settings);
    if events == [] {
      NothingSeen(p);
    } else {
      var before, e := events[..|events| - 1], events[|events| - 1];
      AcceptedExactly(d, before, settings);
      assert events == before + [e];
      LimitSeenNext(p, before, e);
      var live := ConsumeAll(start, p.tokens, before, settings);
      if live.Live? {
        ConsumeOutcome(p, live, e, settings);
        CoherentNext(p, before, e);
      } else {
        RejectedConsumes(p.tokens, e, settings);
        CoherentBefore(p, before, e);
      }
    }
  }

  lemma NothingSeen(p: Progress)
    ensures !LimitSeen(p, [])
  {
  }

  lemma CoherentNext(p: Progress, events: seq<Event>, e: Event)
    requires Coherent(p, events)
    ensures Coherent(p, events + [e]) <==>
      && (events == [] || events[|events| - 1].Usage?)
      && Total(p, events) <= p.tokens + e.tokens
      && (e.Interrupted? ==> LimitSeen(p, events))
  {
    hide LimitSeen;
    LimitSeenNext(p, events, e);
    var all := events + [e];
    if Coherent(p, all) {
      if events != [] { assert all[|events| - 1].tokens <= all[|events|].tokens && all[|events| - 1].Usage?; }
    }
  }

  lemma CoherentBefore(p: Progress, events: seq<Event>, e: Event)
    requires !Coherent(p, events)
    ensures !Coherent(p, events + [e])
  {
    hide LimitSeen;
    var all := events + [e];
    assert forall i :: 0 <= i < |events| ==> all[i] == events[i];
  }

  // ----- what is saved

  /** The phase completed within the limit. */
  ghost predicate Completes(p: Progress, events: seq<Event>) {
    events != [] && events[|events| - 1].Completed? && Total(p, events) <= p.ActiveLimit()
  }

  /** A completed phase is a critique, answered by a revision, or a solution, answered by a critique. */
  ghost predicate Follows(p: Progress, q: Progress, text: string) {
    if p.phase == CritiquePhase then
      q.phase == RevisePhase && q.solution == p.solution && q.rounds == p.rounds + 1
    else
      && q.phase == CritiquePhase && q.solution == Some(text)
      && q.rounds == p.rounds && q.cleanCritiques == p.cleanCritiques
  }

  /** The end of a phase, whatever its events: it is lost if the connection is, refused if the stream
      is incoherent or has no end, and otherwise saved. A phase completed within the limit is kept
      whole and followed by the right instruction. Any other one leaves a prefix as it was, paused,
      and spends the tokens of an unpaused attempt, which is then exhausted. */
  lemma StepOutcome(d: Saved, a: Attempt, settings: Settings)
    requires Fit(d.progress) && d.progress.status == Running
    ensures var p, r, n, coherent := d.progress, Step(d, a, settings), |a.events|, Coherent(d.progress, a.events);
      && (r.Lost? <==> coherent && a.lost)
      && (r.Broken? <==> !coherent || (!a.lost && (n == 0 || a.events[n - 1].Usage?)))
      && (r.Next? ==> Fit(r.saved.progress))
      && (r.Next? && Completes(p, a.events) ==>
            && r.saved == Saved(r.saved.progress, d.ids + a.ids, Some(a.sessionId), false)
            && r.saved.progress.tokens == Total(p, a.events) && Follows(p, r.saved.progress, a.events[n - 1].text)
            && (r.saved.progress.status != Status.Finished ==>
                  r.saved.progress.status == if Total(p, a.events) < p.ActiveLimit() then Running
                                             else if p.pauseAt.Some? then Paused else Exhausted))
      && (r.Next? && !Completes(p, a.events) ==>
            var q := r.saved.progress;
            if p.pauseAt.Some? then r.saved == d.(progress := p.(status := Paused, frozen := q.frozen))
            else
              && r.saved == Saved(q, d.ids + a.ids, Some(a.sessionId), false)
              && q == p.(tokens := Total(p, a.events), status := Exhausted, warned := q.warned, frozen := q.frozen))
  {
    hide ConsumeAll, Capture, Progress.Valid, Resolve, RollsBack, Coherent;
    AcceptedExactly(d, a.events, settings);
    SavesPassValidation(d, a, settings);
    var live := ConsumeAll(LiveStart(d, settings), d.progress.tokens, a.events, settings);
    if Step(d, a, settings).Next? {
      var e := live.terminal.value;
      SeenBefore(d.progress, a.events);
      ResolveOutcome(d.progress, live.progress, e, settings);
      var p := Resolve(live.progress, d.progress, e, settings);
      CaptureEnds(p, settings.block);
    }
  }

  /** An interruption comes at or beyond the limit. */
  lemma SeenBefore(p: Progress, events: seq<Event>)
    requires Coherent(p, events) && events != []
    ensures events[|events| - 1].Interrupted? ==> Total(p, events) >= p.ActiveLimit()
  {
    if events[|events| - 1].Interrupted? {
      var i :| 0 <= i < |events| && events[i].Usage? && p.tokens + events[i].tokens >= p.ActiveLimit();
      assert events[i].tokens <= events[|events| - 1].tokens;
    }
  }

  lemma CaptureEnds(p: Progress, block: nat)
    ensures var q := CaptureAtEnd(p, block); q == p.(frozen := q.frozen)
  {
    CaptureKeepsRest(p, |p.frozen| + 1, if p.status == Running then p.tokens else p.ActiveLimit(), block);
  }

  lemma ResolveOutcome(p: Progress, q: Progress, e: Event, settings: Settings)
    requires Fit(p) && p.status == Running && e.Terminal()
    requires q == p.(tokens := q.tokens, warned := q.warned, frozen := q.frozen)
    requires e.Interrupted? ==> q.tokens >= p.ActiveLimit()
    ensures var r := Resolve(q, p, e, settings);
      && (RollsBack(q, e) <==> p.pauseAt.Some? && (e.Interrupted? || q.tokens > p.ActiveLimit()))
      && (r.status == Running ==> r.tokens < r.ActiveLimit())
      && (RollsBack(q, e) ==> r == p.(status := Paused))
      && (!RollsBack(q, e) && (e.Interrupted? || q.tokens > p.ActiveLimit()) ==> r == q.(status := Exhausted))
      && (e.Completed? && q.tokens <= p.ActiveLimit() ==>
            && r.tokens == q.tokens && Follows(p, r, e.text)
            && (r.status != Status.Finished ==>
                  r.status == if q.tokens < p.ActiveLimit() then Running
                              else if p.pauseAt.Some? then Paused else Exhausted))
  {
    hide BoundaryOf, Progress.Contiguous;
  }

  /** Kept phases are those completed within the limit. */
  lemma KeptExactly(d: Saved, a: Attempt, settings: Settings)
    requires Fit(d.progress) && d.progress.status == Running
    ensures Kept(d, a, settings) <==> Step(d, a, settings).Next? && Completes(d.progress, a.events)
    ensures Kept(d, a, settings) ==>
      var live := ConsumeAll(LiveStart(d, settings), d.progress.tokens, a.events, settings);
      live.progress.tokens == Total(d.progress, a.events) && live.terminal == Some(a.events[|a.events| - 1])
  {
    hide ConsumeAll, Step, Progress.Valid, Coherent;
    AcceptedExactly(d, a.events, settings);
    StepOutcome(d, a, settings);
    var live := ConsumeAll(LiveStart(d, settings), d.progress.tokens, a.events, settings);
    if Step(d, a, settings).Next? {
      LiveAfterStep(d, a, settings);
      SeenBefore(d.progress, a.events);
      ResolveOutcome(d.progress, live.progress, live.terminal.value, settings);
      LimitBelowBudget(d.progress);
    }
  }

  lemma LiveAfterStep(d: Saved, a: Attempt, settings: Settings)
    requires Step(d, a, settings).Next?
    ensures var live := ConsumeAll(LiveStart(d, settings), d.progress.tokens, a.events, settings);
      live.Live? && live.terminal.Some?
  {
    hide ConsumeAll, Resolve, CaptureAtEnd;
  }

  lemma LimitBelowBudget(p: Progress)
    requires p.Valid()
    ensures p.ActiveLimit() <= p.budget
    ensures p.pauseAt.None? ==> p.ActiveLimit() == p.budget
  {
  }

  // ----- the low-budget notice

  /** The allowance left calls for the notice, and there is still work to do. */
  ghost predicate CallsForNotice(p: Progress, total: int, settings: Settings) {
    total < p.ActiveLimit() && p.budget - total <= settings.warning
  }

  /** The notice was called for as the phase started or at one of its usage events. */
  ghost predicate NoticeSeen(p: Progress, events: seq<Event>, settings: Settings) {
    || CallsForNotice(p, p.tokens, settings)
    || exists i :: 0 <= i < |events| && events[i].Usage? && CallsForNotice(p, p.tokens + events[i].tokens, settings)
  }

  lemma NoticeSeenNext(p: Progress, events: seq<Event>, e: Event, settings: Settings)
    ensures NoticeSeen(p, events + [e], settings) <==>
      NoticeSeen(p, events, settings) || (e.Usage? && CallsForNotice(p, p.tokens + e.tokens, settings))
  {
    hide CallsForNotice;
    var all := events + [e];
    if i :| 0 <= i < |events| && events[i].Usage? && CallsForNotice(p, p.tokens + events[i].tokens, settings) {
      assert all[i] == events[i];
    }
    if e.Usage? && CallsForNotice(p, p.tokens + e.tokens, settings) { assert all[|events|] == e; }
  }

  lemma WarnedExactly(p: Progress, q: Progress, settings: Settings)
    requires p.Valid() && p.status == Running
    requires q == p.(tokens := q.tokens, warned := q.warned, frozen := q.frozen)
    ensures q.Warned(settings).warned <==> q.warned || CallsForNotice(p, q.tokens, settings)
  {
    LimitOfBudget(p, q);
  }

  lemma ConsumeNotices(p: Progress, live: Live, e: Event, settings: Settings)
    requires p.Valid() && p.status == Running && live.Live?
    requires live.progress
          == p.(tokens := live.progress.tokens, warned := live.progress.warned, frozen := live.progress.frozen)
    ensures var next := Consume(live, p.tokens, e, settings); next.Live? ==>
      (next.progress.warned <==>
        live.progress.warned || (e.Usage? && CallsForNotice(p, p.tokens + e.tokens, settings)))
  {
    hide CaptureFrom, CallsForNotice, Progress.Warned, Progress.BudgetStatus, Progress.Valid;
    var moved := live.progress.(tokens := p.tokens + e.tokens);
    CaptureKeepsRest(moved, |moved.frozen| + 1, p.tokens + e.tokens - 1, settings.block);
    WarnedExactly(p, Capture(moved, p.tokens + e.tokens - 1, settings.block), settings);
  }

  /** The notice has been sent exactly when it was sent before the phase or has been called for in it
      before the limit was reached. */
  lemma {:induction false} NoticedExactly(d: Saved, events: seq<Event>, settings: Settings)
    requires d.progress.Valid() && d.progress.status == Running
    ensures var live := ConsumeAll(LiveStart(d, settings), d.progress.tokens, events, settings);
      live.Live? ==> (live.progress.warned <==> d.progress.warned || NoticeSeen(d.progress, events, settings))
  {
    hide Consume, Progress.Valid, NoticeSeen, Coherent, LimitSeen, Progress.Warned;
    var p, start := d.progress, LiveStart(d, settings);
    if events == [] {
      WarnedExactly(p, p, settings);
      NoticeAtStart(p, settings);
    } else {
      var before, e := events[..|events| - 1], events[|events| - 1];
      NoticedExactly(d, before, settings);
      assert events == before + [e];
      NoticeSeenNext(p, before, e, settings);
      AcceptedExactly(d, before, settings);
      var live := ConsumeAll(start, p.tokens, before, settings);
      if live.Live? {
        ConsumeNotices(p, live, e, settings);
      } else {
        RejectedConsumes(p.tokens, e, settings);
      }
    }
  }

  lemma NoticeAtStart(p: Progress, settings: Settings)
    ensures NoticeSeen(p, [], settings) <==> CallsForNotice(p, p.tokens, settings)
  {
  }

  /** A saved phase records the notice exactly when it was sent; a prefix phase that is undone leaves
      it unsent, so that it is sent anew. */
  lemma StepNotices(d: Saved, a: Attempt, settings: Settings)
    requires Fit(d.progress) && d.progress.status == Running && Step(d, a, settings).Next?
    ensures Step(d, a, settings).saved.progress.warned <==>
      || d.progress.warned
      || (NoticeSeen(d.progress, a.events, settings)
          && (d.progress.pauseAt.None? || Completes(d.progress, a.events)))
  {
    hide ConsumeAll, CaptureAtEnd, Progress.Valid, Resolve, RollsBack, Coherent, LimitSeen, NoticeSeen;
    AcceptedExactly(d, a.events, settings);
    NoticedExactly(d, a.events, settings);
    var live := ConsumeAll(LiveStart(d, settings), d.progress.tokens, a.events, settings);
    SeenBefore(d.progress, a.events);
    ResolveOutcome(d.progress, live.progress, live.terminal.value, settings);
    ResolveKeepsNotice(d.progress, live.progress, live.terminal.value, settings);
    CaptureEnds(Resolve(live.progress, d.progress, live.terminal.value, settings), settings.block);
  }

  lemma ResolveKeepsNotice(p: Progress, q: Progress, e: Event, settings: Settings)
    ensures Resolve(q, p, e, settings).warned == if RollsBack(q, e) then p.warned else q.warned
  {
  }
}

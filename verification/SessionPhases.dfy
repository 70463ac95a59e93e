/** A refinement phase driven by one run of the session: the session's guarantees are what the
    controller's consistency checks ask for, so none of these can fire. */
module SessionPhases {
  import opened Options
  import opened TokenUsage
  import opened AgentSession
  import opened Refinement
  import opened RefinementRuns

  /** The controller's reactions: it asks for an interrupt at the first usage event that leaves the
      budget, and at no other. */
  ghost predicate Reacts(d: Saved, events: seq<Event>, reactions: seq<Reaction>, settings: Settings) {
    forall i :: 0 <= i < |reactions| && i < |events| ==>
      var before := ConsumeAll(LiveStart(d, settings), d.progress.tokens, events[..i], settings);
      var after := Consume(before, d.progress.tokens, events[i], settings);
      before.Live? && after.Live? ==> reactions[i].interrupt == (!before.asked && after.asked)
  }

  lemma {:induction false} UsageAccepted(d: Saved, events: seq<Event>, reactions: seq<Reaction>, settings: Settings,
                                         n: nat)
    requires d.progress.Valid() && WellBehaved(events, reactions) && Reacts(d, events, reactions, settings)
    requires n <= |reactions| && n <= |events| && forall i :: 0 <= i < n ==> events[i].Usage?
    ensures var live := ConsumeAll(LiveStart(d, settings), d.progress.tokens, events[..n], settings);
      && live.Live? && live.terminal.None?
      && live.progress.tokens == d.progress.tokens + (if n == 0 then 0 else events[n - 1].tokens)
      && (Asked(reactions[..n]) ==> live.asked)
  {
    hide Progress.Valid, Progress.Warned, Capture, Consume, Asked;
    if n == 0 {
      assert events[..0] == [] && reactions[..0] == [];
      NobodyAsked();
      WarnedTokens(d.progress, settings);
    } else {
      UsageAccepted(d, events, reactions, settings, n - 1);
      assert events[..n][..n - 1] == events[..n - 1];
      var before := ConsumeAll(LiveStart(d, settings), d.progress.tokens, events[..n - 1], settings);
      ConsumeTokens(before, d.progress.tokens, events[n - 1], settings);
      assert reactions[..n] == reactions[..n - 1] + [reactions[n - 1]];
      AskedGrows(reactions[..n - 1], reactions[n - 1]);
    }
  }

  lemma NobodyAsked()
    ensures !Asked([])
  {
  }

  lemma WarnedTokens(p: Progress, settings: Settings)
    ensures p.Warned(settings).tokens == p.tokens
  {
  }

  lemma ConsumeTokens(live: Live, start: int, e: Event, settings: Settings)
    requires live.Live? && live.terminal.None? && live.progress.tokens <= start + e.tokens
    requires e.Interrupted? ==> live.asked
    ensures var next := Consume(live, start, e, settings);
      && next.Live? && next.progress.tokens == start + e.tokens && (live.asked ==> next.asked)
      && (next.terminal.Some? <==> e.Terminal())
  {
    CaptureKeepsRest(live.progress.(tokens := start + e.tokens), |live.progress.frozen| + 1, start + e.tokens - 1,
                     settings.block);
  }

  /** Well-behaved events and the controller's own reactions: no decreasing usage, no event after
      termination and no unrequested interruption. */
  lemma EventsAccepted(d: Saved, events: seq<Event>, reactions: seq<Reaction>, settings: Settings)
    requires d.progress.Valid() && WellBehaved(events, reactions) && Reacts(d, events, reactions, settings)
    ensures var live := ConsumeAll(LiveStart(d, settings), d.progress.tokens, events, settings);
      live.Live? && (live.terminal.Some? <==> events != [] && events[|events| - 1].Terminal())
  {
    hide Progress.Valid, Consume;
    var n := |reactions|;
    UsageAccepted(d, events, reactions, settings, n);
    assert reactions[..n] == reactions;
    if n < |events| {
      assert events[..n] == events[..|events| - 1];
      var live := ConsumeAll(LiveStart(d, settings), d.progress.tokens, events[..n], settings);
      ConsumeTokens(live, d.progress.tokens, events[n], settings);
    } else {
      assert events[..n] == events;
    }
  }

  /** The phase a session run amounts to: it is lost if the run was cut off or failed recoverably,
      and what the run sealed is new. */
  ghost function PhaseOf(t: Trace, ids: set<MessageId>, sessionId: string): Attempt {
    Attempt(sessionId, t.events, t.status == Open || t.status == Failed(Recoverable), t.session.ledger.sealed - ids)
  }

  /** Whatever messages a session run receives, with the controller reacting to its usage events: a
      run that ended is saved with all it sealed, unless it is rolled back; one that was cut off or
      failed recoverably is lost; only a fatal failure breaks the refinement run. */
  lemma SessionsNeverBreak(d: Saved, sessionId: string, prompt: string, inputs: seq<Input>, settings: Settings)
    requires d.progress.Valid()
    requires var t := Run(Started(d.ids, prompt), inputs); Reacts(d, t.events, t.reactions, settings)
    ensures var t := Run(Started(d.ids, prompt), inputs);
            var a := PhaseOf(t, d.ids, sessionId); var r := Step(d, a, settings);
      && Genuine(a)
      && (r.Next? <==> t.status == Ended)
      && (r.Lost? <==> t.status == Open || t.status == Failed(Recoverable))
      && (r.Broken? <==> t.status == Failed(Fatal))
      && (r.Next? ==> r.saved.ids == t.session.ledger.sealed
                      || (r.saved == d.(progress := r.saved.progress) && r.saved.progress.status == Paused))
  {
    hide Run, Consume, Progress.Valid, Capture, Apply, Converged;
    var start := Started(d.ids, prompt);
    var t := Run(start, inputs);
    EveryRunIsWellBehaved(d.ids, prompt, inputs);
    SealedStay(start, inputs);
    EventsAccepted(d, t.events, t.reactions, settings);
    var a := PhaseOf(t, d.ids, sessionId);
    SavesPassValidation(d, a, settings);
    assert d.ids + a.ids == t.session.ledger.sealed;
    var live := ConsumeAll(LiveStart(d, settings), d.progress.tokens, a.events, settings);
    assert live.terminal.Some? <==> t.status == Ended;
    assert t.status.Failed? ==> t.status.error == Recoverable || t.status.error == Fatal;
    if Step(d, a, settings).Next? { RollbackPauses(d, a, settings); }
  }

  lemma RollbackPauses(d: Saved, a: Attempt, settings: Settings)
    requires Step(d, a, settings).Next?
    ensures var saved := Step(d, a, settings).saved;
      saved.ids == d.ids + a.ids || (saved == d.(progress := saved.progress) && saved.progress.status == Paused)
  {
    hide ConsumeAll, Capture, Progress.Valid;
    var live := ConsumeAll(LiveStart(d, settings), d.progress.tokens, a.events, settings);
    var p := Resolve(live.progress, d.progress, live.terminal.value, settings);
    if RollsBack(live.progress, live.terminal.value) {
      CaptureKeepsRest(p, |p.frozen| + 1, p.ActiveLimit(), settings.block);
      assert CaptureAtEnd(p, settings.block).status == Paused by { CaptureStays(p, p.ActiveLimit(), settings.block); }
    }
  }

  lemma CaptureStays(p: Progress, through: int, block: nat)
    ensures Capture(p, through, block).status == p.status
  {
    CaptureKeepsRest(p, |p.frozen| + 1, through, block);
  }
}

/** How a run of the session depends on its inputs: queued input must be echoed before a completion,
    each result and each other message has one outcome, and the usage reported is that of the ledger
    of the messages received. */
module SessionInputs {
  import opened Options
  import opened TokenUsage
  import opened AgentSession
  import opened Attribution

  // ----- queued input

  /** The last input queued, and how many messages had been received by then. */
  datatype Queue = Queue(id: string, since: nat)

  /** The message produced a usage event, so that the consumer reacted to it. */
  ghost predicate Reports(s: Session, m: Message) {
    Begin(s, m).Continue? && Begin(s, m).usage.Some?
  }

  ghost function LastQueued(sealed: set<MessageId>, prompt: string, inputs: seq<Input>): Queue {
    if inputs == [] then Queue(prompt, 0)
    else
      var earlier, input := inputs[..|inputs| - 1], inputs[|inputs| - 1];
      if input.reaction.queue.Some? && Reports(Run(Started(sealed, prompt), earlier).session, input.message) then
        Queue(input.reaction.queue.value, |inputs|)
      else LastQueued(sealed, prompt, earlier)
  }

  /** The conversation has echoed the queued input since. */
  ghost predicate Echoed(inputs: seq<Input>, q: Queue) {
    exists j :: q.since <= j < |inputs| && inputs[j].message == User(Some(q.id))
  }

  lemma EchoNext(inputs: seq<Input>, input: Input, q: Queue)
    requires q.since <= |inputs|
    ensures Echoed(inputs + [input], q) <==> Echoed(inputs, q) || input.message == User(Some(q.id))
  {
    var all := inputs + [input];
    if j :| q.since <= j < |inputs| && inputs[j].message == User(Some(q.id)) { assert all[j] == inputs[j]; }
    if input.message == User(Some(q.id)) { assert all[|inputs|] == input; }
  }

  lemma BeginPending(s: Session, m: Message)
    ensures Begin(s, m).Continue? ==>
      Begin(s, m).session.pending == if m.User? && m.uuid == s.pending then None else s.pending
    ensures m.User? ==> !Reports(s, m)
  {
    hide Blank, Ledger.OutputTokens, Ledger.Update, Ledger.Finalize, Session.FreshResult, Session.ResponseText;
  }

  /** What a message and the reaction to it do to the pending input. */
  lemma PendingNext(t: Trace, input: Input)
    requires t.status == Open
    ensures var next, reports := Advance(t, input), Reports(t.session, input.message);
      next.status == Open ==>
        next.session.pending ==
          if reports && input.reaction.queue.Some? then input.reaction.queue
          else if input.message.User? && input.message.uuid == t.session.pending then None
          else t.session.pending
    ensures input.message.User? ==> !Reports(t.session, input.message)
  {
    hide Begin, End;
    BeginPending(t.session, input.message);
  }

  /** In every open run the pending input is the last one queued, unless that has been echoed. */
  lemma {:induction false} PendingExactly(sealed: set<MessageId>, prompt: string, inputs: seq<Input>)
    ensures var t, q := Run(Started(sealed, prompt), inputs), LastQueued(sealed, prompt, inputs);
      && q.since <= |inputs|
      && (t.status == Open ==> t.session.pending == if Echoed(inputs, q) then None else Some(q.id))
  {
    hide Begin, Advance, Reports, Echoed;
    if inputs == [] {
      NoEcho(prompt);
    } else {
      var earlier, input := inputs[..|inputs| - 1], inputs[|inputs| - 1];
      PendingExactly(sealed, prompt, earlier);
      var before, q := Run(Started(sealed, prompt), earlier), LastQueued(sealed, prompt, earlier);
      assert inputs == earlier + [input];
      EchoNext(earlier, input, q);
      NothingSince(inputs, LastQueued(sealed, prompt, inputs));
      if before.status == Open { PendingNext(before, input); }
    }
  }

  lemma NoEcho(prompt: string)
    ensures !Echoed([], Queue(prompt, 0))
  {
  }

  lemma NothingSince(inputs: seq<Input>, q: Queue)
    ensures q.since >= |inputs| ==> !Echoed(inputs, q)
  {
  }

  lemma InterruptNext(t: Trace, input: Input)
    requires t.session.interrupted <==> Asked(t.reactions)
    ensures var next := Advance(t, input); next.session.interrupted <==> Asked(next.reactions)
  {
    hide Blank, Ledger.OutputTokens, Ledger.TurnTokens, SumValues, Session.FreshResult, Session.ResponseText, Asked;
    AskedGrows(t.reactions, input.reaction);
  }

  /** The session is interrupted exactly if the consumer has asked for it. */
  lemma {:induction false} InterruptedExactly(sealed: set<MessageId>, prompt: string, inputs: seq<Input>)
    ensures var t := Run(Started(sealed, prompt), inputs); t.session.interrupted <==> Asked(t.reactions)
  {
    hide Advance;
    if inputs != [] {
      InterruptedExactly(sealed, prompt, inputs[..|inputs| - 1]);
      InterruptNext(Run(Started(sealed, prompt), inputs[..|inputs| - 1]), inputs[|inputs| - 1]);
    }
  }

  // ----- the outcome of a result

  /** A result is fresh if the turn took place, was charged and has a text. */
  ghost predicate Fresh(s: Session, m: Message)
    requires m.Result?
  {
    m.numTurns > 0 && s.ledger.TurnTokens() > 0 && !Blank(s.ResponseText(m.structured, m.result))
  }

  ghost predicate Accounted(m: Message)
    requires m.Result?
  {
    m.reported.None? || m.reported.value >= 0
  }

  lemma ResultNext(t: Trace, m: Message, reaction: Reaction)
    requires t.status == Open && m.Result? && (t.session.interrupted <==> Asked(t.reactions))
    ensures var next, s := Advance(t, Input(m, reaction)), t.session;
            var asked, askedNow := Asked(t.reactions), Asked(next.reactions);
      && (next.status == Ended ==> next.events != [])
      && (next.status == Ended && next.events[|next.events| - 1].Completed? <==>
            !m.failed && !asked && Fresh(s, m) && s.pending.None? && Accounted(m))
      && (next.status == Ended && next.events[|next.events| - 1].Interrupted? <==>
            (asked && Accounted(m)) || (!asked && askedNow))
      && (next.status == Open <==> !askedNow && !m.failed && s.pending.Some? && (Fresh(s, m) ==> Accounted(m)))
      && (m.failed && !askedNow && Accounted(m) ==> next.status == Failed(m.failedAs))
      && (!m.failed && !asked && !Fresh(s, m) && s.pending.None? ==> next.status == Failed(Recoverable))
      && (!Accounted(m) && (m.failed || asked || Fresh(s, m)) ==> next.status == Failed(Fatal))
  {
    hide Blank, Ledger.OutputTokens, Ledger.TurnTokens, SumValues, Session.ResponseText, Asked;
    AskedGrows(t.reactions, reaction);
  }

  /** What a result decides, in every run. It completes the run exactly if it is fresh and accounted
      for, nobody has asked for an interrupt and the last queued input has been echoed; it ends an
      interrupted run with an interruption; with an unechoed input a result that has not failed leaves
      the run open; and failures are raised as they are. */
  lemma ResultDecides(sealed: set<MessageId>, prompt: string, inputs: seq<Input>, m: Message, reaction: Reaction)
    requires Run(Started(sealed, prompt), inputs).status == Open && m.Result?
    ensures var t := Run(Started(sealed, prompt), inputs); var next := Advance(t, Input(m, reaction));
            var asked, askedNow := Asked(t.reactions), Asked(next.reactions);
            var echoed := Echoed(inputs, LastQueued(sealed, prompt, inputs));
      && (next.status == Ended ==> next.events != [])
      && (next.status == Ended && next.events[|next.events| - 1].Completed? <==>
            !m.failed && !asked && Fresh(t.session, m) && echoed && Accounted(m))
      && (next.status == Ended && next.events[|next.events| - 1].Interrupted? <==>
            (asked && Accounted(m)) || (!asked && askedNow))
      && (next.status == Open <==> !askedNow && !m.failed && !echoed && (Fresh(t.session, m) ==> Accounted(m)))
      && (m.failed && !askedNow && Accounted(m) ==> next.status == Failed(m.failedAs))
      && (!m.failed && !asked && !Fresh(t.session, m) && echoed ==> next.status == Failed(Recoverable))
      && (!Accounted(m) && (m.failed || asked || Fresh(t.session, m)) ==> next.status == Failed(Fatal))
  {
    hide Run, Advance, LastQueued, Echoed, Asked, Fresh;
    PendingExactly(sealed, prompt, inputs);
    InterruptedExactly(sealed, prompt, inputs);
    ResultNext(Run(Started(sealed, prompt), inputs), m, reaction);
  }

  /** A run that completes has had its last queued input echoed before the closing result. */
  lemma CompletionIsAnswered(sealed: set<MessageId>, prompt: string, inputs: seq<Input>) returns (n: nat)
    requires var t := Run(Started(sealed, prompt), inputs);
      t.status == Ended && t.events != [] && t.events[|t.events| - 1].Completed?
    ensures n < |inputs| && inputs[n].message.Result?
    ensures Run(Started(sealed, prompt), inputs[..n]).status == Open
    ensures Run(Started(sealed, prompt), inputs[..n + 1]) == Run(Started(sealed, prompt), inputs)
    ensures Echoed(inputs[..n], LastQueued(sealed, prompt, inputs[..n]))
  {
    hide Advance, LastQueued, Echoed, Fresh, Supplies;
    n := CompletionIsAttributed(sealed, prompt, inputs);
    assert inputs[..n + 1][..n] == inputs[..n];
    assert inputs[..n + 1] == inputs[..n] + [inputs[n]];
    RunNext(Started(sealed, prompt), inputs[..n], inputs[n]);
    ResultDecides(sealed, prompt, inputs[..n], inputs[n].message, inputs[n].reaction);
  }

  // ----- the outcome of any other message

  /** The response most recently started in the stream of this parent. */
  function LatestStart(inputs: seq<Input>, parent: Parent): Option<MessageId> {
    if inputs == [] then None
    else
      var m := inputs[|inputs| - 1].message;
      if m.StreamStart? && m.parent == parent then Some(m.startId) else LatestStart(inputs[..|inputs| - 1], parent)
  }

  /** The messages a run refuses, and how. */
  ghost function Refusal(inputs: seq<Input>, m: Message): Option<Error>
    requires !m.Result?
  {
    match m
    case User(_) => None
    case RateLimit(rejected) => if rejected then Some(Fatal) else None
    case StreamStart(_, _, tokens) => if tokens < 0 then Some(Fatal) else None
    case StreamDelta(parent, tokens) => if tokens < 0 || LatestStart(inputs, parent).None? then Some(Fatal) else None
    case Assistant(_, id, _, failure, usage) =>
      if failure.Some? then failure else if usage.Some? && (id.None? || usage.value < 0) then Some(Fatal) else None
    case Other => None
  }

  ghost predicate Streams(s: Session, inputs: seq<Input>) {
    forall parent ::
      && (parent in s.streams <==> LatestStart(inputs, parent).Some?)
      && (parent in s.streams ==> LatestStart(inputs, parent) == Some(s.streams[parent]))
  }

  lemma StreamsNext(t: Trace, inputs: seq<Input>, input: Input)
    requires t.status == Open && Streams(t.session, inputs)
    ensures var next := Advance(t, input);
      && (next.status != Open || Streams(next.session, inputs + [input]))
      && (!input.message.Result? ==>
            if Refusal(inputs, input.message).Some? then next.status == Failed(Refusal(inputs, input.message).value)
            else next.status == Open)
  {
    hide Begin, Streams, Refusal;
    var next, m := Advance(t, input), input.message;
    BeginRefuses(t.session, inputs, m);
    if next.status == Open {
      BeginStreams(t.session, m);
      LatestNext(t.session, next.session, inputs, input);
    }
  }

  /** A message is refused by the session exactly as the messages before it say. */
  lemma BeginRefuses(s: Session, inputs: seq<Input>, m: Message)
    requires Streams(s, inputs)
    ensures !m.Result? ==>
      if Refusal(inputs, m).Some? then Begin(s, m) == Raise(Refusal(inputs, m).value)
      else Begin(s, m).Continue? && Begin(s, m).rest.NothingMore?
  {
    hide Blank, Ledger.OutputTokens, SumValues;
    hide Session.FreshResult, Session.ResponseText, Session.Charge, Session.Retain;
  }

  lemma BeginStreams(s: Session, m: Message)
    ensures Begin(s, m).Continue? ==>
      Begin(s, m).session.streams == if m.StreamStart? then s.streams[m.parent := m.startId] else s.streams
  {
    hide Blank, Ledger.OutputTokens, SumValues, Session.FreshResult, Session.ResponseText;
  }

  lemma LatestNext(s: Session, s': Session, inputs: seq<Input>, input: Input)
    requires Streams(s, inputs)
    requires var m := input.message;
      s'.streams == if m.StreamStart? then s.streams[m.parent := m.startId] else s.streams
    ensures Streams(s', inputs + [input])
  {
    assert (inputs + [input])[..|inputs|] == inputs;
  }

  lemma {:induction false} StreamsExactly(sealed: set<MessageId>, prompt: string, inputs: seq<Input>)
    ensures var t := Run(Started(sealed, prompt), inputs); t.status == Open ==> Streams(t.session, inputs)
  {
    hide Advance, Streams;
    if inputs == [] {
      NoStreams(Started(sealed, prompt));
    } else {
      var earlier, input := inputs[..|inputs| - 1], inputs[|inputs| - 1];
      StreamsExactly(sealed, prompt, earlier);
      assert inputs == earlier + [input];
      if Run(Started(sealed, prompt), earlier).status == Open {
        StreamsNext(Run(Started(sealed, prompt), earlier), earlier, input);
      }
    }
  }

  lemma NoStreams(s: Session)
    requires s.streams == map[]
    ensures Streams(s, [])
  {
  }

  /** What any other message decides, in every run: it is refused for a rejected rate limit, a failed
      or malformed report of usage, or usage of a stream that has not started, and otherwise the run
      stays open. */
  lemma MessageDecides(sealed: set<MessageId>, prompt: string, inputs: seq<Input>, input: Input)
    requires Run(Started(sealed, prompt), inputs).status == Open && !input.message.Result?
    ensures var next := Advance(Run(Started(sealed, prompt), inputs), input);
      next.status == if Refusal(inputs, input.message).Some? then Failed(Refusal(inputs, input.message).value) else Open
  {
    hide Advance, Run, Streams, Refusal;
    StreamsExactly(sealed, prompt, inputs);
    StreamsNext(Run(Started(sealed, prompt), inputs), inputs, input);
  }

  // ----- usage

  /** The usage a message reports, read off the messages alone. */
  function SnapshotOf(inputs: seq<Input>, m: Message): seq<Snapshot> {
    match m
    case StreamStart(_, id, tokens) => if tokens >= 0 then [Snapshot(id, tokens)] else []
    case StreamDelta(parent, tokens) =>
      var id := LatestStart(inputs, parent);
      if id.Some? && tokens >= 0 then [Snapshot(id.value, tokens)] else []
    case Assistant(_, id, _, _, usage) =>
      if usage.Some? && usage.value >= 0 && id.Some? then [Snapshot(id.value, usage.value)] else []
    case User(_) => []
    case RateLimit(_) => []
    case Result(_, _, _, _, _, _) => []
    case Other => []
  }

  /** The output tokens a result reports, none being zero. */
  function Reported(m: Message): nat {
    if m.Result? && m.reported.Some? && m.reported.value >= 0 then m.reported.value else 0
  }

  /** The finished turns of a run and the snapshots of the present one. */
  datatype Books = Books(turns: seq<Turn>, open: seq<Snapshot>)

  ghost function Account(sealed: set<MessageId>, prompt: string, inputs: seq<Input>): Books {
    if inputs == [] then Books([], [])
    else
      var earlier, m := inputs[..|inputs| - 1], inputs[|inputs| - 1].message;
      var books := Account(sealed, prompt, earlier);
      if ClosesTurn(Run(Started(sealed, prompt), earlier).session, m) then
        Books(books.turns + [Turn(books.open, Reported(m))], [])
      else Books(books.turns, books.open + SnapshotOf(earlier, m))
  }

  ghost function LedgerOf(sealed: set<MessageId>, books: Books): Ledger {
    Observe(PlayTurns(Ledger(sealed, map[], 0), books.turns), books.open)
  }

  lemma BeginLedger(s: Session, inputs: seq<Input>, m: Message)
    requires Streams(s, inputs) && Begin(s, m).Continue?
    ensures var snapshot := SnapshotOf(inputs, m);
      Begin(s, m).session.ledger
      == if ClosesTurn(s, m) then s.ledger.Finalize(Reported(m))
         else if snapshot == [] then s.ledger else s.ledger.Update(snapshot[0].id, snapshot[0].tokens)
  {
    hide Blank, Ledger.OutputTokens, Session.FreshResult, Session.ResponseText;
  }

  /** The consumer's reaction and the end of the dispatch leave the ledger alone. */
  lemma AdvanceKeepsLedger(t: Trace, input: Input)
    requires Begin(t.session, input.message).Continue?
    ensures Advance(t, input).session.ledger == Begin(t.session, input.message).session.ledger
  {
    hide Begin, End;
  }

  lemma LedgerNext(t: Trace, inputs: seq<Input>, input: Input)
    requires t.status == Open && Streams(t.session, inputs) && Advance(t, input).status in {Open, Ended}
    ensures var m := input.message;
      Advance(t, input).session.ledger
      == if ClosesTurn(t.session, m) then t.session.ledger.Finalize(Reported(m))
         else Observe(t.session.ledger, SnapshotOf(inputs, m))
  {
    hide Begin, End, ClosesTurn, SnapshotOf, Streams, Observe, Ledger.Finalize;
    AtMostOneSnapshot(inputs, input.message);
    BeginLedger(t.session, inputs, input.message);
    AdvanceKeepsLedger(t, input);
    ObserveOne(t.session.ledger, SnapshotOf(inputs, input.message));
  }

  lemma AtMostOneSnapshot(inputs: seq<Input>, m: Message)
    ensures |SnapshotOf(inputs, m)| <= 1
  {
  }

  lemma ObserveOne(ledger: Ledger, snapshots: seq<Snapshot>)
    requires |snapshots| <= 1
    ensures Observe(ledger, snapshots)
         == if snapshots == [] then ledger else ledger.Update(snapshots[0].id, snapshots[0].tokens)
  {
    if snapshots != [] { assert snapshots[..0] == []; }
  }

  lemma {:induction false} ObserveInTurn(ledger: Ledger, first: seq<Snapshot>, second: seq<Snapshot>)
    ensures Observe(ledger, first + second) == Observe(Observe(ledger, first), second)
  {
    if second == [] {
      assert first + second == first;
    } else {
      ObserveInTurn(ledger, first, second[..|second| - 1]);
      assert (first + second)[..|first + second| - 1] == first + second[..|second| - 1];
    }
  }

  /** The inputs up to where the run stands or has ended. */
  ghost predicate Unfailed(sealed: set<MessageId>, prompt: string, inputs: seq<Input>) {
    && Run(Started(sealed, prompt), inputs).status in {Open, Ended}
    && (inputs != [] ==> Run(Started(sealed, prompt), inputs[..|inputs| - 1]).status == Open)
  }

  /** The ledger of a run is that of the turns and snapshots its messages report: each delta counts
      for the response last started in its stream. */
  lemma {:induction false} RunLedger(sealed: set<MessageId>, prompt: string, inputs: seq<Input>)
    requires Unfailed(sealed, prompt, inputs)
    ensures Run(Started(sealed, prompt), inputs).session.ledger == LedgerOf(sealed, Account(sealed, prompt, inputs))
  {
    hide Advance, ClosesTurn, SnapshotOf, Ledger.Finalize, LedgerOf;
    if inputs == [] {
      NoBooks(sealed);
    } else {
      var earlier, input := inputs[..|inputs| - 1], inputs[|inputs| - 1];
      if earlier != [] { OpenBefore(sealed, prompt, earlier); }
      RunLedger(sealed, prompt, earlier);
      StreamsExactly(sealed, prompt, earlier);
      var t, books := Run(Started(sealed, prompt), earlier), Account(sealed, prompt, earlier);
      LedgerNext(t, earlier, input);
      BooksNext(sealed, books, SnapshotOf(earlier, input.message), Account(sealed, prompt, inputs));
    }
  }

  lemma NoBooks(sealed: set<MessageId>)
    ensures LedgerOf(sealed, Books([], [])) == Ledger(sealed, map[], 0)
  {
  }

  lemma OpenBefore(sealed: set<MessageId>, prompt: string, inputs: seq<Input>)
    requires inputs != [] && Run(Started(sealed, prompt), inputs).status == Open
    ensures Run(Started(sealed, prompt), inputs[..|inputs| - 1]).status == Open
  {
    hide Advance;
  }

  lemma BooksNext(sealed: set<MessageId>, books: Books, more: seq<Snapshot>, next: Books)
    ensures next == Books(books.turns, books.open + more) ==>
      LedgerOf(sealed, next) == Observe(LedgerOf(sealed, books), more)
    ensures forall reported :: next == Books(books.turns + [Turn(books.open, reported)], []) ==>
      LedgerOf(sealed, next) == LedgerOf(sealed, books).Finalize(reported)
  {
    hide Ledger.Finalize;
    ObserveInTurn(PlayTurns(Ledger(sealed, map[], 0), books.turns), books.open, more);
    forall reported | next == Books(books.turns + [Turn(books.open, reported)], [])
      ensures LedgerOf(sealed, next) == LedgerOf(sealed, books).Finalize(reported)
    {
      assert next.turns[..|next.turns| - 1] == books.turns;
    }
  }

  /** The total the consumer knows. */
  ghost function LastTotal(events: seq<Event>): nat {
    if events == [] then 0 else events[|events| - 1].tokens
  }

  /** Every usage event reports more than any event before it. */
  ghost predicate ReportsChanges(events: seq<Event>) {
    && (forall i, j :: 0 <= i < j < |events| && events[j].Usage? ==> events[i].tokens < events[j].tokens)
    && (events != [] && events[0].Usage? ==> events[0].tokens > 0)
  }

  /** Usage events report every change of the total, at once and once. */
  ghost predicate UpToDate(t: Trace) {
    && ReportsChanges(t.events)
    && (t.status in {Open, Ended} ==> t.session.ledger.OutputTokens() == LastTotal(t.events))
  }

  lemma OneMoreEvent(events: seq<Event>, e: Event)
    requires ReportsChanges(events) && LastTotal(events) < e.tokens
    requires forall i :: 0 <= i < |events| ==> events[i].tokens <= LastTotal(events)
    ensures ReportsChanges(events + [e]) && LastTotal(events + [e]) == e.tokens
  {
  }

  lemma ReportNext(t: Trace, input: Input)
    requires t.status == Open && Invariant(t) && UpToDate(t)
    ensures UpToDate(Advance(t, input))
  {
    hide Begin, Blank, WellBehaved, Asked, FreshLast, Ledger.OutputTokens, ReportsChanges, LastTotal;
    BeginGrows(t.session, input.message);
    TotalUnchanged(t.session, input.message);
    var step := Begin(t.session, input.message);
    if step.Continue? {
      if step.usage.Some? { OneMoreEvent(t.events, Usage(step.usage.value)); }
      var ending := End(if step.usage.Some? then step.session.React(input.reaction) else step.session, step.rest);
      var events := if step.usage.Some? then t.events + [Usage(step.usage.value)] else t.events;
      if ending.Terminal? { LastEvent(events, ending.event); }
    }
  }

  /** A terminal event changes nothing the usage events say. */
  lemma LastEvent(events: seq<Event>, e: Event)
    requires ReportsChanges(events) && !e.Usage?
    ensures ReportsChanges(events + [e]) && LastTotal(events + [e]) == e.tokens
  {
  }

  /** Only reported changes leave the run open. */
  lemma TotalUnchanged(s: Session, m: Message)
    requires FreshLast(s)
    ensures var step := Begin(s, m); step.Continue? ==>
      && (step.usage.Some? ==> step.usage.value != s.ledger.OutputTokens())
      && (step.usage.None? && step.rest.NothingMore? ==>
            step.session.ledger.OutputTokens() == s.ledger.OutputTokens())
      && (step.usage.None? && step.rest.TurnResult? && (step.rest.failed || step.session.pending.Some?) ==>
            step.session.ledger.OutputTokens() == s.ledger.OutputTokens())
  {
    hide Blank, SumValues, Session.FreshResult, Session.ResponseText, Ledger.OutputTokens;
  }

  /** In every run the consumer knows the total: the last event of an open run carries it, events
      come only with a change, and the terminal event carries the final total. */
  lemma {:induction false} NothingUnreported(sealed: set<MessageId>, prompt: string, inputs: seq<Input>)
    ensures UpToDate(Run(Started(sealed, prompt), inputs))
  {
    hide Advance, UpToDate, Invariant;
    if inputs == [] {
      NothingSpent(sealed, prompt);
    } else {
      var earlier := inputs[..|inputs| - 1];
      NothingUnreported(sealed, prompt, earlier);
      EveryRunIsWellBehaved(sealed, prompt, earlier);
      if Run(Started(sealed, prompt), earlier).status == Open {
        ReportNext(Run(Started(sealed, prompt), earlier), inputs[|inputs| - 1]);
      }
    }
  }

  lemma NothingSpent(sealed: set<MessageId>, prompt: string)
    ensures UpToDate(Run(Started(sealed, prompt), []))
  {
  }

  /** What a run reports is a simple sum over its messages: the last event carries, over the turns, the
      larger of the reported count and the largest snapshots of fresh responses, and those of the
      present turn. */
  lemma ReportedIsSum(sealed: set<MessageId>, prompt: string, inputs: seq<Input>)
    requires Unfailed(sealed, prompt, inputs)
    ensures var t, books := Run(Started(sealed, prompt), inputs), Account(sealed, prompt, inputs);
      (if t.events == [] then 0 else t.events[|t.events| - 1].tokens)
      == TotalCharge(sealed, books.turns) + SumValues(FreshCounts(SealedAfter(sealed, books.turns), books.open))
  {
    hide Run, Account, TotalCharge, FreshCounts, SumValues, PlayTurns, Observe;
    RunLedger(sealed, prompt, inputs);
    NothingUnreported(sealed, prompt, inputs);
    LedgerIsSum(sealed, Account(sealed, prompt, inputs).turns, Account(sealed, prompt, inputs).open);
  }
}

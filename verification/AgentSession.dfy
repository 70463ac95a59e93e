/** Interpreting one conversation's SDK messages as usage events and one terminal event. The
    consumer reacts to a usage event before the interpreter goes on: it may request an interrupt
    and may queue further input. */
module AgentSession {
  import opened Options
  import opened TokenUsage

  /** The tool use a message belongs to; None is the main conversation. */
  type Parent = Option<string>

  /** How a raised error is treated: recoverable ones lose only the current phase. */
  datatype Error = Recoverable | Fatal

  datatype Message =
    | User(uuid: Option<string>)
    | RateLimit(rejected: bool)
    | StreamStart(parent: Parent, startId: MessageId, startTokens: int)
    | StreamDelta(parent: Parent, deltaTokens: int)
    | Assistant(parent: Parent, messageId: Option<MessageId>, text: string, failure: Option<Error>, usage: Option<int>)
    | Result(failed: bool, failedAs: Error, numTurns: int, structured: Option<string>, result: string,
             reported: Option<int>)
    | Other

  datatype Event = Usage(tokens: nat) | Completed(tokens: nat, text: string) | Interrupted(tokens: nat) {
    predicate Terminal() {
      !Usage?
    }
  }

  datatype Retained = Retained(id: MessageId, text: string)

  /** What remains of a dispatch after its usage event has been consumed. */
  datatype Rest = NothingMore | TurnResult(failed: bool, failedAs: Error, text: string)

  datatype Session = Session(ledger: Ledger, streams: map<Parent, MessageId>, interrupted: bool,
                             pending: Option<string>, last: Option<Retained>, ambiguous: bool)
  {
    // ----- keeping the text of the current response

    /** Another response starts afresh; within one, text replaces text and raises the flag. */
    function Retain(id: MessageId, text: string): Session {
      if last == None || last.value.id != id then
        this.(last := Some(Retained(id, text)), ambiguous := false)
      else if !Blank(text) then
        this.(last := Some(Retained(id, text)), ambiguous := ambiguous || !Blank(last.value.text))
      else
        this
    }

    function StartStream(parent: Parent, id: MessageId): Session {
      var s := this.(streams := streams[parent := id]);
      if parent.None? && id !in ledger.sealed then s.(last := None, ambiguous := false) else s
    }

    function Charge(id: MessageId, tokens: nat): Session {
      this.(ledger := ledger.Update(id, tokens))
    }

    /** The result's own text comes first; what was retained counts only if it was charged. */
    function ResponseText(structured: Option<string>, result: string): string {
      if structured.Some? then structured.value
      else if !Blank(result) then result
      else if last == None || ambiguous then ""
      else if ledger.MessageTokens(last.value.id) <= 0 then ""
      else last.value.text
    }

    ghost predicate FreshResult(numTurns: int, text: string) {
      numTurns > 0 && ledger.TurnTokens() > 0 && !Blank(text)
    }

    ghost function CloseTurn(reported: Option<nat>): Session {
      var tokens := if reported.None? then ledger.TurnTokens() else reported.value;
      this.(ledger := ledger.Finalize(tokens), last := None, ambiguous := false)
    }

    function React(reaction: Reaction): Session {
      this.(interrupted := interrupted || reaction.interrupt,
            pending := if reaction.queue.Some? then reaction.queue else pending)
    }
  }

  /** What the consumer does on a usage event. */
  datatype Reaction = Reaction(interrupt: bool, queue: Option<string>)

  /** The effect of a message up to its first event. */
  datatype Dispatch =
    | Continue(session: Session, usage: Option<nat>, rest: Rest)
    | Raise(error: Error)

  ghost function UsageIfChanged(before: Session, after: Session): Option<nat> {
    if after.ledger.OutputTokens() == before.ledger.OutputTokens() then None else Some(after.ledger.OutputTokens())
  }

  ghost function Begin(s: Session, m: Message): Dispatch {
    match m
    case User(uuid) =>
      Continue(if uuid == s.pending then s.(pending := None) else s, None, NothingMore)
    case RateLimit(rejected) =>
      if rejected then Raise(Fatal) else Continue(s, None, NothingMore)
    case StreamStart(parent, id, tokens) =>
      if tokens < 0 then Raise(Fatal)
      else
        var after := s.StartStream(parent, id).Charge(id, tokens);
        Continue(after, UsageIfChanged(s, after), NothingMore)
    case StreamDelta(parent, tokens) =>
      if parent !in s.streams || tokens < 0 then Raise(Fatal)
      else
        var after := s.Charge(s.streams[parent], tokens);
        Continue(after, UsageIfChanged(s, after), NothingMore)
    case Assistant(parent, messageId, text, failure, usage) =>
      if failure.Some? then Raise(failure.value)
      else if usage.Some? && (messageId.None? || usage.value < 0) then Raise(Fatal)
      else
        var kept := if messageId.Some? && messageId.value !in s.ledger.sealed && parent.None?
                    then s.Retain(messageId.value, text) else s;
        var after := if usage.Some? then kept.Charge(messageId.value, usage.value) else kept;
        Continue(after, UsageIfChanged(s, after), NothingMore)
    case Result(failed, failedAs, numTurns, structured, result, reported) =>
      var text := s.ResponseText(structured, result);
      if !failed && !s.interrupted && !s.FreshResult(numTurns, text) then
        if s.pending.Some? then Continue(s, None, NothingMore) else Raise(Recoverable)
      else if reported.Some? && reported.value < 0 then Raise(Fatal)
      else
        var count: Option<nat> := if reported.None? then None else Some(reported.value);
        var after := s.CloseTurn(count);
        Continue(after, if failed || s.pending.Some? then UsageIfChanged(s, after) else None,
                 TurnResult(failed, failedAs, text))
    case Other => Continue(s, None, NothingMore)
  }

  /** The rest of a dispatch, once the consumer has reacted to the usage event, if any. */
  datatype Ending = Going | Terminal(event: Event) | Failing(error: Error)

  ghost function End(s: Session, rest: Rest): Ending {
    if rest.NothingMore? then Going
    else if rest.failed && !s.interrupted then Failing(rest.failedAs)
    else if s.pending.Some? && !s.interrupted then Going
    else if s.interrupted then Terminal(Interrupted(s.ledger.OutputTokens()))
    else if Blank(rest.text) then Failing(Fatal)
    else Terminal(Completed(s.ledger.OutputTokens(), rest.text))
  }

  datatype Input = Input(message: Message, reaction: Reaction)

  /** The events of a run so far, the reactions given to its usage events, and how it stands. */
  datatype Trace = Trace(events: seq<Event>, reactions: seq<Reaction>, status: RunStatus, session: Session)
  datatype RunStatus = Open | Ended | Failed(error: Error)

  ghost function Run(start: Session, inputs: seq<Input>): Trace {
    if inputs == [] then Trace([], [], Open, start)
    else
      var before := Run(start, inputs[..|inputs| - 1]);
      if before.status != Open then before else Advance(before, inputs[|inputs| - 1])
  }

  ghost function Advance(t: Trace, input: Input): Trace {
    match Begin(t.session, input.message)
    case Raise(error) => t.(status := Failed(error))
    case Continue(s, usage, rest) =>
      var events := if usage.Some? then t.events + [Usage(usage.value)] else t.events;
      var reactions := if usage.Some? then t.reactions + [input.reaction] else t.reactions;
      var reacted := if usage.Some? then s.React(input.reaction) else s;
      match End(reacted, rest)
      case Going => Trace(events, reactions, Open, reacted)
      case Terminal(e) => Trace(events + [e], reactions, Ended, reacted)
      case Failing(error) => Trace(events, reactions, Failed(error), reacted)
  }

  /** A run starts with the shared sealed set, no counts and its prompt queued. */
  function Started(sealed: set<MessageId>, prompt: string): Session {
    Session(Ledger(sealed, map[], 0), map[], false, Some(prompt), None, false)
  }

  // ----- what every run satisfies

  /** Usage never decreases, at most one event is terminal and it is the last one, a completion has
      text and positive tokens, and an interruption was asked for. */
  ghost predicate WellBehaved(events: seq<Event>, reactions: seq<Reaction>) {
    && (forall i, j :: 0 <= i <= j < |events| ==> events[i].tokens <= events[j].tokens)
    && (forall i :: 0 <= i < |events| - 1 ==> events[i].Usage?)
    && (forall i :: 0 <= i < |events| && events[i].Completed? ==> events[i].tokens > 0 && !Blank(events[i].text))
    && (forall i :: 0 <= i < |events| && events[i].Interrupted? ==> Asked(reactions))
    && |reactions| == |events| - (if events != [] && events[|events| - 1].Terminal() then 1 else 0)
  }

  ghost predicate Asked(reactions: seq<Reaction>) {
    exists i :: 0 <= i < |reactions| && reactions[i].interrupt
  }

  /** What holds of a run while it is open. */
  ghost predicate Invariant(t: Trace) {
    && WellBehaved(t.events, t.reactions)
    && (forall i :: 0 <= i < |t.events| ==> t.events[i].tokens <= t.session.ledger.OutputTokens())
    && (t.status != Ended ==> forall i :: 0 <= i < |t.events| ==> t.events[i].Usage?)
    && (t.status == Ended ==> t.events != [] && t.events[|t.events| - 1].Terminal())
    && (t.session.interrupted ==> Asked(t.reactions))
    && FreshLast(t.session)
  }

  ghost predicate FreshLast(s: Session) {
    s.last.Some? ==> s.last.value.id !in s.ledger.sealed
  }

  lemma ChargeGrows(s: Session, id: MessageId, tokens: nat)
    requires FreshLast(s)
    ensures s.ledger.OutputTokens() <= s.Charge(id, tokens).ledger.OutputTokens()
    ensures FreshLast(s.Charge(id, tokens)) && s.Charge(id, tokens).interrupted == s.interrupted
  {
    s.ledger.Monotone(id, tokens);
  }

  lemma RetainStaysFresh(s: Session, id: MessageId, text: string)
    requires FreshLast(s) && id !in s.ledger.sealed
    ensures var r := s.Retain(id, text); FreshLast(r) && r.ledger == s.ledger && r.interrupted == s.interrupted
  {
  }

  lemma CloseGrows(s: Session, reported: Option<nat>, numTurns: int, text: string)
    ensures var r := s.CloseTurn(reported);
      && s.ledger.OutputTokens() <= r.ledger.OutputTokens() && FreshLast(r) && r.interrupted == s.interrupted
      && (s.FreshResult(numTurns, text) ==> r.ledger.OutputTokens() > 0 && !Blank(text))
  {
    hide Blank;
    s.ledger.Monotone("", if reported.None? then s.ledger.TurnTokens() else reported.value);
  }

  lemma BeginGrows(s: Session, m: Message)
    requires FreshLast(s)
    ensures var step := Begin(s, m); step.Continue? ==>
      && s.ledger.OutputTokens() <= step.session.ledger.OutputTokens()
      && (step.usage.Some? ==> step.usage.value == step.session.ledger.OutputTokens())
      && step.session.interrupted == s.interrupted && FreshLast(step.session)
      && (step.rest.TurnResult? && !step.rest.failed && !s.interrupted ==>
            step.session.ledger.OutputTokens() > 0 && !Blank(step.rest.text))
  {
    hide Blank, Ledger.OutputTokens, Ledger.TurnTokens, Session.Charge;
    hide Session.Retain, Session.CloseTurn, Session.FreshResult, Session.ResponseText;
    match m
    case StreamStart(parent, id, tokens) =>
      if tokens >= 0 { ChargeGrows(s.StartStream(parent, id), id, tokens); }
    case StreamDelta(parent, tokens) =>
      if parent in s.streams && tokens >= 0 { ChargeGrows(s, s.streams[parent], tokens); }
    case Assistant(parent, messageId, text, failure, usage) =>
      if messageId.Some? {
        if messageId.value !in s.ledger.sealed { RetainStaysFresh(s, messageId.value, text); }
        var kept := if messageId.value !in s.ledger.sealed && parent.None? then s.Retain(messageId.value, text) else s;
        if usage.Some? && usage.value >= 0 { ChargeGrows(kept, messageId.value, usage.value); }
      }
    case Result(failed, failedAs, numTurns, structured, result, reported) =>
      var text := s.ResponseText(structured, result);
      if reported.None? { CloseGrows(s, None, numTurns, text); }
      else if reported.value >= 0 { CloseGrows(s, Some(reported.value), numTurns, text); }
    case User(uuid) =>
    case RateLimit(rejected) =>
    case Other =>
  }

  lemma AskedGrows(reactions: seq<Reaction>, r: Reaction)
    ensures Asked(reactions + [r]) <==> Asked(reactions) || r.interrupt
  {
    if r.interrupt { assert (reactions + [r])[|reactions|].interrupt; }
    if i :| 0 <= i < |reactions| && reactions[i].interrupt { assert (reactions + [r])[i].interrupt; }
  }

  /** Adding a usage event no smaller than the ones before. */
  lemma AppendUsage(events: seq<Event>, reactions: seq<Reaction>, tokens: nat, r: Reaction)
    requires WellBehaved(events, reactions)
    requires forall i :: 0 <= i < |events| ==> events[i].Usage? && events[i].tokens <= tokens
    ensures WellBehaved(events + [Usage(tokens)], reactions + [r])
  {
  }

  /** Adding the terminal event. */
  lemma AppendTerminal(events: seq<Event>, reactions: seq<Reaction>, e: Event)
    requires WellBehaved(events, reactions) && e.Terminal()
    requires forall i :: 0 <= i < |events| ==> events[i].Usage? && events[i].tokens <= e.tokens
    requires e.Completed? ==> e.tokens > 0 && !Blank(e.text)
    requires e.Interrupted? ==> Asked(reactions)
    ensures WellBehaved(events + [e], reactions)
  {
  }

  /** The part of a dispatch after the consumer's reaction. */
  lemma EndKeeps(events: seq<Event>, reactions: seq<Reaction>, s: Session, rest: Rest)
    requires WellBehaved(events, reactions) && (s.interrupted ==> Asked(reactions))
    requires forall i :: 0 <= i < |events| ==> events[i].Usage? && events[i].tokens <= s.ledger.OutputTokens()
    requires rest.TurnResult? && !rest.failed && !s.interrupted ==> s.ledger.OutputTokens() > 0 && !Blank(rest.text)
    ensures var ending := End(s, rest); ending.Terminal? ==>
      WellBehaved(events + [ending.event], reactions) && ending.event.Terminal()
      && ending.event.tokens == s.ledger.OutputTokens()
  {
    var ending := End(s, rest);
    if ending.Terminal? { AppendTerminal(events, reactions, ending.event); }
  }

  lemma AdvanceKeeps(t: Trace, input: Input)
    requires Invariant(t) && t.status == Open
    ensures Invariant(Advance(t, input))
  {
    hide WellBehaved, Asked, Begin, End, Ledger.OutputTokens, Blank;
    BeginGrows(t.session, input.message);
    AskedGrows(t.reactions, input.reaction);
    var step := Begin(t.session, input.message);
    if step.Continue? {
      var reacted := step.session;
      var events, reactions := t.events, t.reactions;
      if step.usage.Some? {
        AppendUsage(events, reactions, step.usage.value, input.reaction);
        reacted := step.session.React(input.reaction);
        events, reactions := events + [Usage(step.usage.value)], reactions + [input.reaction];
      }
      EndKeeps(events, reactions, reacted, step.rest);
    }
  }

  lemma BeginSeals(s: Session, m: Message)
    ensures Begin(s, m).Continue? ==> s.ledger.sealed <= Begin(s, m).session.ledger.sealed
  {
    hide Ledger.OutputTokens, Ledger.TurnTokens, SumValues, Blank, Session.FreshResult, Session.ResponseText;
  }

  /** The identities sealed before a run stay sealed. */
  lemma {:induction false} SealedStay(start: Session, inputs: seq<Input>)
    ensures start.ledger.sealed <= Run(start, inputs).session.ledger.sealed
  {
    hide Begin, End;
    if inputs != [] {
      SealedStay(start, inputs[..|inputs| - 1]);
      BeginSeals(Run(start, inputs[..|inputs| - 1]).session, inputs[|inputs| - 1].message);
    }
  }

  /** Every run, whatever messages arrive and however the consumer reacts, is well behaved. */
  lemma {:induction false} EveryRunIsWellBehaved(sealed: set<MessageId>, prompt: string, inputs: seq<Input>)
    ensures Invariant(Run(Started(sealed, prompt), inputs))
  {
    if inputs != [] {
      EveryRunIsWellBehaved(sealed, prompt, inputs[..|inputs| - 1]);
      var before := Run(Started(sealed, prompt), inputs[..|inputs| - 1]);
      if before.status == Open { AdvanceKeeps(before, inputs[|inputs| - 1]); }
    }
  }

  // ----- where fallback text can come from

  /** A child envelope, a replayed one or one without an identity leaves the retained text alone. */
  lemma OnlyFreshMainText(s: Session, m: Message)
    requires m.Assistant? && Begin(s, m).Continue?
    requires m.parent.Some? || m.messageId.None? || m.messageId.value in s.ledger.sealed
    ensures Begin(s, m).session.last == s.last && Begin(s, m).session.ambiguous == s.ambiguous
  {
  }

  /** Fallback text is used only when the result carries none, and then it is the unambiguous text
      of a fresh response that was charged in the present turn. */
  lemma FallbackIsFreshAndMetered(s: Session, m: Message)
    requires m.Result? && m.structured.None? && Blank(m.result)
    requires s.last.Some? ==> s.last.value.id !in s.ledger.sealed
    requires Begin(s, m).Continue? && Begin(s, m).rest.TurnResult? && !Blank(Begin(s, m).rest.text)
    ensures s.last.Some? && !s.ambiguous && Begin(s, m).rest.text == s.last.value.text
    ensures s.last.value.id !in s.ledger.sealed && s.ledger.MessageTokens(s.last.value.id) > 0
  {
  }

  // ----- the interpreter

  /** The interpreter of one connection. A dispatch is split where the consumer runs: BeginDispatch
      ends at the usage event, EndDispatch continues after the consumer's reaction. */
  class Interpreter {
    const usage: TokenUsage
    var streamIds: map<Parent, MessageId>
    var interrupted: bool
    var pendingMessageId: Option<string>
    var lastAssistantMessage: Option<Retained>
    var hasMultipleTextEnvelopes: bool

    function Value(): Session
      reads this, usage, usage.sealed
    {
      Session(usage.Value(), streamIds, interrupted, pendingMessageId, lastAssistantMessage, hasMultipleTextEnvelopes)
    }

    /** Begins a run: a fresh ledger over the shared sealed identities, and the prompt queued. */
    constructor (sealed: SealedIds, promptId: string)
      ensures usage.sealed == sealed && fresh(usage)
      ensures Value() == Started(sealed.ids, promptId)
    {
      usage := new TokenUsage(sealed);
      streamIds := map[];
      interrupted := false;
      lastAssistantMessage := None;
      hasMultipleTextEnvelopes := false;
      pendingMessageId := Some(promptId);
    }

    method Queue(id: string)
      modifies this
      ensures Value() == old(Value()).React(Reaction(false, Some(id)))
    {
      pendingMessageId := Some(id);
    }

    method Interrupt()
      modifies this
      ensures Value() == old(Value()).React(Reaction(true, None))
    {
      interrupted := true;
    }

    method RetainResponseText(id: MessageId, text: string)
      modifies this
      ensures Value() == old(Value()).Retain(id, text)
    {
      if lastAssistantMessage == None || lastAssistantMessage.value.id != id {
        hasMultipleTextEnvelopes := false;
        lastAssistantMessage := Some(Retained(id, text));
      } else if !Blank(text) {
        if !Blank(lastAssistantMessage.value.text) {
          hasMultipleTextEnvelopes := true;
        }
        lastAssistantMessage := Some(Retained(id, text));
      }
    }

    method UpdateStreamUsage(m: Message) returns (ok: bool)
      requires m.StreamStart? || m.StreamDelta?
      modifies this, usage
      ensures ok <==> Begin(old(Value()), m).Continue?
      ensures ok ==> Value() == Begin(old(Value()), m).session
    {
      if m.StreamStart? {
        streamIds := streamIds[m.parent := m.startId];
        if m.parent.None? && m.startId !in usage.sealed.ids {
          lastAssistantMessage := None;
          hasMultipleTextEnvelopes := false;
        }
        ok := usage.UpdateMessageTokens(m.startId, m.startTokens);
      } else if m.parent !in streamIds {
        ok := false;
      } else {
        ok := usage.UpdateMessageTokens(streamIds[m.parent], m.deltaTokens);
      }
    }

    method UpdateAssistant(m: Message) returns (error: Option<Error>)
      requires m.Assistant?
      modifies this, usage
      ensures Begin(old(Value()), m).Continue? <==> error.None?
      ensures error.Some? ==> Begin(old(Value()), m) == Raise(error.value)
      ensures error.None? ==> Value() == Begin(old(Value()), m).session
    {
      if m.failure.Some? { return m.failure; }
      if m.messageId.Some? && m.messageId.value !in usage.sealed.ids && m.parent.None? {
        RetainResponseText(m.messageId.value, m.text);
      }
      if m.usage.Some? {
        if m.messageId.None? { return Some(Fatal); }
        var ok := usage.UpdateMessageTokens(m.messageId.value, m.usage.value);
        if !ok { return Some(Fatal); }
      }
      error := None;
    }

    method GetResponseText(structured: Option<string>, result: string) returns (text: string)
      ensures text == Value().ResponseText(structured, result)
    {
      if structured.Some? { return structured.value; }
      if !Blank(result) { return result; }
      if lastAssistantMessage == None || hasMultipleTextEnvelopes { return ""; }
      var id := lastAssistantMessage.value.id;
      var tokens := if id in usage.messageTokens then usage.messageTokens[id] else 0;
      if tokens <= 0 { return ""; }
      text := lastAssistantMessage.value.text;
    }

    method BeginTurnResult(m: Message) returns (error: Option<Error>, event: Option<nat>, rest: Rest)
      requires m.Result?
      modifies this, usage, usage.sealed
      ensures Begin(old(Value()), m).Continue? <==> error.None?
      ensures error.Some? ==> Begin(old(Value()), m) == Raise(error.value)
      ensures error.None? ==> Continue(Value(), event, rest) == Begin(old(Value()), m)
    {
      error, event, rest := None, None, NothingMore;
      var text := GetResponseText(m.structured, m.result);
      var turn := usage.TurnOutputTokens();
      if !m.failed && !interrupted && !(m.numTurns > 0 && turn > 0 && !Blank(text)) {
        if pendingMessageId.None? { error := Some(Recoverable); }
        return;
      }
      var previous := usage.OutputTokens();
      var ok := usage.FinalizeTurnUsage(if m.reported.None? then turn else m.reported.value);
      if !ok {
        error := Some(Fatal);
        return;
      }
      lastAssistantMessage := None;
      hasMultipleTextEnvelopes := false;
      if m.failed || pendingMessageId.Some? { event := UsageEventIfChanged(previous); }
      rest := TurnResult(m.failed, m.failedAs, text);
    }

    method BeginDispatch(m: Message) returns (error: Option<Error>, event: Option<nat>, rest: Rest)
      modifies this, usage, usage.sealed
      ensures Begin(old(Value()), m).Continue? <==> error.None?
      ensures error.Some? ==> Begin(old(Value()), m) == Raise(error.value)
      ensures error.None? ==> Continue(Value(), event, rest) == Begin(old(Value()), m)
    {
      error, event, rest := None, None, NothingMore;
      match m
      case User(uuid) =>
        if uuid == pendingMessageId { pendingMessageId := None; }
      case RateLimit(rejected) =>
        if rejected { error := Some(Fatal); }
      case Result(_, _, _, _, _, _) =>
        error, event, rest := BeginTurnResult(m);
      case Other =>
      case Assistant(_, _, _, _, _) =>
        var previous := usage.OutputTokens();
        error := UpdateAssistant(m);
        if error.None? { event := UsageEventIfChanged(previous); }
      case StreamStart(_, _, _) =>
        var previous := usage.OutputTokens();
        var ok := UpdateStreamUsage(m);
        if ok { event := UsageEventIfChanged(previous); } else { error := Some(Fatal); }
      case StreamDelta(_, _) =>
        var previous := usage.OutputTokens();
        var ok := UpdateStreamUsage(m);
        if ok { event := UsageEventIfChanged(previous); } else { error := Some(Fatal); }
    }

    method UsageEventIfChanged(previous: nat) returns (event: Option<nat>)
      ensures event == if Value().ledger.OutputTokens() == previous then None else Some(Value().ledger.OutputTokens())
    {
      var total := usage.OutputTokens();
      event := if total == previous then None else Some(total);
    }

    method EndDispatch(rest: Rest) returns (ending: Ending)
      ensures ending == End(Value(), rest)
    {
      if rest.NothingMore? { return Going; }
      if rest.failed && !interrupted { return Failing(rest.failedAs); }
      if pendingMessageId.Some? && !interrupted { return Going; }
      var total := usage.OutputTokens();
      if interrupted { return Terminal(Interrupted(total)); }
      if Blank(rest.text) { return Failing(Fatal); }
      ending := Terminal(Completed(total, rest.text));
    }
  }
}

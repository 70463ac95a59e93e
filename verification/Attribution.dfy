/** Which text a completed run hands on. A result that carries no text of its own falls back on the
    envelopes of its turn; this module says exactly on which, for every sequence of messages. */
module Attribution {
  import opened Options
  import opened TokenUsage
  import opened AgentSession

  // ----- the messages of the present turn

  /** The result is accepted and ends a turn, whether or not it ends the run. */
  ghost predicate ClosesTurn(s: Session, m: Message) {
    Begin(s, m).Continue? && Begin(s, m).rest.TurnResult?
  }

  /** How many inputs came before the present turn. */
  ghost function TurnStart(start: Session, inputs: seq<Input>): (n: nat)
    ensures n <= |inputs|
  {
    if inputs == [] then 0
    else
      var earlier := inputs[..|inputs| - 1];
      var before := Run(start, earlier);
      if before.status == Open && ClosesTurn(before.session, inputs[|inputs| - 1].message) then |inputs|
      else TurnStart(start, earlier)
  }

  function Messages(inputs: seq<Input>): seq<Message> {
    seq(|inputs|, i requires 0 <= i < |inputs| => inputs[i].message)
  }

  ghost function Turn(start: Session, inputs: seq<Input>): seq<Message> {
    Messages(inputs[TurnStart(start, inputs)..])
  }

  /** A fresh envelope of the main conversation: its response was not sealed by an earlier turn. */
  predicate Envelope(m: Message, sealed: set<MessageId>) {
    m.Assistant? && m.parent.None? && m.messageId.Some? && m.messageId.value !in sealed
  }

  predicate Spoken(m: Message, sealed: set<MessageId>, id: MessageId) {
    Envelope(m, sealed) && m.messageId.value == id && !Blank(m.text)
  }

  /** Another fresh response begins: its stream starts, or one of its envelopes arrives. */
  predicate Resets(m: Message, sealed: set<MessageId>, id: MessageId) {
    || (m.StreamStart? && m.parent.None? && m.startId !in sealed)
    || (Envelope(m, sealed) && m.messageId.value != id)
  }

  /** An envelope with text of response `id`, and nothing has reset the text since. */
  ghost predicate Standing(turn: seq<Message>, sealed: set<MessageId>, id: MessageId, i: nat) {
    i < |turn| && Spoken(turn[i], sealed, id) && forall k :: i < k < |turn| ==> !Resets(turn[k], sealed, id)
  }

  /** The only such envelope. */
  ghost predicate Alone(turn: seq<Message>, sealed: set<MessageId>, id: MessageId, i: nat) {
    Standing(turn, sealed, id, i) && forall j: nat :: Standing(turn, sealed, id, j) ==> j == i
  }

  /** The message supplies the turn's text: it stands alone and its response was charged. */
  ghost predicate Supplies(s: Session, turn: seq<Message>, i: nat) {
    && i < |turn| && turn[i].Assistant? && turn[i].messageId.Some?
    && Alone(turn, s.ledger.sealed, turn[i].messageId.value, i)
    && s.ledger.MessageTokens(turn[i].messageId.value) > 0
  }

  // ----- a summary of the turn

  /** The response the turn is at, and the positions of its envelopes with text since the last reset. */
  datatype Current = Current(id: Option<MessageId>, spoken: seq<nat>)

  function CurrentOf(turn: seq<Message>, sealed: set<MessageId>): (c: Current)
    ensures forall k :: 0 <= k < |c.spoken| ==> c.spoken[k] < |turn|
    ensures forall k :: 0 <= k < |c.spoken| ==> turn[c.spoken[k]].Assistant?
  {
    if turn == [] then Current(None, [])
    else
      var earlier, m, n := CurrentOf(turn[..|turn| - 1], sealed), turn[|turn| - 1], |turn| - 1;
      if m.StreamStart? && m.parent.None? && m.startId !in sealed then Current(None, [])
      else if !Envelope(m, sealed) then earlier
      else
        var since := if earlier.id == m.messageId then earlier.spoken else [];
        Current(m.messageId, if Blank(m.text) then since else since + [n])
  }

  lemma {:induction false} CurrentIsOrdered(turn: seq<Message>, sealed: set<MessageId>)
    ensures var c := CurrentOf(turn, sealed);
      && (forall k, l :: 0 <= k < l < |c.spoken| ==> c.spoken[k] < c.spoken[l])
      && (c.id.None? ==> c.spoken == [])
  {
    hide Blank;
    if turn != [] { CurrentIsOrdered(turn[..|turn| - 1], sealed); }
  }

  /** The summary holds exactly the standing envelopes. */
  lemma {:induction false} CurrentIsStanding(turn: seq<Message>, sealed: set<MessageId>, id: MessageId, i: nat)
    ensures var c := CurrentOf(turn, sealed);
      Standing(turn, sealed, id, i) <==> c.id == Some(id) && i in c.spoken
  {
    hide Blank;
    if turn != [] {
      var n, m := |turn| - 1, turn[|turn| - 1];
      CurrentIsStanding(turn[..n], sealed, id, i);
      StandingNext(turn, sealed, id, i);
    }
  }

  lemma StandingNext(turn: seq<Message>, sealed: set<MessageId>, id: MessageId, i: nat)
    requires turn != []
    ensures var n := |turn| - 1;
      Standing(turn, sealed, id, i) <==>
        if i == n then Spoken(turn[n], sealed, id)
        else Standing(turn[..n], sealed, id, i) && !Resets(turn[n], sealed, id)
  {
    hide Blank;
  }

  /** What the interpreter keeps of the turn agrees with the summary. */
  ghost predicate Retains(s: Session, turn: seq<Message>) {
    var c := CurrentOf(turn, s.ledger.sealed);
    && c.id == (if s.last.None? then None else Some(s.last.value.id))
    && (s.ambiguous <==> |c.spoken| >= 2)
    && (s.last.Some? ==>
          if c.spoken == [] then Blank(s.last.value.text)
          else s.last.value.text == turn[c.spoken[|c.spoken| - 1]].text && !Blank(s.last.value.text))
  }

  lemma RetainsNext(s: Session, m: Message, turn: seq<Message>)
    requires Retains(s, turn) && Begin(s, m).Continue?
    ensures var step := Begin(s, m);
      if ClosesTurn(s, m) then Retains(step.session, [])
      else step.session.ledger.sealed == s.ledger.sealed && Retains(step.session, turn + [m])
  {
    hide Blank, Ledger.OutputTokens, Ledger.TurnTokens, Session.FreshResult;
    hide Session.ResponseText, Session.Retain, Retains, CurrentOf;
    var step := Begin(s, m).session;
    match m
    case StreamStart(parent, id, tokens) =>
      if parent.None? && id !in s.ledger.sealed { RetainsReset(step, m, turn); } else { RetainsSame(s, step, m, turn); }
    case StreamDelta(parent, tokens) => RetainsSame(s, step, m, turn);
    case Assistant(parent, messageId, text, failure, usage) =>
      if Envelope(m, s.ledger.sealed) {
        var kept := s.Retain(messageId.value, text);
        RetainsEnvelope(s, m, turn);
        RetainsCharged(kept, step, turn + [m]);
      } else {
        RetainsSame(s, step, m, turn);
      }
    case Result(failed, failedAs, numTurns, structured, result, reported) =>
      if ClosesTurn(s, m) { NothingRetained(step); } else { RetainsSame(s, step, m, turn); }
    case User(uuid) => RetainsSame(s, step, m, turn);
    case RateLimit(rejected) => RetainsSame(s, step, m, turn);
    case Other => RetainsSame(s, step, m, turn);
  }

  lemma RetainsSame(s: Session, s': Session, m: Message, turn: seq<Message>)
    requires Retains(s, turn) && s'.last == s.last && s'.ambiguous == s.ambiguous && s'.ledger.sealed == s.ledger.sealed
    requires !Envelope(m, s.ledger.sealed) && !(m.StreamStart? && m.parent.None? && m.startId !in s.ledger.sealed)
    ensures Retains(s', turn + [m])
  {
    hide Blank;
    assert (turn + [m])[..|turn|] == turn;
  }

  lemma RetainsCharged(s: Session, s': Session, turn: seq<Message>)
    requires Retains(s, turn) && s'.last == s.last && s'.ambiguous == s.ambiguous && s'.ledger.sealed == s.ledger.sealed
    ensures Retains(s', turn)
  {
    hide Blank;
  }

  lemma RetainsReset(s: Session, m: Message, turn: seq<Message>)
    requires s.last.None? && !s.ambiguous && m.StreamStart? && m.parent.None? && m.startId !in s.ledger.sealed
    ensures Retains(s, turn + [m])
  {
  }

  lemma CurrentWithEnvelope(turn: seq<Message>, m: Message, sealed: set<MessageId>)
    requires Envelope(m, sealed)
    ensures var earlier := CurrentOf(turn, sealed);
            var since := if earlier.id == m.messageId then earlier.spoken else [];
      CurrentOf(turn + [m], sealed) == Current(m.messageId, if Blank(m.text) then since else since + [|turn|])
  {
    hide Blank;
    assert (turn + [m])[..|turn|] == turn;
  }

  lemma RetainsEnvelope(s: Session, m: Message, turn: seq<Message>)
    requires Retains(s, turn) && Envelope(m, s.ledger.sealed)
    ensures var kept := s.Retain(m.messageId.value, m.text); Retains(kept, turn + [m]) && kept.ledger == s.ledger
  {
    hide Blank, CurrentOf;
    CurrentWithEnvelope(turn, m, s.ledger.sealed);
  }

  /** In every run, whatever messages are interleaved, the retained text is that of the last standing
      envelope of the response the turn is at, and the flag says whether there are several. */
  lemma {:induction false} RetainedText(sealed: set<MessageId>, prompt: string, inputs: seq<Input>)
    ensures var start := Started(sealed, prompt);
      Run(start, inputs).status == Open ==> Retains(Run(start, inputs).session, Turn(start, inputs))
  {
    hide Begin, Retains;
    var start := Started(sealed, prompt);
    if inputs == [] {
      NothingRetained(start);
    } else {
      var earlier, input := inputs[..|inputs| - 1], inputs[|inputs| - 1];
      RetainedText(sealed, prompt, earlier);
      var before := Run(start, earlier);
      if Run(start, inputs).status == Open {
        var step := Begin(before.session, input.message);
        RetainsNext(before.session, input.message, Turn(start, earlier));
        TurnNext(start, inputs);
        ReactRetains(step.session, input.reaction, Turn(start, inputs));
      }
    }
  }

  lemma NothingRetained(s: Session)
    requires s.last.None? && !s.ambiguous
    ensures Retains(s, [])
  {
  }

  lemma TurnNext(start: Session, inputs: seq<Input>)
    requires inputs != [] && Run(start, inputs[..|inputs| - 1]).status == Open
    ensures var earlier, m := inputs[..|inputs| - 1], inputs[|inputs| - 1].message;
      Turn(start, inputs) == if ClosesTurn(Run(start, earlier).session, m) then [] else Turn(start, earlier) + [m]
  {
    hide Run, ClosesTurn;
    var earlier := inputs[..|inputs| - 1];
    var n := TurnStart(start, earlier);
    assert inputs[n..] == earlier[n..] + [inputs[|inputs| - 1]];
    assert Messages(earlier[n..] + [inputs[|inputs| - 1]]) == Messages(earlier[n..]) + [inputs[|inputs| - 1].message];
  }

  lemma ReactRetains(s: Session, reaction: Reaction, turn: seq<Message>)
    requires Retains(s, turn)
    ensures Retains(s.React(reaction), turn)
  {
  }

  // ----- the text of a result

  /** A result without text of its own takes that of the message that supplies it, and is left without
      text exactly when no message does. */
  lemma TextIsSupplied(s: Session, turn: seq<Message>, m: Message)
    requires Retains(s, turn) && m.Result? && m.structured.None? && Blank(m.result)
    ensures var text := s.ResponseText(m.structured, m.result);
      && (!Blank(text) <==> exists i: nat :: Supplies(s, turn, i))
      && (forall i: nat :: Supplies(s, turn, i) ==> text == turn[i].text)
  {
    hide Blank;
    EmptyIsBlank();
    var sealed, c := s.ledger.sealed, CurrentOf(turn, s.ledger.sealed);
    CurrentIsOrdered(turn, sealed);
    forall id, i: nat ensures Standing(turn, sealed, id, i) <==> c.id == Some(id) && i in c.spoken {
      CurrentIsStanding(turn, sealed, id, i);
    }
    forall i: nat | Supplies(s, turn, i) ensures c.spoken == [i] {
      OnlyOne(c.spoken, i);
    }
    if |c.spoken| == 1 && s.ledger.MessageTokens(c.id.value) > 0 {
      var i := c.spoken[0];
      assert Standing(turn, sealed, c.id.value, i);
      assert Supplies(s, turn, i);
    }
  }

  lemma OnlyOne(spoken: seq<nat>, i: nat)
    requires i in spoken && forall j :: j in spoken ==> j == i
    requires forall k, l :: 0 <= k < l < |spoken| ==> spoken[k] < spoken[l]
    ensures spoken == [i]
  {
    var first, last := spoken[0], spoken[|spoken| - 1];
    assert first in spoken && last in spoken;
  }

  lemma EmptyIsBlank()
    ensures Blank("")
  {
  }

  /** In every run that is still open, for a result that carries no text: there is a text to fall back
      on if and only if some envelope of the present turn supplies it, and then it is that one's. */
  lemma FallbackExactly(sealed: set<MessageId>, prompt: string, inputs: seq<Input>, m: Message)
    requires Run(Started(sealed, prompt), inputs).status == Open
    requires m.Result? && m.structured.None? && Blank(m.result)
    ensures var s, turn := Run(Started(sealed, prompt), inputs).session, Turn(Started(sealed, prompt), inputs);
            var text := s.ResponseText(m.structured, m.result);
      && (!Blank(text) <==> exists i: nat :: Supplies(s, turn, i))
      && (forall i: nat :: Supplies(s, turn, i) ==> text == turn[i].text)
  {
    hide Run, Turn, Retains, Blank, Supplies;
    RetainedText(sealed, prompt, inputs);
    TextIsSupplied(Run(Started(sealed, prompt), inputs).session, Turn(Started(sealed, prompt), inputs), m);
  }

  /** The text of a completion, given the state and the turn its result arrived in. */
  ghost predicate Attributed(text: string, m: Message, s: Session, turn: seq<Message>) {
    && m.Result?
    && if m.structured.Some? then text == m.structured.value
       else if !Blank(m.result) then text == m.result
       else exists i: nat :: Supplies(s, turn, i) && text == turn[i].text
  }

  /** Every run that ends, ends at a result: its text is the result's own, or that of the one standing
      envelope of a response not sealed by then and charged in the turn the result closes. */
  lemma {:induction false} CompletionIsAttributed(sealed: set<MessageId>, prompt: string, inputs: seq<Input>)
      returns (n: nat)
    requires Run(Started(sealed, prompt), inputs).status == Ended
    ensures var start := Started(sealed, prompt); var t := Run(start, inputs);
      && n < |inputs| && Run(start, inputs[..n + 1]) == t && Run(start, inputs[..n]).status == Open
      && t.events != []
      && var e := t.events[|t.events| - 1];
         && (e.Completed? || e.Interrupted?)
         && (e.Completed? ==> Attributed(e.text, inputs[n].message, Run(start, inputs[..n]).session,
                                         Turn(start, inputs[..n])))
  {
    hide Advance, WellBehaved, Attributed, Blank, Turn, FreshLast, Ledger.OutputTokens;
    var start := Started(sealed, prompt);
    var earlier, input := inputs[..|inputs| - 1], inputs[|inputs| - 1];
    EveryRunIsWellBehaved(sealed, prompt, inputs);
    var before, t := Run(start, earlier), Run(start, inputs);
    if before.status == Open {
      n := |earlier|;
      assert inputs[..n + 1] == inputs;
      EndingIsAttributed(sealed, prompt, earlier, input);
      assert earlier + [input] == inputs;
    } else {
      n := CompletionIsAttributed(sealed, prompt, earlier);
      assert earlier[..n + 1] == inputs[..n + 1] && earlier[..n] == inputs[..n];
    }
  }

  lemma EndingIsAttributed(sealed: set<MessageId>, prompt: string, inputs: seq<Input>, input: Input)
    requires Run(Started(sealed, prompt), inputs).status == Open
    requires Advance(Run(Started(sealed, prompt), inputs), input).status == Ended
    ensures var start := Started(sealed, prompt); var t := Advance(Run(start, inputs), input);
      t.events != [] && var e := t.events[|t.events| - 1]; e.Completed? ==>
        Attributed(e.text, input.message, Run(start, inputs).session, Turn(start, inputs))
  {
    hide Run, Turn, Blank, Supplies, Ledger.OutputTokens, Session.CloseTurn, Session.FreshResult;
    var m := input.message;
    if m.Result? && m.structured.None? && Blank(m.result) { FallbackExactly(sealed, prompt, inputs, m); }
    ResultText(Run(Started(sealed, prompt), inputs).session, m);
  }

  lemma ResultText(s: Session, m: Message)
    ensures ClosesTurn(s, m) ==> m.Result? && Begin(s, m).rest.text == s.ResponseText(m.structured, m.result)
    ensures Begin(s, m).Continue? && !ClosesTurn(s, m) ==> Begin(s, m).rest.NothingMore?
  {
    hide Blank, Ledger.OutputTokens, Session.CloseTurn, Session.FreshResult, Session.ResponseText;
  }

  // ----- split text

  /** The envelope that supplies the text is the only one of its response with text in the whole turn
      if and only if no fresh main envelope of another response and no fresh main stream start came
      between an earlier envelope with text of that response and it. */
  lemma SplitTextExactly(turn: seq<Message>, sealed: set<MessageId>, id: MessageId, i: nat)
    requires Alone(turn, sealed, id, i)
    ensures (forall j :: 0 <= j < |turn| && Spoken(turn[j], sealed, id) ==> j == i)
       <==> (forall j, k :: 0 <= j < k < i && Spoken(turn[j], sealed, id) ==> !Resets(turn[k], sealed, id))
  {
    hide Blank;
    if forall j, k :: 0 <= j < k < i && Spoken(turn[j], sealed, id) ==> !Resets(turn[k], sealed, id) {
      forall j | 0 <= j < |turn| && Spoken(turn[j], sealed, id) ensures j == i {
        assert Standing(turn, sealed, id, j);
      }
    }
  }

  function Quiet(m: Message): Input {
    Input(m, Reaction(false, None))
  }

  function SplitText(): seq<Input> {
    [Quiet(User(Some("p"))),
     Quiet(Assistant(None, Some("A"), "x", None, Some(5))),
     Quiet(Assistant(None, Some("B"), "y", None, Some(5))),
     Quiet(Assistant(None, Some("A"), "z", None, None)),
     Quiet(Result(false, Fatal, 1, None, "", None))]
  }

  lemma RunNext(start: Session, inputs: seq<Input>, input: Input)
    requires Run(start, inputs).status == Open
    ensures Run(start, inputs + [input]) == Advance(Run(start, inputs), input)
  {
    assert (inputs + [input])[..|inputs|] == inputs;
  }

  lemma QuietStep(t: Trace, m: Message, s: Session)
    requires Begin(t.session, m).Continue? && Begin(t.session, m).rest.NothingMore? && Begin(t.session, m).session == s
    ensures Advance(t, Quiet(m)).status == Open && Advance(t, Quiet(m)).session == s
  {
    hide Begin, Ledger.OutputTokens;
  }

  /** The session after some envelopes, none of them ambiguous. */
  function Retaining(id: MessageId, text: string, counts: map<MessageId, nat>): Session {
    Session(Ledger({}, counts, 0), map[], false, None, Some(Retained(id, text)), false)
  }

  lemma EnvelopeStep(s: Session, m: Message, id: MessageId, text: string, counts: map<MessageId, nat>)
    requires m.Assistant? && m.parent.None? && m.messageId == Some(id) && m.text == text && m.failure.None?
    requires s.ledger == Ledger({}, s.ledger.messages, 0) && s.streams == map[] && !s.interrupted && s.pending.None?
    requires s.last.None? || s.last.value.id != id
    requires m.usage.None? ==> counts == s.ledger.messages
    requires m.usage.Some? ==>
      m.usage.value >= 0 && id !in s.ledger.messages && counts == s.ledger.messages[id := m.usage.value]
    ensures Begin(s, m).Continue? && Begin(s, m).rest.NothingMore? && Begin(s, m).session == Retaining(id, text, counts)
  {
    hide Ledger.OutputTokens, Blank;
  }

  lemma LastStep(t: Trace, counts: map<MessageId, nat>)
    requires t.session == Retaining("A", "z", counts) && "A" in counts && counts["A"] > 0
    ensures var m := Result(false, Fatal, 1, None, "", None);
      && ClosesTurn(t.session, m)
      && var after := Advance(t, Quiet(m));
         && after.status == Ended && after.events != []
         && after.events[|after.events| - 1].Completed? && after.events[|after.events| - 1].text == "z"
  {
    EmptyIsBlank();
    SumWithout(counts, "A");
    assert !IsSpace("z"[0]);
  }

  /** Split text can be handed on: response A speaks twice with response B between, and the run
      completes with the second part. */
  lemma SplitTextExample()
    ensures var start := Started({}, "p"); var t := Run(start, SplitText());
      && t.status == Ended && t.events != [] && t.events[|t.events| - 1].Completed?
        && t.events[|t.events| - 1].text == "z"
      && Turn(start, SplitText()[..4]) == Messages(SplitText()[..4])
      && Spoken(SplitText()[1].message, {}, "A") && Spoken(SplitText()[3].message, {}, "A")
  {
    hide Run, Begin, Advance, Retaining, Ledger.OutputTokens, Turn, ClosesTurn;
    var start, all := Started({}, "p"), SplitText();
    assert !IsSpace("x"[0]) && !IsSpace("z"[0]);
    AfterPrompt();
    AfterEnvelopes();
    LastStep(Run(start, all[..4]), map["A" := 5, "B" := 5]);
    RunNext(start, all[..4], all[4]);
    assert all[..4] + [all[4]] == all;
  }

  lemma AfterPrompt()
    ensures var start, all := Started({}, "p"), SplitText();
      && Run(start, all[..1]).status == Open && Run(start, all[..1]).session == start.(pending := None)
      && Turn(start, all[..1]) == Messages(all[..1])
  {
    hide Turn;
    var start, all := Started({}, "p"), SplitText();
    assert all[..0] == [] && all[..1] == [all[0]] && all[..1][..0] == [];
    RunNext(start, [], all[0]);
    QuietStep(Run(start, []), all[0].message, start.(pending := None));
    TurnNext(start, all[..1]);
    assert Turn(start, []) == Messages([]) by { NoTurn(start); }
  }

  lemma NoTurn(start: Session)
    ensures Turn(start, []) == Messages([])
  {
  }

  /** One more envelope in an open run whose whole input is still one turn. */
  lemma OneMoreEnvelope(n: nat, id: MessageId, text: string, counts: map<MessageId, nat>)
    requires n < 4
    requires var start, all := Started({}, "p"), SplitText(); var t := Run(start, all[..n]);
      && t.status == Open && Turn(start, all[..n]) == Messages(all[..n])
      && var m := all[n].message;
         Begin(t.session, m).Continue? && Begin(t.session, m).rest.NothingMore?
           && Begin(t.session, m).session == Retaining(id, text, counts)
    ensures var start, all := Started({}, "p"), SplitText();
      && Run(start, all[..n + 1]).status == Open && Run(start, all[..n + 1]).session == Retaining(id, text, counts)
      && Turn(start, all[..n + 1]) == Messages(all[..n + 1])
  {
    hide Run, Begin, Turn, Retaining, Advance;
    var start, all := Started({}, "p"), SplitText();
    assert all[..n + 1] == all[..n] + [all[n]] && all[..n + 1][..n] == all[..n];
    RunNext(start, all[..n], all[n]);
    QuietStep(Run(start, all[..n]), all[n].message, Retaining(id, text, counts));
    TurnNext(start, all[..n + 1]);
    assert Messages(all[..n + 1]) == Messages(all[..n]) + [all[n].message];
  }

  lemma AfterEnvelopes()
    requires var start, all := Started({}, "p"), SplitText();
      && Run(start, all[..1]).status == Open && Run(start, all[..1]).session == start.(pending := None)
      && Turn(start, all[..1]) == Messages(all[..1])
    ensures var start, all := Started({}, "p"), SplitText();
      && Run(start, all[..4]).status == Open
        && Run(start, all[..4]).session == Retaining("A", "z", map["A" := 5, "B" := 5])
      && Turn(start, all[..4]) == Messages(all[..4])
  {
    hide Run, Begin, Turn, Blank;
    var start, all := Started({}, "p"), SplitText();
    EnvelopeStep(start.(pending := None), all[1].message, "A", "x", map["A" := 5]);
    OneMoreEnvelope(1, "A", "x", map["A" := 5]);
    EnvelopeStep(Retaining("A", "x", map["A" := 5]), all[2].message, "B", "y", map["A" := 5, "B" := 5]);
    OneMoreEnvelope(2, "B", "y", map["A" := 5, "B" := 5]);
    EnvelopeStep(Retaining("B", "y", map["A" := 5, "B" := 5]), all[3].message, "A", "z", map["A" := 5, "B" := 5]);
    OneMoreEnvelope(3, "A", "z", map["A" := 5, "B" := 5]);
  }
}

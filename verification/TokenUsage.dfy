/** Output-token accounting by message identity. Snapshots of a message only ever raise its count;
    a finished turn charges the larger of what was observed and what was reported, and seals its
    message identities so that replays on later connections cost nothing. */
module TokenUsage {

  type MessageId = string

  // ----- sums over a map of counts

  ghost function SumValues(counts: map<MessageId, nat>): nat
    decreases |counts|
  {
    if counts == map[] then 0
    else
      var id :| id in counts;
      counts[id] + SumValues(counts - {id})
  }

  /** Any entry may be taken out first. */
  lemma {:induction false} SumWithout(counts: map<MessageId, nat>, id: MessageId)
    requires id in counts
    ensures SumValues(counts) == counts[id] + SumValues(counts - {id})
    decreases |counts|
  {
    var first :| first in counts && SumValues(counts) == counts[first] + SumValues(counts - {first});
    if first != id {
      SumWithout(counts - {first}, id);
      SumWithout(counts - {id}, first);
      assert counts - {first} - {id} == counts - {id} - {first};
    }
  }

  lemma SumUpdate(counts: map<MessageId, nat>, id: MessageId, tokens: nat)
    ensures SumValues(counts[id := tokens]) == SumValues(counts) - (if id in counts then counts[id] else 0) + tokens
  {
    SumWithout(counts[id := tokens], id);
    if id in counts {
      SumWithout(counts, id);
      assert counts[id := tokens] - {id} == counts - {id};
    } else {
      assert counts[id := tokens] - {id} == counts;
    }
  }

  // ----- the ledger

  function Max(x: nat, y: nat): nat {
    if x >= y then x else y
  }

  /** The identities sealed by finished turns, the current turn's counts and the finished total. */
  datatype Ledger = Ledger(sealed: set<MessageId>, messages: map<MessageId, nat>, completed: nat) {
    ghost function TurnTokens(): nat {
      SumValues(messages)
    }

    ghost function OutputTokens(): nat {
      completed + TurnTokens()
    }

    function MessageTokens(id: MessageId): nat {
      if id in messages then messages[id] else 0
    }

    function Update(id: MessageId, tokens: nat): Ledger {
      if id in sealed then this else this.(messages := messages[id := Max(MessageTokens(id), tokens)])
    }

    ghost function Finalize(reported: nat): Ledger {
      Ledger(sealed + messages.Keys, map[], completed + Max(TurnTokens(), reported))
    }

    /** Neither a snapshot nor a turn result can lower the total. */
    lemma Monotone(id: MessageId, tokens: nat)
      ensures OutputTokens() <= Update(id, tokens).OutputTokens()
      ensures OutputTokens() <= Finalize(tokens).OutputTokens()
    {
      SumUpdate(messages, id, Max(MessageTokens(id), tokens));
      assert SumValues(map[]) == 0;
    }
  }

  /** The set of sealed identities, shared by every ledger of one checkpointed conversation. */
  class SealedIds {
    var ids: set<MessageId>

    constructor (ids: set<MessageId>)
      ensures this.ids == ids
    {
      this.ids := ids;
    }
  }

  class TokenUsage {
    const sealed: SealedIds
    var messageTokens: map<MessageId, nat>
    var completedTokens: nat

    constructor (sealed: SealedIds)
      ensures this.sealed == sealed && Value() == Ledger(sealed.ids, map[], 0)
    {
      this.sealed := sealed;
      messageTokens := map[];
      completedTokens := 0;
    }

    function Value(): Ledger
      reads this, sealed
    {
      Ledger(sealed.ids, messageTokens, completedTokens)
    }

    method TurnOutputTokens() returns (total: nat)
      ensures total == Value().TurnTokens()
    {
      var rest := messageTokens;
      total := 0;
      while rest != map[]
        invariant total + SumValues(rest) == SumValues(messageTokens)
        decreases |rest|
      {
        var id :| id in rest;
        SumWithout(rest, id);
        total := total + rest[id];
        rest := rest - {id};
      }
    }

    method OutputTokens() returns (total: nat)
      ensures total == Value().OutputTokens()
    {
      var turn := TurnOutputTokens();
      total := completedTokens + turn;
    }

    /** A negative count is an error and leaves the ledger as it is. */
    method UpdateMessageTokens(id: MessageId, tokens: int) returns (accepted: bool)
      modifies this
      ensures accepted <==> tokens >= 0
      ensures Value() == if accepted then old(Value()).Update(id, tokens) else old(Value())
    {
      if tokens < 0 { return false; }
      accepted := true;
      if id !in sealed.ids {
        var previous := if id in messageTokens then messageTokens[id] else 0;
        messageTokens := messageTokens[id := Max(previous, tokens)];
      }
    }

    method FinalizeTurnUsage(reported: int) returns (accepted: bool)
      modifies this, sealed
      ensures accepted <==> reported >= 0
      ensures Value() == if accepted then old(Value()).Finalize(reported) else old(Value())
    {
      if reported < 0 { return false; }
      accepted := true;
      var turn := TurnOutputTokens();
      completedTokens := completedTokens + Max(turn, reported);
      sealed.ids := sealed.ids + messageTokens.Keys;
      messageTokens := map[];
    }
  }

  // ----- runs of whole turns

  datatype Snapshot = Snapshot(id: MessageId, tokens: nat)
  datatype Turn = Turn(snapshots: seq<Snapshot>, reported: nat)

  function Observe(ledger: Ledger, snapshots: seq<Snapshot>): Ledger {
    if snapshots == [] then ledger
    else
      var last := snapshots[|snapshots| - 1];
      Observe(ledger, snapshots[..|snapshots| - 1]).Update(last.id, last.tokens)
  }

  ghost function PlayTurns(ledger: Ledger, turns: seq<Turn>): Ledger {
    if turns == [] then ledger
    else
      var last := turns[|turns| - 1];
      Observe(PlayTurns(ledger, turns[..|turns| - 1]), last.snapshots).Finalize(last.reported)
  }

  // ----- what the ledger should say

  function Ids(snapshots: seq<Snapshot>): set<MessageId> {
    set s | s in snapshots :: s.id
  }

  /** `tokens` is the largest count among the snapshots of `id`. */
  ghost predicate IsLargest(snapshots: seq<Snapshot>, id: MessageId, tokens: nat) {
    && Snapshot(id, tokens) in snapshots
    && forall s :: s in snapshots && s.id == id ==> s.tokens <= tokens
  }

  /** The counts of the identities not sealed before the turn: each its largest snapshot. */
  ghost predicate AreFreshCounts(counts: map<MessageId, nat>, sealed: set<MessageId>, snapshots: seq<Snapshot>) {
    && counts.Keys == Ids(snapshots) - sealed
    && forall id :: id in counts ==> IsLargest(snapshots, id, counts[id])
  }

  /** The counts depend on the snapshots only as a set: order and duplication are irrelevant. */
  lemma FreshCountsUnique(a: map<MessageId, nat>, b: map<MessageId, nat>, sealed: set<MessageId>,
                          s: seq<Snapshot>, t: seq<Snapshot>)
    requires AreFreshCounts(a, sealed, s) && AreFreshCounts(b, sealed, t)
    requires forall x :: x in s <==> x in t
    ensures a == b
  {
    assert Ids(s) == Ids(t);
    forall id | id in a ensures a[id] == b[id] {
      assert IsLargest(s, id, a[id]) && IsLargest(t, id, b[id]);
      assert Snapshot(id, a[id]) in t && Snapshot(id, b[id]) in s;
    }
  }

  /** Observing snapshots in any order keeps the largest one of every fresh identity. */
  lemma {:induction false} ObserveKeepsLargest(ledger: Ledger, snapshots: seq<Snapshot>)
    requires ledger.messages == map[]
    ensures var after := Observe(ledger, snapshots);
      && AreFreshCounts(after.messages, ledger.sealed, snapshots)
      && after.sealed == ledger.sealed && after.completed == ledger.completed
  {
    if snapshots != [] {
      var rest, last := snapshots[..|snapshots| - 1], snapshots[|snapshots| - 1];
      ObserveKeepsLargest(ledger, rest);
      assert snapshots == rest + [last];
      var before, after := Observe(ledger, rest), Observe(ledger, snapshots);
      assert Ids(snapshots) == Ids(rest) + {last.id};
      forall id | id in after.messages ensures IsLargest(snapshots, id, after.messages[id]) {
        if id == last.id {
          assert id in before.messages ==> IsLargest(rest, id, before.messages[id]);
          if id !in before.messages { assert id !in Ids(rest); }
        } else {
          assert IsLargest(rest, id, before.messages[id]);
        }
      }
    }
  }

  /** The counts a turn charges when it starts from these sealed identities. */
  ghost function FreshCounts(sealed: set<MessageId>, snapshots: seq<Snapshot>): (counts: map<MessageId, nat>)
    ensures AreFreshCounts(counts, sealed, snapshots)
  {
    ObserveKeepsLargest(Ledger(sealed, map[], 0), snapshots);
    Observe(Ledger(sealed, map[], 0), snapshots).messages
  }

  /** What one turn costs. */
  ghost function Charge(sealed: set<MessageId>, turn: Turn): nat {
    Max(SumValues(FreshCounts(sealed, turn.snapshots)), turn.reported)
  }

  /** Every identity met in the turns. */
  function SealedAfter(sealed: set<MessageId>, turns: seq<Turn>): set<MessageId> {
    if turns == [] then sealed
    else SealedAfter(sealed, turns[..|turns| - 1]) + Ids(turns[|turns| - 1].snapshots)
  }

  ghost function TotalCharge(sealed: set<MessageId>, turns: seq<Turn>): nat {
    if turns == [] then 0
    else
      var rest := turns[..|turns| - 1];
      TotalCharge(sealed, rest) + Charge(SealedAfter(sealed, rest), turns[|turns| - 1])
  }

  lemma {:induction false} PlayedLedger(sealed: set<MessageId>, turns: seq<Turn>)
    ensures var after := PlayTurns(Ledger(sealed, map[], 0), turns);
      && after.messages == map[] && after.sealed == SealedAfter(sealed, turns)
      && after.completed == TotalCharge(sealed, turns)
  {
    if turns != [] {
      var rest, last := turns[..|turns| - 1], turns[|turns| - 1];
      PlayedLedger(sealed, rest);
      var before := PlayTurns(Ledger(sealed, map[], 0), rest);
      ObserveKeepsLargest(before, last.snapshots);
      var counts := Observe(before, last.snapshots).messages;
      FreshCountsUnique(counts, FreshCounts(before.sealed, last.snapshots), before.sealed, last.snapshots,
                        last.snapshots);
    }
  }

  /** The ledger refines a simple sum: after any finished turns and any further snapshots, the total
      is, over the turns, the larger of the reported count and the sum over fresh identities of
      their largest snapshot, plus that sum for the open turn. */
  lemma LedgerIsSum(sealed: set<MessageId>, turns: seq<Turn>, open: seq<Snapshot>)
    ensures Observe(PlayTurns(Ledger(sealed, map[], 0), turns), open).OutputTokens()
         == TotalCharge(sealed, turns) + SumValues(FreshCounts(SealedAfter(sealed, turns), open))
  {
    PlayedLedger(sealed, turns);
    var before := PlayTurns(Ledger(sealed, map[], 0), turns);
    ObserveKeepsLargest(before, open);
    FreshCountsUnique(Observe(before, open).messages, FreshCounts(before.sealed, open), before.sealed, open, open);
  }

  /** Reordering or repeating the snapshots of a turn changes neither its cost nor what it seals. */
  lemma OrderIndependent(sealed: set<MessageId>, s: seq<Snapshot>, t: seq<Snapshot>, reported: nat)
    requires forall x :: x in s <==> x in t
    ensures Charge(sealed, Turn(s, reported)) == Charge(sealed, Turn(t, reported))
    ensures SealedAfter(sealed, [Turn(s, reported)]) == SealedAfter(sealed, [Turn(t, reported)])
  {
    FreshCountsUnique(FreshCounts(sealed, s), FreshCounts(sealed, t), sealed, s, t);
    assert Ids(s) == Ids(t);
    assert [Turn(s, reported)][..0] == [] && [Turn(t, reported)][..0] == [];
  }

  lemma {:induction false} SealedGrows(sealed: set<MessageId>, turns: seq<Turn>, i: nat)
    requires i <= |turns|
    ensures SealedAfter(sealed, turns[..i]) <= SealedAfter(sealed, turns)
    decreases |turns|
  {
    if i < |turns| {
      var rest := turns[..|turns| - 1];
      SealedGrows(sealed, rest, i);
      assert rest[..i] == turns[..i];
    } else {
      assert turns[..i] == turns;
    }
  }

  /** Across all ledgers that share the sealed set, no identity is charged in two finished turns. */
  lemma ChargedOnce(sealed: set<MessageId>, turns: seq<Turn>, i: nat, j: nat)
    requires i < j < |turns|
    ensures FreshCounts(SealedAfter(sealed, turns[..i]), turns[i].snapshots).Keys
         !! FreshCounts(SealedAfter(sealed, turns[..j]), turns[j].snapshots).Keys
  {
    SealedGrows(sealed, turns[..j], i + 1);
    assert turns[..j][..i + 1] == turns[..i + 1];
    assert turns[..i + 1][..i] == turns[..i];
    assert Ids(turns[i].snapshots) <= SealedAfter(sealed, turns[..i + 1]);
  }
}

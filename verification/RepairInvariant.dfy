/**
 The invariant both repaired flows keep, and how a runtime state represents a ledger.
 */
module RepairInvariant {
  import opened Wrappers
  import opened Settlement
  import opened Journal
  import opened Ledger

  // Exactly once, on the side of intake: a command occurrence has at most one journal row.
  ghost predicate OneRowPerOccurrence(journal: seq<JournalRow>) {
    forall i, k :: 0 <= i < k < |journal| ==> journal[i].Pair() != journal[k].Pair()
  }

  // Exactly once, on the side of delivery: an event has at most one effect under a logical key.
  ghost predicate OneEffectPerKey(effects: seq<EffectRow>) {
    forall i, k :: 0 <= i < k < |effects| ==>
      !(effects[i].sourceEvent == effects[k].sourceEvent && effects[i].logicalKey == effects[k].logicalKey)
  }

  ghost predicate EffectsSound(effects: seq<EffectRow>, journal: seq<JournalRow>, now: nat) {
    && (forall i :: 0 <= i < |effects| ==> effects[i].amount == EFFECT_AMOUNT && effects[i].committedTick <= now)
    && (forall i :: 0 <= i < |effects| && effects[i].effectId.EffectId? ==> effects[i].effectId.tick == effects[i].committedTick)
    && (forall i :: 0 <= i < |effects| ==> RowOf(journal, effects[i].sourceEvent).Some?)
  }

  // The order of the table is the order of commit ticks, which every query sorts by.
  ghost predicate EffectsOrdered(effects: seq<EffectRow>) {
    forall i, k :: 0 <= i < k < |effects| ==> effects[i].committedTick < effects[k].committedTick
  }

  ghost predicate OneIntentPerKey(intents: seq<IntentRow>) {
    forall i, k :: 0 <= i < k < |intents| ==>
      !(intents[i].sourceEvent == intents[k].sourceEvent && intents[i].logicalKey == intents[k].logicalKey)
  }

  ghost predicate EffectNamed(effects: seq<EffectRow>, id: EffectId, event: EventId, key: string) {
    exists i :: 0 <= i < |effects| && effects[i].effectId == id && effects[i].sourceEvent == event && effects[i].logicalKey == key
  }

  // A completed intent names an existing effect of its own event and key.
  ghost predicate IntentsSound(intents: seq<IntentRow>, effects: seq<EffectRow>, now: nat) {
    && (forall i :: 0 <= i < |intents| ==>
          && intents[i].intentId.event == intents[i].sourceEvent
          && intents[i].intentId.logicalKey == intents[i].logicalKey
          && intents[i].intentId.tick <= now)
    && (forall i :: 0 <= i < |intents| && intents[i].completed ==>
          && intents[i].effectId.Some?
          && EffectNamed(effects, intents[i].effectId.value, intents[i].sourceEvent, intents[i].logicalKey))
  }

  ghost predicate KeysSound(keys: map<(string, string), EventId>, journal: seq<JournalRow>) {
    forall p :: p in keys ==> FirstRow(journal, p).Some? && FirstRow(journal, p).value.eventId == keys[p]
  }

  ghost predicate AttemptsSound(attempts: map<EventId, nat>, journal: seq<JournalRow>) {
    forall id :: id in attempts ==> RowOf(journal, id).Some?
  }

  ghost predicate JournalPart(s: State) {
    && Consistent(s.tables.journal, s.tick)
    && OneRowPerOccurrence(s.tables.journal)
    && KeysSound(s.tables.commandKeys, s.tables.journal)
    && AttemptsSound(s.attempts, s.tables.journal)
  }

  ghost predicate EffectPart(s: State) {
    && EffectsSound(s.tables.effects, s.tables.journal, s.tick)
    && EffectsOrdered(s.tables.effects)
    && OneEffectPerKey(s.tables.effects)
  }

  ghost predicate IntentPart(s: State) {
    && IntentsSound(s.tables.intents, s.tables.effects, s.tick)
    && OneIntentPerKey(s.tables.intents)
  }

  ghost predicate Inv(s: State) {
    JournalPart(s) && EffectPart(s) && IntentPart(s)
  }

  ghost predicate SettledIn(l: Ledger, journal: seq<JournalRow>, effects: seq<EffectRow>) {
    && (forall x :: x in l.settled ==> x.0 < |journal|)
    && (forall i, key :: 0 <= i < |journal| ==>
          ((i, key) in l.settled <==> EffectByKey(effects, journal[i].eventId, key).Some?))
  }

  ghost predicate Represents(l: Ledger, s: State) {
    var j := s.tables.journal;
    && |l.accepted| == |j| == |l.attempts|
    && (forall i :: 0 <= i < |j| ==> l.accepted[i] == Accepted(j[i].Pair(), j[i].payload))
    && (forall i :: 0 <= i < |j| ==> l.attempts[i] == Attempts(s, j[i].eventId))
    && SettledIn(l, j, s.tables.effects)
    && l.registered == s.tables.commandKeys.Keys
    && l.cursor == s.tables.cursor
    && l.faults == s.faults
  }

  /** A state represents one ledger only. */
  lemma LedgerIsUnique(l: Ledger, m: Ledger, s: State)
    requires Represents(l, s) && Represents(m, s)
    ensures l == m
  {
    assert l.accepted == m.accepted && l.attempts == m.attempts;
    forall x ensures x in l.settled <==> x in m.settled {
      var (i, key) := x;
      if i < |s.tables.journal| {
        assert (i, key) in l.settled <==> EffectByKey(s.tables.effects, s.tables.journal[i].eventId, key).Some?;
      }
    }
    assert l.settled == m.settled;
  }

  // ---------------------------------------------------------------- lookups

  lemma {:induction false} RowOfAt(journal: seq<JournalRow>, i: nat)
    requires IdsDistinct(journal) && i < |journal|
    ensures RowOf(journal, journal[i].eventId) == Some(journal[i])
  {
    if i < |journal| - 1 {
      assert journal[..|journal| - 1][i] == journal[i];
      RowOfAt(journal[..|journal| - 1], i);
    }
  }

  lemma {:induction false} FirstRowAt(journal: seq<JournalRow>, i: nat)
    requires OneRowPerOccurrence(journal) && i < |journal|
    ensures FirstRow(journal, journal[i].Pair()) == Some(journal[i])
  {
    if i < |journal| - 1 {
      assert journal[..|journal| - 1][i] == journal[i];
      FirstRowAt(journal[..|journal| - 1], i);
    }
  }

  lemma RowOfAppend(journal: seq<JournalRow>, row: JournalRow, id: EventId)
    ensures RowOf(journal + [row], id) ==
      (if RowOf(journal, id).Some? then RowOf(journal, id) else if row.eventId == id then Some(row) else None)
  {
    assert (journal + [row])[..|journal|] == journal;
  }

  lemma FirstRowAppend(journal: seq<JournalRow>, row: JournalRow, pair: (string, string))
    ensures FirstRow(journal + [row], pair) ==
      (if FirstRow(journal, pair).Some? then FirstRow(journal, pair) else if row.Pair() == pair then Some(row) else None)
  {
    assert (journal + [row])[..|journal|] == journal;
  }

  lemma EffectByKeyAppend(effects: seq<EffectRow>, row: EffectRow, id: EventId, key: string)
    ensures EffectByKey(effects + [row], id, key) ==
      (if EffectByKey(effects, id, key).Some? then EffectByKey(effects, id, key)
       else if row.sourceEvent == id && row.logicalKey == key then Some(row) else None)
  {
    assert (effects + [row])[..|effects|] == effects;
  }
}

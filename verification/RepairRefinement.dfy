/**
 Both repaired flows implement the ledger.

 Each lemma takes a state that satisfies the invariant and represents a ledger, and shows that one
 store call, then one flow stage, then one engine call leads to a state that satisfies the invariant
 and represents the ledger of the corresponding abstract step.
 */
module RepairRefinement {
  import opened Wrappers
  import opened Settlement
  import opened Journal
  import opened Flows
  import opened Ledger
  import opened RepairInvariant

  ghost predicate Simulates(l: Ledger, s: State) { Inv(s) && Represents(l, s) }

  // ---------------------------------------------------------------- store calls

  lemma TickKeeps(l: Ledger, s: State)
    requires Simulates(l, s)
    ensures Simulates(l, Tick(s))
  {
    hide FirstRow, RowOf, EffectByKey;
  }

  lemma IndexIsFirstRow(l: Ledger, s: State, pair: (string, string))
    requires Simulates(l, s)
    ensures var i := IndexOf(l.accepted, pair);
      && (i < |l.accepted| ==> FirstRow(s.tables.journal, pair) == Some(s.tables.journal[i]))
      && (i == |l.accepted| ==> FirstRow(s.tables.journal, pair) == None)
  {
    var i := IndexOf(l.accepted, pair);
    if i < |l.accepted| {
      FirstRowAt(s.tables.journal, i);
    } else {
      forall row | row in s.tables.journal ensures row.Pair() != pair {
        var k :| 0 <= k < |s.tables.journal| && s.tables.journal[k] == row;
        assert l.accepted[k].pair == row.Pair();
      }
    }
  }

  function Admitted(l: Ledger, c: Command): Ledger {
    l.(accepted := l.accepted + [Accepted(c.Pair(), PayloadHash(c))], attempts := l.attempts + [0],
       faults := l.faults.(s2Cutpoint := false))
  }

  lemma AppendKeepsJournalPart(l: Ledger, s: State, c: Command)
    requires Simulates(l, s) && FirstRow(s.tables.journal, c.Pair()) == None
    ensures JournalPart(Append(s, c).state)
  {
    hide FirstRow, RowOf, EffectByKey, Append;
    AppendAddsNextRow(s, c);
    NewRowKeepsConsistent(s, c);
    forall p | p in s.tables.commandKeys
      ensures FirstRow(s.tables.journal + [NewRow(s, c)], p) == FirstRow(s.tables.journal, p)
    {
      FirstRowAppend(s.tables.journal, NewRow(s, c), p);
    }
    forall id | id in s.attempts
      ensures RowOf(s.tables.journal + [NewRow(s, c)], id).Some?
    {
      RowOfAppend(s.tables.journal, NewRow(s, c), id);
    }
  }

  lemma NewEventIsUnknown(l: Ledger, s: State, id: EventId)
    requires Inv(s) && RowOf(s.tables.journal, id) == None
    ensures id !in s.attempts
    ensures forall key :: EffectByKey(s.tables.effects, id, key) == None
  {
    forall key ensures EffectByKey(s.tables.effects, id, key) == None {
      var r := EffectByKey(s.tables.effects, id, key);
    }
  }

  lemma AppendAdmits(l: Ledger, s: State, c: Command)
    requires Simulates(l, s) && FirstRow(s.tables.journal, c.Pair()) == None
    ensures Simulates(Admitted(l, c), Append(s, c).state)
    ensures Append(s, c).out == (if s.faults.s2Cutpoint then CutAt(NewRow(s, c).eventId) else Returned(NewRow(s, c).eventId))
    ensures Append(s, c).state.tables.journal == s.tables.journal + [NewRow(s, c)]
  {
    hide FirstRow, RowOf, EffectByKey, Append;
    AppendAddsNextRow(s, c);
    AppendKeepsJournalPart(l, s, c);
    var row := NewRow(s, c);
    var s' := Append(s, c).state;
    RowOfFresh(s.tables.journal, s.tick, row.eventId);
    NewEventIsUnknown(l, s, row.eventId);
    forall i | 0 <= i < |s.tables.effects|
      ensures RowOf(s'.tables.journal, s.tables.effects[i].sourceEvent).Some?
    {
      RowOfAppend(s.tables.journal, row, s.tables.effects[i].sourceEvent);
    }
    assert SettledIn(Admitted(l, c), s'.tables.journal, s'.tables.effects);
  }

  lemma BindKeepsKeysSound(keys: map<(string, string), EventId>, journal: seq<JournalRow>, i: nat)
    requires KeysSound(keys, journal) && OneRowPerOccurrence(journal) && i < |journal|
    ensures KeysSound(keys[journal[i].Pair() := journal[i].eventId], journal)
  {
    FirstRowAt(journal, i);
  }

  lemma BindKeeps(l: Ledger, s: State, i: nat)
    requires Simulates(l, s) && i < |s.tables.journal|
    ensures var row := s.tables.journal[i];
      Simulates(l.(registered := l.registered + {row.Pair()}),
                s.(tables := s.tables.(commandKeys := s.tables.commandKeys[row.Pair() := row.eventId])))
  {
    hide EffectByKey, RowOf, FirstRow, Consistent;
    var row := s.tables.journal[i];
    BindKeepsKeysSound(s.tables.commandKeys, s.tables.journal, i);
    assert s.tables.commandKeys[row.Pair() := row.eventId].Keys == l.registered + {row.Pair()};
  }

  lemma RegisterKeeps(l: Ledger, s: State, c: Command, i: nat)
    requires Simulates(l, s) && i < |s.tables.journal|
    requires s.tables.journal[i].Pair() == c.Pair() && s.tables.journal[i].payload == PayloadHash(c)
    ensures var r := Register(s, c, s.tables.journal[i].eventId);
      && r.out == Returned(())
      && r.state.tables.journal == s.tables.journal
      && Simulates(l.(registered := l.registered + {c.Pair()}), r.state)
  {
    hide Represents, EffectPart, IntentPart, Consistent;
    FirstRowAt(s.tables.journal, i);
    TickKeeps(l, s);
    BindKeeps(l, Tick(s), i);
  }

  lemma RegisterRefuses(l: Ledger, s: State, c: Command, i: nat)
    requires Simulates(l, s) && i < |s.tables.journal|
    requires s.tables.journal[i].Pair() == c.Pair() && s.tables.journal[i].payload != PayloadHash(c)
    ensures Register(s, c, s.tables.journal[i].eventId) == Result(Tick(s), Refused)
  {
    FirstRowAt(s.tables.journal, i);
  }

  // ---------------------------------------------------------------- settling

  // The event that s4 loads from journal row i, asked to settle under a key.
  ghost predicate IsEvent(e: Event, s: State, i: nat, key: string) {
    && i < |s.tables.journal|
    && e == Event(s.tables.journal[i].eventId, s.tables.journal[i].commandKey, s.tables.journal[i].occurrenceId, key)
  }

  function NewEffect(s: State, e: Event): EffectRow {
    EffectRow(EffectId(e.eventId, e.occurrenceId, e.logicalKey, s.tick + 1, s.workloadId),
              e.occurrenceId, EFFECT_AMOUNT, e.logicalKey, e.eventId, s.tick + 1)
  }

  lemma CountAttempt(l: Ledger, s: State, i: nat)
    requires Simulates(l, s) && i < |s.tables.journal|
    ensures var id := s.tables.journal[i].eventId;
      Simulates(l.(attempts := l.attempts[i := l.attempts[i] + 1]), s.(attempts := s.attempts[id := Attempts(s, id) + 1]))
  {
    hide FirstRow, RowOf, EffectByKey;
    RowOfAt(s.tables.journal, i);
  }

  lemma DisarmTransient(l: Ledger, s: State)
    requires Simulates(l, s)
    ensures Simulates(l.(faults := l.faults.(transient := false)), s.(faults := s.faults.(transient := false)))
  {
    hide FirstRow, RowOf, EffectByKey;
  }

  lemma DisarmS5(l: Ledger, s: State)
    requires Simulates(l, s)
    ensures Simulates(l.(faults := l.faults.(s5Cutpoint := false)), s.(faults := s.faults.(s5Cutpoint := false)))
  {
    hide FirstRow, RowOf, EffectByKey;
  }

  lemma AddEffectKeepsSound(s: State, row: EffectRow)
    requires Inv(s)
    requires row.amount == EFFECT_AMOUNT && row.committedTick == s.tick + 1
    requires row.effectId.EffectId? && row.effectId.tick == s.tick + 1
    requires RowOf(s.tables.journal, row.sourceEvent).Some?
    requires EffectByKey(s.tables.effects, row.sourceEvent, row.logicalKey) == None
    ensures !HasEffectId(s.tables.effects, row.effectId)
    ensures EffectsSound(s.tables.effects + [row], s.tables.journal, s.tick + 1)
    ensures EffectsOrdered(s.tables.effects + [row])
    ensures OneEffectPerKey(s.tables.effects + [row])
  {
    hide FirstRow, RowOf, Consistent;
  }

  lemma AddEffectKeepsIntentsSound(intents: seq<IntentRow>, effects: seq<EffectRow>, now: nat, row: EffectRow)
    requires IntentsSound(intents, effects, now)
    ensures IntentsSound(intents, effects + [row], now + 1)
  {
    forall i | 0 <= i < |intents| && intents[i].completed
      ensures EffectNamed(effects + [row], intents[i].effectId.value, intents[i].sourceEvent, intents[i].logicalKey)
    {
      var k :| 0 <= k < |effects| && effects[k].effectId == intents[i].effectId.value
        && effects[k].sourceEvent == intents[i].sourceEvent && effects[k].logicalKey == intents[i].logicalKey;
      assert (effects + [row])[k] == effects[k];
    }
  }

  lemma AddEffectSettles(l: Ledger, journal: seq<JournalRow>, effects: seq<EffectRow>, i: nat, row: EffectRow)
    requires SettledIn(l, journal, effects) && IdsDistinct(journal)
    requires i < |journal| && row.sourceEvent == journal[i].eventId
    ensures SettledIn(l.(settled := l.settled + {(i, row.logicalKey)}), journal, effects + [row])
  {
    forall k, key | 0 <= k < |journal|
      ensures (k, key) in l.settled + {(i, row.logicalKey)} <==> EffectByKey(effects + [row], journal[k].eventId, key).Some?
    {
      EffectByKeyAppend(effects, row, journal[k].eventId, key);
    }
  }

  function WithEffect(s: State, row: EffectRow): State {
    Tick(s).(tables := s.tables.(effects := s.tables.effects + [row]))
  }

  lemma AddEffectKeeps(l: Ledger, s: State, i: nat, row: EffectRow)
    requires Simulates(l, s) && i < |s.tables.journal|
    requires row.amount == EFFECT_AMOUNT && row.committedTick == s.tick + 1
    requires row.effectId.EffectId? && row.effectId.tick == s.tick + 1
    requires row.sourceEvent == s.tables.journal[i].eventId && (i, row.logicalKey) !in l.settled
    ensures !HasEffectId(s.tables.effects, row.effectId)
    ensures Simulates(l.(settled := l.settled + {(i, row.logicalKey)}),
                      WithEffect(s, row))
  {
    hide FirstRow, RowOf, EffectByKey;
    RowOfAt(s.tables.journal, i);
    AddEffectKeepsSound(s, row);
    AddEffectKeepsIntentsSound(s.tables.intents, s.tables.effects, s.tick, row);
    AddEffectSettles(l, s.tables.journal, s.tables.effects, i, row);
    TickKeeps(l, s);
  }

  /** The first attempt under an armed transient fault commits nothing. */
  lemma SettleDefers(l: Ledger, s: State, i: nat, e: Event)
    requires Simulates(l, s) && IsEvent(e, s, i, e.logicalKey) && TransientFires(l, i, e.logicalKey)
    ensures Settle(s, e).out == TransientFault
    ensures Settle(s, e).state.tables == s.tables
    ensures Simulates(AfterTransient(l, i), Settle(s, e).state)
  {
    hide Inv, FirstRow, RowOf, EffectByKey;
    CountAttempt(l, s, i);
    var l1 := l.(attempts := l.attempts[i := l.attempts[i] + 1]);
    var s1 := s.(attempts := s.attempts[e.eventId := Attempts(s, e.eventId) + 1]);
    TickKeeps(l1, s1);
    DisarmTransient(l1, Tick(s1));
  }

  function Committed(s: State, e: Event): State {
    Tick(s).(attempts := s.attempts[e.eventId := Attempts(s, e.eventId) + 1],
             tables := s.tables.(effects := s.tables.effects + [NewEffect(s, e)]),
             faults := s.faults.(s5Cutpoint := false))
  }

  lemma CommittedParts(s: State, e: Event, s1: State)
    requires s1 == s.(attempts := s.attempts[e.eventId := Attempts(s, e.eventId) + 1])
    ensures var s2 := WithEffect(s1, NewEffect(s, e)); Committed(s, e) == s2.(faults := s2.faults.(s5Cutpoint := false))
  {
  }

  lemma SettleInserts(s: State, e: Event)
    requires !(s.faults.transient && Attempts(s, e.eventId) == 0)
    requires !HasEffectId(s.tables.effects, NewEffect(s, e).effectId)
    ensures Settle(s, e) == Result(Committed(s, e),
      if s.faults.s5Cutpoint then CutAt(e.eventId) else Returned(NewEffect(s, e).effectId))
  {
  }

  lemma CommittedRepresents(l: Ledger, s: State, i: nat, e: Event)
    requires Simulates(l, s) && IsEvent(e, s, i, e.logicalKey) && (i, e.logicalKey) !in l.settled
    ensures !HasEffectId(s.tables.effects, NewEffect(s, e).effectId)
    ensures Simulates(AfterSettling(l, i, e.logicalKey), Committed(s, e))
  {
    hide Inv, EffectByKey;
    CountAttempt(l, s, i);
    var l1 := l.(attempts := l.attempts[i := l.attempts[i] + 1]);
    var s1 := s.(attempts := s.attempts[e.eventId := Attempts(s, e.eventId) + 1]);
    AddEffectKeeps(l1, s1, i, NewEffect(s, e));
    var l2 := l1.(settled := l1.settled + {(i, e.logicalKey)});
    var s2 := WithEffect(s1, NewEffect(s, e));
    DisarmS5(l2, s2);
    CommittedParts(s, e, s1);
  }

  /** Otherwise a settlement of an unsettled pair adds its one effect. */
  lemma SettleCommits(l: Ledger, s: State, i: nat, e: Event)
    requires Simulates(l, s) && IsEvent(e, s, i, e.logicalKey)
    requires (i, e.logicalKey) !in l.settled && !TransientFires(l, i, e.logicalKey)
    ensures Settle(s, e) == Result(Committed(s, e),
      if s.faults.s5Cutpoint then CutAt(e.eventId) else Returned(NewEffect(s, e).effectId))
    ensures Simulates(AfterSettling(l, i, e.logicalKey), Settle(s, e).state)
  {
    CommittedRepresents(l, s, i, e);
    SettleInserts(s, e);
  }

  // ---------------------------------------------------------------- intents

  lemma AddIntentKeepsSound(intents: seq<IntentRow>, effects: seq<EffectRow>, now: nat, row: IntentRow)
    requires IntentsSound(intents, effects, now) && OneIntentPerKey(intents)
    requires LatestIntent(intents, row.sourceEvent, row.logicalKey) == None
    requires row.intentId.event == row.sourceEvent && row.intentId.logicalKey == row.logicalKey
    requires row.intentId.tick == now + 1 && !row.completed
    ensures !HasIntentId(intents, row.intentId)
    ensures IntentsSound(intents + [row], effects, now + 1) && OneIntentPerKey(intents + [row])
  {
  }

  lemma IntentCreateKeeps(l: Ledger, s: State, e: Event)
    requires Simulates(l, s) && LatestIntent(s.tables.intents, e.eventId, e.logicalKey) == None
    ensures var r := IntentCreate(s, e);
      && r.out.Returned? && r.out.value.event == e.eventId && r.out.value.logicalKey == e.logicalKey
      && r.state == Tick(s).(tables := s.tables.(intents := r.state.tables.intents))
      && Simulates(l, r.state)
  {
    hide FirstRow, RowOf, EffectByKey, LatestIntent, Consistent, IntentsSound;
    TickKeeps(l, s);
    var id := IntentId(e.eventId, e.commandKey, e.occurrenceId, e.logicalKey, s.tick + 1, s.workloadId);
    AddIntentKeepsSound(s.tables.intents, s.tables.effects, s.tick,
      IntentRow(id, e.eventId, e.commandKey, e.occurrenceId, e.logicalKey, s.tick + 1, false, None));
  }

  lemma CompleteRowsKeepsSound(intents: seq<IntentRow>, effects: seq<EffectRow>, now: nat, id: IntentId, effect: EffectId)
    requires IntentsSound(intents, effects, now) && OneIntentPerKey(intents)
    requires EffectNamed(effects, effect, id.event, id.logicalKey)
    ensures IntentsSound(CompleteRows(intents, id, effect), effects, now)
    ensures OneIntentPerKey(CompleteRows(intents, id, effect))
  {
  }

  lemma IntentCompleteKeeps(l: Ledger, s: State, id: IntentId, effect: EffectId)
    requires Simulates(l, s) && EffectNamed(s.tables.effects, effect, id.event, id.logicalKey)
    ensures Simulates(l, IntentComplete(s, id, effect))
  {
    hide FirstRow, RowOf, EffectByKey, Consistent;
    TickKeeps(l, s);
    CompleteRowsKeepsSound(s.tables.intents, s.tables.effects, s.tick, id, effect);
  }

  // ---------------------------------------------------------------- s5

  lemma SettledMeansEffect(l: Ledger, s: State, i: nat, e: Event)
    requires Simulates(l, s) && IsEvent(e, s, i, e.logicalKey)
    ensures (i, e.logicalKey) in l.settled <==> EffectByKey(s.tables.effects, e.eventId, e.logicalKey).Some?
  {
  }

  /** The outbox return "completed, but no effect" is unreachable: a completed intent has its effect. */
  lemma CompletedIntentHasEffect(s: State, id: EventId, key: string)
    requires Inv(s)
    requires LatestIntent(s.tables.intents, id, key).Some? && LatestIntent(s.tables.intents, id, key).value.completed
    ensures EffectByKey(s.tables.effects, id, key).Some?
  {
    var intent := LatestIntent(s.tables.intents, id, key).value;
    var k :| 0 <= k < |s.tables.intents| && s.tables.intents[k] == intent;
    var n :| 0 <= n < |s.tables.effects| && s.tables.effects[n].effectId == intent.effectId.value
      && s.tables.effects[n].sourceEvent == intent.sourceEvent && s.tables.effects[n].logicalKey == intent.logicalKey;
    assert s.tables.effects[n] in s.tables.effects;
  }

  lemma IntentOwnsItsId(s: State, id: EventId, key: string)
    requires Inv(s) && LatestIntent(s.tables.intents, id, key).Some?
    ensures var i := LatestIntent(s.tables.intents, id, key).value; i.intentId.event == id && i.intentId.logicalKey == key
  {
  }

  lemma FoundEffectIsNamed(effects: seq<EffectRow>, id: EventId, key: string)
    requires EffectByKey(effects, id, key).Some?
    ensures EffectNamed(effects, EffectByKey(effects, id, key).value.effectId, id, key)
  {
  }

  // What one s5 call of a repaired flow achieves.
  ghost predicate Emits(l: Ledger, s: State, i: nat, e: Event, r: Result<EffectId>)
    requires WellFormed(l) && i < |l.accepted|
  {
    && Simulates(EmitStep(l, i, e.logicalKey).ledger, r.state)
    && ReplyOf(r.out) == EmitStep(l, i, e.logicalKey).reply
    && r.state.tables.journal == s.tables.journal
    && (r.out.Returned? ==> EffectNamed(r.state.tables.effects, r.out.value, e.eventId, e.logicalKey))
  }

  lemma NewEffectIsNamed(effects: seq<EffectRow>, s: State, e: Event)
    ensures EffectNamed(effects + [NewEffect(s, e)], NewEffect(s, e).effectId, e.eventId, e.logicalKey)
  {
    assert (effects + [NewEffect(s, e)])[|effects|] == NewEffect(s, e);
  }

  lemma SettleEmits(l: Ledger, s: State, i: nat, e: Event)
    requires Simulates(l, s) && IsEvent(e, s, i, e.logicalKey) && (i, e.logicalKey) !in l.settled
    ensures Emits(l, s, i, e, Settle(s, e))
  {
    hide Inv, EffectByKey;
    if TransientFires(l, i, e.logicalKey) {
      SettleDefers(l, s, i, e);
    } else {
      SettleCommits(l, s, i, e);
      NewEffectIsNamed(s.tables.effects, s, e);
    }
  }

  lemma SettleIntentEmits(l: Ledger, s: State, i: nat, e: Event, id: IntentId)
    requires Simulates(l, s) && IsEvent(e, s, i, e.logicalKey) && (i, e.logicalKey) !in l.settled
    requires id.event == e.eventId && id.logicalKey == e.logicalKey
    ensures Emits(l, s, i, e, SettleIntent(s, e, id))
  {
    hide Inv, EffectByKey, Settle;
    SettleEmits(l, s, i, e);
    var r := Settle(s, e);
    if r.out.Returned? {
      IntentCompleteKeeps(EmitStep(l, i, e.logicalKey).ledger, r.state, id, r.out.value);
    }
  }

  lemma OutboxEmits(l: Ledger, s: State, i: nat, e: Event)
    requires Simulates(l, s) && IsEvent(e, s, i, e.logicalKey)
    ensures Emits(l, s, i, e, Outbox(s, e))
  {
    hide Inv, EffectByKey, LatestIntent, SettleIntent, IntentCreate;
    SettledMeansEffect(l, s, i, e);
    var intent := LatestIntent(s.tables.intents, e.eventId, e.logicalKey);
    if intent.Some? {
      IntentOwnsItsId(s, e.eventId, e.logicalKey);
    }
    if (i, e.logicalKey) in l.settled {
      FoundEffectIsNamed(s.tables.effects, e.eventId, e.logicalKey);
      if intent.Some? && !intent.value.completed {
        IntentCompleteKeeps(l, s, intent.value.intentId, EffectByKey(s.tables.effects, e.eventId, e.logicalKey).value.effectId);
      }
    } else if intent.None? {
      IntentCreateKeeps(l, s, e);
      var r := IntentCreate(s, e);
      SettleIntentEmits(l, r.state, i, e, r.out.value);
    } else {
      if intent.value.completed {
        CompletedIntentHasEffect(s, e.eventId, e.logicalKey);
      }
      SettleIntentEmits(l, s, i, e, intent.value.intentId);
    }
  }

  /** Both repairs answer one s5 call as the ledger does, and return the id of an effect of that event and key. */
  lemma RepairedS5Emits(f: Flow, l: Ledger, s: State, i: nat, e: Event)
    requires Repaired(f) && Simulates(l, s) && IsEvent(e, s, i, e.logicalKey)
    ensures Emits(l, s, i, e, S5(f, s, e))
  {
    hide Inv, EffectByKey, Settle, Outbox;
    if f.IntentOutbox? {
      OutboxEmits(l, s, i, e);
    } else {
      SettledMeansEffect(l, s, i, e);
      if (i, e.logicalKey) in l.settled {
        FoundEffectIsNamed(s.tables.effects, e.eventId, e.logicalKey);
      } else {
        SettleEmits(l, s, i, e);
      }
    }
  }

  // ---------------------------------------------------------------- accepting

  ghost predicate Known(l: Ledger, s: State, c: Command, i: nat) {
    && i < |l.accepted| && |l.accepted| == |s.tables.journal|
    && i == IndexOf(l.accepted, c.Pair())
    && s.tables.journal[i].Pair() == c.Pair()
    && l.accepted[i].payload == s.tables.journal[i].payload
  }

  lemma KnownAt(l: Ledger, s: State, c: Command)
    requires Simulates(l, s)
    ensures |l.accepted| == |s.tables.journal|
    ensures var i := IndexOf(l.accepted, c.Pair());
      if i < |l.accepted| then Known(l, s, c, i) && GetEventId(s.tables, c.Pair()) == Some(s.tables.journal[i].eventId)
      else GetEventId(s.tables, c.Pair()) == None && FirstRow(s.tables.journal, c.Pair()) == None
  {
    IndexIsFirstRow(l, s, c.Pair());
  }

  lemma AcceptKnown(f: Flow, l: Ledger, s: State, c: Command, i: nat)
    requires Repaired(f) && Simulates(l, s) && Known(l, s, c, i)
    ensures var r := Accept(f, s, c);
      && r.state.tables.journal == s.tables.journal
      && if l.accepted[i].payload == PayloadHash(c)
         then r.out == Returned(s.tables.journal[i].eventId) &&
              Simulates(l.(registered := l.registered + {c.Pair()}), r.state)
         else r.out == Refused && Simulates(l, r.state)
  {
    hide Inv, Represents, FirstRow, Register;
    TickKeeps(l, s);
    KnownAt(l, Tick(s), c);
    if l.accepted[i].payload == PayloadHash(c) {
      RegisterKeeps(l, Tick(s), c, i);
    } else {
      RegisterRefuses(l, Tick(s), c, i);
      TickKeeps(l, Tick(s));
    }
  }

  lemma IndexOfAdmitted(l: Ledger, c: Command)
    requires IndexOf(l.accepted, c.Pair()) == |l.accepted|
    ensures IndexOf(Admitted(l, c).accepted, c.Pair()) == |l.accepted|
    ensures Admitted(l, c).accepted[|l.accepted|] == Accepted(c.Pair(), PayloadHash(c))
  {
    assert Admitted(l, c).accepted[..|l.accepted|] == l.accepted;
  }

  lemma AcceptFresh(f: Flow, l: Ledger, s: State, c: Command)
    requires Repaired(f) && Simulates(l, s) && IndexOf(l.accepted, c.Pair()) == |l.accepted|
    ensures var r := Accept(f, s, c); var row := NewRow(Tick(s), c); var m := Admitted(l, c);
      && r.state.tables.journal == s.tables.journal + [row]
      && |l.accepted| == |s.tables.journal|
      && if s.faults.s2Cutpoint
         then r.out == CutAt(row.eventId) && Simulates(m, r.state)
         else r.out == Returned(row.eventId) && Simulates(m.(registered := m.registered + {c.Pair()}), r.state)
  {
    hide Inv, Represents, FirstRow, Append, Register;
    TickKeeps(l, s);
    KnownAt(l, Tick(s), c);
    AppendAdmits(l, Tick(s), c);
    if !s.faults.s2Cutpoint {
      RegisterKeeps(Admitted(l, c), Append(Tick(s), c).state, c, |s.tables.journal|);
    }
  }

  // The engine's answer to a command: the reply of the ledger, and the id of the accepted row.
  ghost predicate Answers(s: State, c: Command, r: Result<EventId>, a: Step) {
    && Simulates(a.ledger, r.state)
    && ReplyOf(r.out) == a.reply
    && s.tables.journal <= r.state.tables.journal
    && (r.out.Returned? ==>
          var i := IndexOf(a.ledger.accepted, c.Pair());
          && i < |r.state.tables.journal| && i < |a.ledger.accepted|
          && a.ledger.accepted[i].payload == PayloadHash(c)
          && r.state.tables.journal[i].eventId == r.out.value)
  }

  lemma SameFaults(l: Ledger, s: State)
    requires Simulates(l, s)
    ensures l.faults == s.faults && WellFormed(l) && |l.accepted| == |s.tables.journal|
  {
  }

  lemma RetryAccepts(f: Flow, l: Ledger, s: State, c: Command)
    requires Repaired(f) && Simulates(l, s) && IndexOf(l.accepted, c.Pair()) == |l.accepted| && s.faults.s2Cutpoint
    ensures var r := Accept(f, s, c); var m := Admitted(l, c); var again := Accept(f, r.state, c);
      && again.out.Returned?
      && again.state.tables.journal == r.state.tables.journal
      && Simulates(m.(registered := m.registered + {c.Pair()}), again.state)
  {
    hide Inv, Represents, FirstRow, Accept;
    AcceptFresh(f, l, s, c);
    var s1 := Accept(f, s, c).state;
    IndexOfAdmitted(l, c);
    KnownAt(Admitted(l, c), s1, c);
    AcceptKnown(f, Admitted(l, c), s1, c, |l.accepted|);
  }

  lemma AcceptCommandKnown(f: Flow, l: Ledger, s: State, c: Command, retry: bool)
    requires Repaired(f) && Simulates(l, s) && IndexOf(l.accepted, c.Pair()) < |l.accepted|
    ensures Answers(s, c, AcceptCommand(f, s, c, retry), AcceptStep(l, c, retry))
  {
    hide Simulates, FirstRow, Accept;
    KnownAt(l, s, c);
    AcceptKnown(f, l, s, c, IndexOf(l.accepted, c.Pair()));
  }

  lemma AcceptCommandFresh(f: Flow, l: Ledger, s: State, c: Command, retry: bool)
    requires Repaired(f) && Simulates(l, s) && IndexOf(l.accepted, c.Pair()) == |l.accepted|
    ensures Answers(s, c, AcceptCommand(f, s, c, retry), AcceptStep(l, c, retry))
  {
    hide Simulates, FirstRow, Accept;
    SameFaults(l, s);
    AcceptFresh(f, l, s, c);
    IndexOfAdmitted(l, c);
    if s.faults.s2Cutpoint && retry {
      RetryAccepts(f, l, s, c);
    }
  }

  /** Accepting a command, cutpoint and client retry included, is one ledger step under both repairs. */
  lemma AcceptCommandRefines(f: Flow, l: Ledger, s: State, c: Command, retry: bool)
    requires Repaired(f) && Simulates(l, s)
    ensures Answers(s, c, AcceptCommand(f, s, c, retry), AcceptStep(l, c, retry))
  {
    if IndexOf(l.accepted, c.Pair()) < |l.accepted| {
      AcceptCommandKnown(f, l, s, c, retry);
    } else {
      AcceptCommandFresh(f, l, s, c, retry);
    }
  }

  // ---------------------------------------------------------------- delivering

  lemma CursorKeeps(l: Ledger, s: State, sequence: int)
    requires Simulates(l, s)
    ensures Simulates(l.(cursor := sequence), AdvanceCursor(s, sequence))
  {
    hide FirstRow, RowOf, EffectByKey;
    TickKeeps(l, s);
  }

  lemma RestartKeeps(l: Ledger, s: State)
    requires Simulates(l, s)
    ensures Simulates(RestartStep(l), Restart(s))
  {
    hide FirstRow, RowOf, EffectByKey;
    TickKeeps(l, s);
  }

  lemma NewRunKeeps(l: Ledger, s: State, workloadId: string, faults: Faults)
    requires Simulates(l, s)
    ensures Simulates(RestartStep(l).(faults := faults), NewRun(s, workloadId, faults))
  {
    hide FirstRow, RowOf, EffectByKey;
  }

  lemma LoadFinds(l: Ledger, s: State, i: nat)
    requires Simulates(l, s) && i < |s.tables.journal|
    ensures var r := Load(s, s.tables.journal[i].eventId);
      && r.state == Tick(s) && r.out.Returned?
      && r.out.value.logicalKey == SETTLEMENT && IsEvent(r.out.value, r.state, i, SETTLEMENT)
  {
    RowOfAt(s.tables.journal, i);
  }

  ghost predicate Attempted(l: Ledger, s: State, i: nat, sequence: int, r: Result<EffectId>)
    requires WellFormed(l) && i < |l.accepted|
  {
    var a := EmitStep(l, i, SETTLEMENT);
    && Simulates(if a.reply == Done then a.ledger.(cursor := sequence) else a.ledger, r.state)
    && ReplyOf(r.out) == a.reply
    && r.state.tables.journal == s.tables.journal
    && i < |s.tables.journal|
    && (r.out.Returned? ==>
          EffectNamed(r.state.tables.effects, r.out.value, s.tables.journal[i].eventId, SETTLEMENT))
  }

  lemma DeliverAttempts(f: Flow, l: Ledger, s: State, i: nat, sequence: int)
    requires Repaired(f) && Simulates(l, s) && i < |s.tables.journal| && WellFormed(l) && i < |l.accepted|
    ensures Attempted(l, s, i, sequence, Deliver(f, s, s.tables.journal[i].eventId, sequence))
  {
    hide Inv, Represents, EffectByKey, S5, Load;
    LoadFinds(l, s, i);
    TickKeeps(l, s);
    var e := Load(s, s.tables.journal[i].eventId).out.value;
    RepairedS5Emits(f, l, Tick(s), i, e);
    var r := S5(f, Tick(s), e);
    if r.out.Returned? {
      CursorKeeps(EmitStep(l, i, SETTLEMENT).ledger, r.state, sequence);
    }
  }

  ghost predicate Finished(m: Ledger, s: State, i: nat, r: Result<EffectId>) {
    && r.out.Returned?
    && Simulates(m, r.state)
    && r.state.tables.journal == s.tables.journal
    && i < |s.tables.journal|
    && EffectNamed(r.state.tables.effects, r.out.value, s.tables.journal[i].eventId, SETTLEMENT)
  }

  lemma DeliverSettled(f: Flow, l: Ledger, s: State, i: nat, sequence: int, attempts: nat, budget: int, retry: bool)
    requires Repaired(f) && Simulates(l, s) && i < |s.tables.journal| && WellFormed(l) && i < |l.accepted|
    requires attempts < budget && (i, SETTLEMENT) in l.settled
    ensures Finished(l.(cursor := sequence), s, i,
                     DeliverFrom(f, s, s.tables.journal[i].eventId, sequence, attempts, budget, retry))
  {
    hide Inv, Represents, Deliver;
    DeliverAttempts(f, l, s, i, sequence);
  }

  function Delivered(l: Ledger, i: nat, sequence: int): Ledger
    requires WellFormed(l) && i < |l.accepted|
  {
    var l2 := AfterSettling(l, i, SETTLEMENT);
    (if l.faults.s5Cutpoint then RestartStep(l2) else l2).(cursor := sequence)
  }

  lemma DeliverUnsettled(f: Flow, l: Ledger, s: State, i: nat, sequence: int, attempts: nat, budget: int, retry: bool)
    requires Repaired(f) && Simulates(l, s) && i < |s.tables.journal| && WellFormed(l) && i < |l.accepted|
    requires attempts < budget && (i, SETTLEMENT) !in l.settled && !TransientFires(l, i, SETTLEMENT)
    ensures Finished(Delivered(l, i, sequence), s, i,
                     DeliverFrom(f, s, s.tables.journal[i].eventId, sequence, attempts, budget, retry))
  {
    hide Inv, Represents, Deliver, Restart;
    DeliverAttempts(f, l, s, i, sequence);
    var r := Deliver(f, s, s.tables.journal[i].eventId, sequence);
    if l.faults.s5Cutpoint {
      var m := AfterSettling(l, i, SETTLEMENT);
      RestartKeeps(m, r.state);
      RestartKeepsTables(r.state);
      DeliverSettled(f, RestartStep(m), Restart(r.state), i, sequence, 0, budget, retry);
    }
  }

  lemma RestartKeepsTables(s: State)
    ensures Restart(s).tables == s.tables
  {
  }

  // The engine's answer to a delivery: the reply of the ledger, and the id of the settlement effect.
  ghost predicate DeliversAs(s: State, i: nat, r: Result<EffectId>, a: Step) {
    && Simulates(a.ledger, r.state)
    && ReplyOf(r.out) == a.reply
    && r.state.tables.journal == s.tables.journal
    && i < |s.tables.journal|
    && (r.out.Returned? ==>
          EffectNamed(r.state.tables.effects, r.out.value, s.tables.journal[i].eventId, SETTLEMENT))
  }

  /** The whole delivery loop, retries and restart included, is one ledger step under both repairs. */
  lemma DeliverEventRefines(f: Flow, l: Ledger, s: State, i: nat, sequence: int, budget: int, retry: bool)
    requires Repaired(f) && Simulates(l, s) && i < |s.tables.journal| && WellFormed(l) && i < |l.accepted|
    ensures DeliversAs(s, i, DeliverEvent(f, s, s.tables.journal[i].eventId, sequence, budget, retry),
                       DeliverStep(l, i, sequence, budget, retry))
  {
    hide Inv, Represents, Deliver;
    if budget <= 0 {
    } else if (i, SETTLEMENT) in l.settled {
      DeliverSettled(f, l, s, i, sequence, 0, budget, retry);
    } else if TransientFires(l, i, SETTLEMENT) {
      DeliverAttempts(f, l, s, i, sequence);
      var r := Deliver(f, s, s.tables.journal[i].eventId, sequence);
      TickKeeps(AfterTransient(l, i), r.state);
      if retry && 2 <= budget {
        DeliverUnsettled(f, AfterTransient(l, i), Tick(r.state), i, sequence, 1, budget, retry);
      }
    } else {
      DeliverUnsettled(f, l, s, i, sequence, 0, budget, retry);
    }
  }
}

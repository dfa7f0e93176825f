/**
 Engine calls over tables that any program may have filled.

 A sane store has a consistent journal, ids, effects and completed intents of the past only, and intents
 whose id names their own event. Every store that programs produce by the store methods is like that, with
 whatever duplicates, claims and keys they left, and so are the histories a fixture is seeded with.
 */
module SaneStore {
  import opened Wrappers
  import opened Settlement
  import opened Journal
  import opened Flows
  import opened RepairInvariant
  import opened Counting
  import O = OutboxIntents
  import opened A = FromAnyStore

  ghost predicate SourceOld(id: EventId, now: nat) {
    id.EventId? ==> id.tick <= now
  }

  ghost predicate SourcesOld(t: Tables, now: nat) {
    && (forall i :: 0 <= i < |t.effects| ==> SourceOld(t.effects[i].sourceEvent, now))
    && (forall i :: 0 <= i < |t.intents| && t.intents[i].completed ==> SourceOld(t.intents[i].sourceEvent, now))
  }

  ghost predicate Owned(intents: seq<IntentRow>) {
    forall i :: 0 <= i < |intents| ==> intents[i].intentId.event == intents[i].sourceEvent
  }

  ghost predicate Sane(s: State) {
    && Consistent(s.tables.journal, s.tick)
    && IdsOld(s)
    && Owned(s.tables.intents)
    && SourcesOld(s.tables, s.tick)
  }

  /** The invariant of the repairs is one way of being sane. */
  lemma InvIsSane(s: State)
    requires Inv(s)
    ensures Sane(s)
  {
    hide FirstRow, EffectByKey, LatestIntent;
    forall i | 0 <= i < |s.tables.effects| ensures SourceOld(s.tables.effects[i].sourceEvent, s.tick) {
      JournalledIsOld(s.tables.journal, s.tick, s.tables.effects[i].sourceEvent);
    }
    forall i | 0 <= i < |s.tables.intents| && s.tables.intents[i].completed
      ensures SourceOld(s.tables.intents[i].sourceEvent, s.tick)
    {
      JournalledIsOld(s.tables.journal, s.tick, s.tables.intents[i].sourceEvent);
    }
  }

  lemma JournalledIsOld(journal: seq<JournalRow>, now: nat, id: EventId)
    requires Consistent(journal, now) && RowOf(journal, id).Some?
    ensures SourceOld(id, now)
  {
    var row := RowOf(journal, id).value;
    var i :| 0 <= i < |journal| && journal[i] == row;
  }

  lemma LaterIsSane(s: State, t: State)
    requires Sane(s) && t.tables == s.tables && s.tick <= t.tick
    ensures Sane(t)
  {
  }

  // ---------------------------------------------------------------- any program

  // A program cannot name an event that is still to come: its id is a hash over the tick.
  predicate NamesPast(s: State, op: Op) {
    match op
    case SettleOp(e) => e.eventId.EventId? ==> e.eventId.tick <= s.tick
    case IntentCreateOp(e) => e.eventId.EventId? ==> e.eventId.tick <= s.tick
    case IntentCompleteOp(id, _) => id.event.EventId? ==> id.event.tick <= s.tick
    case _ => true
  }

  ghost predicate AllNamePast(s: State, ops: seq<Op>)
    decreases |ops|
  {
    ops == [] || (NamesPast(s, ops[0]) && AllNamePast(Apply(s, ops[0]), ops[1..]))
  }

  lemma CallKeepsRestSane(s: State, op: Op)
    requires IdsOld(s) && Owned(s.tables.intents) && SourcesOld(s.tables, s.tick) && NamesPast(s, op)
    ensures IdsOld(Apply(s, op)) && Owned(Apply(s, op).tables.intents)
    ensures SourcesOld(Apply(s, op).tables, Apply(s, op).tick)
  {
    hide Settle, IntentCreate, IntentComplete, IdsOld, Owned, SourcesOld, LatestIntent;
    match op
    case SettleOp(e) =>
      SettleTried(s, e);
      SettleMoves(s, e);
    case IntentCreateOp(e) =>
      CreatingSucceeds(s, e);
      CreateMoves(s, e);
    case IntentCompleteOp(id, effect) =>
      CompletingKeepsIdsOld(s, id, effect);
      CompleteMoves(s, id, effect);
    case _ =>
      OthersKeepTables(s, op);
      LaterIsOld(s, Apply(s, op));
  }

  lemma OthersKeepTables(s: State, op: Op)
    requires !op.SettleOp? && !op.IntentCreateOp? && !op.IntentCompleteOp?
    ensures var t := Apply(s, op);
      t.tables.effects == s.tables.effects && t.tables.intents == s.tables.intents && s.tick <= t.tick
  {
    hide FirstRow, RowOf, MaxSeq, Conflicts;
  }

  lemma LaterIsOld(s: State, t: State)
    requires IdsOld(s) && Owned(s.tables.intents) && SourcesOld(s.tables, s.tick)
    requires t.tables.effects == s.tables.effects && t.tables.intents == s.tables.intents && s.tick <= t.tick
    ensures IdsOld(t) && Owned(t.tables.intents) && SourcesOld(t.tables, t.tick)
  {
  }

  /**
   Whatever program runs, in whatever order it calls the store, it keeps a store sane: what a repair finds
   when it is deployed over the tables of another program is sane.
   */
  lemma {:induction false} AnyProgramKeepsSane(s: State, ops: seq<Op>)
    requires Sane(s) && AllNamePast(s, ops)
    ensures Sane(ApplyAll(s, ops))
    decreases |ops|
  {
    if ops != [] {
      StepKeepsConsistent(s, ops[0]);
      CallKeepsRestSane(s, ops[0]);
      hide Apply, Consistent, IdsOld, Owned, SourcesOld, NamesPast;
      AnyProgramKeepsSane(Apply(s, ops[0]), ops[1..]);
    }
  }

  // ---------------------------------------------------------------- accepting

  // Later, with the attempts counted and the transient fault as they were.
  predicate SameAttempts(s: State, t: State) {
    s.tick <= t.tick && t.attempts == s.attempts && t.faults.transient == s.faults.transient
  }

  lemma AcceptKnown(f: Flow, s: State, c: Command)
    requires Repaired(f) && FirstRow(s.tables.journal, c.Pair()).Some?
    ensures var r := Accept(f, s, c); var row := FirstRow(s.tables.journal, c.Pair()).value;
      && r.state.tables.(commandKeys := s.tables.commandKeys) == s.tables && SameAttempts(s, r.state)
      && r.out == if row.payload == PayloadHash(c) then Returned(row.eventId) else Refused
  {
    hide FirstRow;
  }

  // A new occurrence gets the next row, with an id that no table has seen.
  ghost predicate Admits(s: State, t: State, c: Command, id: EventId) {
    && |t.tables.journal| == |s.tables.journal| + 1
    && (var row := t.tables.journal[|s.tables.journal|];
        && t.tables.journal == s.tables.journal + [row]
        && row.Pair() == c.Pair() && row.payload == PayloadHash(c) && row.eventId == id
        && row.seqNo == |s.tables.journal| + 1)
    && id.EventId? && s.tick < id.tick
    && Consistent(t.tables.journal, t.tick)
  }

  lemma AppendFresh(s: State, c: Command)
    requires Consistent(s.tables.journal, s.tick) && FirstRow(s.tables.journal, c.Pair()) == None
    ensures var r := Append(s, c); var id := NewRow(s, c).eventId;
      && Admits(s, r.state, c, id)
      && r.out == (if s.faults.s2Cutpoint then CutAt(id) else Returned(id))
      && r.state.tables.(journal := s.tables.journal) == s.tables && SameAttempts(s, r.state)
  {
    hide FirstRow, Append, Consistent;
    AppendAddsNextRow(s, c);
    NewRowKeepsConsistent(s, c);
  }

  lemma AdmittedIsFound(s: State, t: State, c: Command, id: EventId)
    requires Admits(s, t, c, id) && FirstRow(s.tables.journal, c.Pair()) == None
    ensures var r := FirstRow(t.tables.journal, c.Pair());
      r.Some? && r.value == t.tables.journal[|s.tables.journal|]
  {
    hide Consistent;
    FirstRowAppend(s.tables.journal, t.tables.journal[|s.tables.journal|], c.Pair());
  }

  lemma AcceptFresh(f: Flow, s: State, c: Command)
    requires Repaired(f) && Consistent(s.tables.journal, s.tick) && FirstRow(s.tables.journal, c.Pair()) == None
    ensures var r := Accept(f, s, c); var id := NewRow(Tick(s), c).eventId;
      && Admits(Tick(s), r.state, c, id) && (r.out == Returned(id) || r.out == CutAt(id))
      && r.state.tables.(journal := s.tables.journal, commandKeys := s.tables.commandKeys) == s.tables
      && SameAttempts(s, r.state)
  {
    hide FirstRow, Append, Consistent, Admits;
    var s1 := Tick(s);
    LaterClockKeepsConsistent(s.tables.journal, s.tick, s1.tick);
    AppendFresh(s1, c);
    var r2 := Append(s1, c);
    var id := NewRow(s1, c).eventId;
    if r2.out.Returned? {
      AdmittedIsFound(s1, r2.state, c, id);
      AdmittedHasPayload(s1, r2.state, c, id);
      AdmitsLater(s1, r2.state, Register(r2.state, c, id).state, c, id);
    }
  }

  lemma AdmittedHasPayload(s: State, t: State, c: Command, id: EventId)
    requires Admits(s, t, c, id)
    ensures t.tables.journal[|s.tables.journal|].payload == PayloadHash(c)
  {
  }

  lemma AdmitsLater(s: State, t: State, u: State, c: Command, id: EventId)
    requires Admits(s, t, c, id) && u.tables.journal == t.tables.journal && t.tick <= u.tick
    ensures Admits(s, u, c, id)
  {
    hide Consistent;
    LaterClockKeepsConsistent(t.tables.journal, t.tick, u.tick);
  }

  // What accepting leaves: the known row, a refusal, or the next row; and nothing else but a registration.
  ghost predicate Accepts(s: State, c: Command, r: Result<EventId>) {
    && SameAttempts(s, r.state)
    && r.state.tables.(journal := s.tables.journal, commandKeys := s.tables.commandKeys) == s.tables
    && match FirstRow(s.tables.journal, c.Pair())
       case Some(row) =>
         && r.state.tables.journal == s.tables.journal
         && r.out == if row.payload == PayloadHash(c) then Returned(row.eventId) else Refused
       case None => r.out.Returned? && Admits(s, r.state, c, r.out.value)
  }

  lemma AdmitsFromEarlier(s: State, s1: State, t: State, c: Command, id: EventId)
    requires Admits(s1, t, c, id) && s1.tables.journal == s.tables.journal && s.tick <= s1.tick
    ensures Admits(s, t, c, id)
  {
    hide Consistent;
  }

  /** Accepting under a repair, with the client's retry after a cut, over any consistent journal. */
  lemma AcceptExactly(f: Flow, s: State, c: Command)
    requires Repaired(f) && Consistent(s.tables.journal, s.tick)
    ensures Accepts(s, c, AcceptCommand(f, s, c, true))
  {
    hide Accept, FirstRow, Admits, Consistent;
    if FirstRow(s.tables.journal, c.Pair()).Some? {
      AcceptKnown(f, s, c);
    } else {
      AcceptFresh(f, s, c);
      var r := Accept(f, s, c);
      var id := NewRow(Tick(s), c).eventId;
      AdmitsFromEarlier(s, Tick(s), r.state, c, id);
      if r.out.CutAt? {
        AdmittedIsFound(s, r.state, c, id);
        AdmittedHasPayload(s, r.state, c, id);
        AcceptKnown(f, r.state, c);
        AdmitsLater(s, r.state, Accept(f, r.state, c).state, c, id);
      }
    }
  }

  lemma AcceptKeepsSane(s: State, c: Command, r: Result<EventId>)
    requires Sane(s) && Accepts(s, c, r)
    ensures Sane(r.state)
  {
    hide FirstRow, Consistent;
    if FirstRow(s.tables.journal, c.Pair()).Some? {
      LaterClockKeepsConsistent(s.tables.journal, s.tick, r.state.tick);
    }
  }

  // ---------------------------------------------------------------- delivering one event leaves the others

  // A call about one event: the intents of all others stay, and nothing of the future gets in.
  ghost predicate Moves(s: State, t: State, id: EventId) {
    && s.tick <= t.tick && t.tables.journal == s.tables.journal
    && Owned(t.tables.intents)
    && (forall other, key :: other != id ==>
          LatestIntent(t.tables.intents, other, key) == LatestIntent(s.tables.intents, other, key))
    && (SourceOld(id, s.tick) && SourcesOld(s.tables, s.tick) ==> SourcesOld(t.tables, t.tick))
  }

  lemma MovesChain(s: State, t: State, u: State, id: EventId)
    requires Moves(s, t, id) && Moves(t, u, id)
    ensures Moves(s, u, id)
  {
    hide LatestIntent, Owned, SourcesOld;
  }

  lemma TickMoves(s: State, t: State, id: EventId)
    requires Owned(s.tables.intents) && t.tables.effects == s.tables.effects && t.tables.intents == s.tables.intents
    requires t.tables.journal == s.tables.journal && s.tick <= t.tick
    ensures Moves(s, t, id)
  {
    hide LatestIntent;
  }

  lemma SettleMoves(s: State, e: Event)
    requires Owned(s.tables.intents)
    ensures Moves(s, Settle(s, e).state, e.eventId)
  {
    hide Settle, LatestIntent;
    O.SettleAddsOnlyIts(s, e);
    A.SettleKeepsJournal(s, e);
    SettleTicks(s, e);
  }

  lemma SettleTicks(s: State, e: Event)
    ensures s.tick <= Settle(s, e).state.tick
  {
    hide HasEffectId;
  }

  lemma {:induction false} CompleteElsewhere(intents: seq<IntentRow>, iid: IntentId, effect: EffectId, other: EventId, key: string)
    requires Owned(intents) && other != iid.event
    ensures LatestIntent(CompleteRows(intents, iid, effect), other, key) == LatestIntent(intents, other, key)
  {
    hide CompleteRows;
    O.LatestAfterComplete(intents, iid, effect, other, key);
    var r := LatestIntent(intents, other, key);
    if r.Some? {
      var i :| 0 <= i < |intents| && intents[i] == r.value;
    }
  }

  lemma CompleteMoves(s: State, iid: IntentId, effect: EffectId)
    requires Owned(s.tables.intents)
    ensures Moves(s, IntentComplete(s, iid, effect), iid.event)
  {
    hide LatestIntent;
    var t := IntentComplete(s, iid, effect);
    forall other, key | other != iid.event
      ensures LatestIntent(t.tables.intents, other, key) == LatestIntent(s.tables.intents, other, key)
    {
      CompleteElsewhere(s.tables.intents, iid, effect, other, key);
    }
  }

  lemma CreateMoves(s: State, e: Event)
    requires Owned(s.tables.intents)
    ensures Moves(s, IntentCreate(s, e).state, e.eventId)
    ensures IntentCreate(s, e).out.Returned? ==> IntentCreate(s, e).out.value.event == e.eventId
  {
    hide LatestIntent, HasIntentId;
    var r := IntentCreate(s, e);
    if r.out.Returned? {
      var row := r.state.tables.intents[|s.tables.intents|];
      assert r.state.tables.intents == s.tables.intents + [row];
      forall other, key | other != e.eventId
        ensures LatestIntent(r.state.tables.intents, other, key) == LatestIntent(s.tables.intents, other, key)
      {
        O.LatestAfterAppend(s.tables.intents, row, other, key);
      }
    }
  }

  lemma SettleIntentMoves(s: State, e: Event, iid: IntentId)
    requires Owned(s.tables.intents) && iid.event == e.eventId
    ensures Moves(s, SettleIntent(s, e, iid).state, e.eventId)
  {
    hide Settle, IntentComplete, Owned, LatestIntent, SourcesOld;
    SettleMoves(s, e);
    var r := Settle(s, e);
    if r.out.Returned? {
      CompleteMoves(r.state, iid, r.out.value);
      MovesChain(s, r.state, IntentComplete(r.state, iid, r.out.value), e.eventId);
    }
  }

  lemma OwnIntent(intents: seq<IntentRow>, id: EventId, key: string)
    requires Owned(intents) && LatestIntent(intents, id, key).Some?
    ensures LatestIntent(intents, id, key).value.intentId.event == id
  {
  }

  lemma OutboxMoves(s: State, e: Event)
    requires Owned(s.tables.intents)
    ensures Moves(s, Outbox(s, e).state, e.eventId)
  {
    hide EffectByKey, LatestIntent, SettleIntent, IntentCreate, IntentComplete, Moves, Owned;
    TickMoves(s, s, e.eventId);
    var intent := LatestIntent(s.tables.intents, e.eventId, e.logicalKey);
    var effect := EffectByKey(s.tables.effects, e.eventId, e.logicalKey);
    if intent.Some? { OwnIntent(s.tables.intents, e.eventId, e.logicalKey); }
    if effect.Some? {
      if intent.Some? && !intent.value.completed {
        CompleteMoves(s, intent.value.intentId, effect.value.effectId);
      }
    } else if intent.None? {
      CreateMoves(s, e);
      var r := IntentCreate(s, e);
      if r.out.Returned? {
        assert Owned(r.state.tables.intents) by { MovedIsOwned(s, r.state, e.eventId); }
        SettleIntentMoves(r.state, e, r.out.value);
        MovesChain(s, r.state, SettleIntent(r.state, e, r.out.value).state, e.eventId);
      }
    } else {
      SettleIntentMoves(s, e, intent.value.intentId);
    }
  }

  lemma MovedIsOwned(s: State, t: State, id: EventId)
    requires Moves(s, t, id)
    ensures Owned(t.tables.intents) && t.tables.journal == s.tables.journal && s.tick <= t.tick
  {
  }

  lemma S5Moves(f: Flow, s: State, e: Event)
    requires Repaired(f) && Owned(s.tables.intents)
    ensures Moves(s, S5(f, s, e).state, e.eventId)
  {
    hide EffectByKey, Outbox, Settle, Moves, Owned;
    if f.IntentOutbox? {
      OutboxMoves(s, e);
    } else {
      SettleMoves(s, e);
      TickMoves(s, s, e.eventId);
    }
  }

  lemma DeliverMoves(f: Flow, s: State, id: EventId, sequence: int)
    requires Repaired(f) && Owned(s.tables.intents)
    ensures Moves(s, Deliver(f, s, id, sequence).state, id)
  {
    hide S5, RowOf, Moves, Owned;
    TickMoves(s, Tick(s), id);
    var loaded := Load(s, id);
    if loaded.out.Returned? {
      var e := loaded.out.value;
      S5Moves(f, loaded.state, e);
      var r := S5(f, loaded.state, e);
      MovesChain(s, loaded.state, r.state, id);
      MovedIsOwned(s, r.state, id);
      TickMoves(r.state, AdvanceCursor(r.state, sequence), id);
      MovesChain(s, r.state, AdvanceCursor(r.state, sequence), id);
    }
  }

  lemma {:induction false} DeliverFromMoves(f: Flow, s: State, id: EventId, sequence: int, attempts: nat, budget: int, retry: bool)
    requires Repaired(f) && Owned(s.tables.intents)
    ensures Moves(s, DeliverFrom(f, s, id, sequence, attempts, budget, retry).state, id)
    decreases PendingCutpoints(s), budget - attempts
  {
    hide Deliver, Moves, Owned;
    if attempts >= budget {
      TickMoves(s, s, id);
    } else {
      DeliverMoves(f, s, id, sequence);
      var r := Deliver(f, s, id, sequence);
      var whole := DeliverFrom(f, s, id, sequence, attempts, budget, retry).state;
      MovedIsOwned(s, r.state, id);
      TickMoves(r.state, Tick(r.state), id);
      MovesChain(s, r.state, Tick(r.state), id);
      TickMoves(r.state, Restart(r.state), id);
      MovesChain(s, r.state, Restart(r.state), id);
      if r.out.TransientFault? && retry && attempts + 1 < budget {
        DeliverFromMoves(f, Tick(r.state), id, sequence, attempts + 1, budget, retry);
        MovesChain(s, Tick(r.state), whole, id);
      } else if r.out.CutAt? {
        DeliverFromMoves(f, Restart(r.state), id, sequence, 0, budget, retry);
        MovesChain(s, Restart(r.state), whole, id);
      }
    }
  }

  /** A delivery of a journalled event keeps a store sane. */
  lemma DeliveryKeepsSane(f: Flow, s: State, id: EventId, sequence: int, budget: int, retry: bool)
    requires Repaired(f) && Sane(s) && RowOf(s.tables.journal, id).Some?
    ensures var t := DeliverEvent(f, s, id, sequence, budget, retry).state;
      Sane(t) && Moves(s, t, id)
  {
    hide DeliverFrom, RowOf, Consistent, Owned, SourcesOld, IdsOld, LatestIntent, FaultFires, Unsettled, Adds;
    DeliveryReturnsExactlyWhen(f, s, id, sequence, budget, retry);
    DeliverFromMoves(f, s, id, sequence, 0, budget, retry);
    JournalledIsOld(s.tables.journal, s.tick, id);
    var t := DeliverEvent(f, s, id, sequence, budget, retry).state;
    LaterClockKeepsConsistent(s.tables.journal, s.tick, t.tick);
  }
}

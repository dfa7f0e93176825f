/**
 Exactly once, from any store at all that has no duplicate yet.

 A repair may be deployed over tables that another program filled: with effects of events the journal does
 not hold, other amounts, registrations of other events, stale intents. None of that matters here: the only
 premise is that no command occurrence has two rows and no event two effects under one key.
 */
module FromAnyStore {
  import opened Wrappers
  import opened Settlement
  import opened Flows
  import opened Ledger
  import opened RepairInvariant
  import opened RepairRefinement
  import opened ExactlyOnce
  import O = OutboxIntents

  ghost predicate Once(t: Tables) {
    OneRowPerOccurrence(t.journal) && OneEffectPerKey(t.effects)
  }

  // What every step keeps: the absence of duplicates, among rows, effects and intents.
  ghost predicate KeepsOnce(t: Tables, t': Tables) {
    && (OneRowPerOccurrence(t.journal) ==> OneRowPerOccurrence(t'.journal))
    && (OneEffectPerKey(t.effects) ==> OneEffectPerKey(t'.effects))
    && (OneIntentPerKey(t.intents) ==> OneIntentPerKey(t'.intents))
  }

  // ---------------------------------------------------------------- single insertions

  lemma NewRowKeepsOne(journal: seq<JournalRow>, row: JournalRow)
    requires FirstRow(journal, row.Pair()) == None
    ensures OneRowPerOccurrence(journal) ==> OneRowPerOccurrence(journal + [row])
  {
  }

  lemma NewEffectKeepsOne(effects: seq<EffectRow>, row: EffectRow)
    requires EffectByKey(effects, row.sourceEvent, row.logicalKey) == None
    ensures OneEffectPerKey(effects) ==> OneEffectPerKey(effects + [row])
  {
  }

  lemma NewIntentKeepsOne(intents: seq<IntentRow>, row: IntentRow)
    requires LatestIntent(intents, row.sourceEvent, row.logicalKey) == None
    ensures OneIntentPerKey(intents) ==> OneIntentPerKey(intents + [row])
  {
  }

  lemma CompletingKeepsOne(intents: seq<IntentRow>, id: IntentId, effect: EffectId)
    ensures OneIntentPerKey(intents) ==> OneIntentPerKey(CompleteRows(intents, id, effect))
  {
  }

  // ---------------------------------------------------------------- stages

  lemma AppendKeepsOnce(s: State, c: Command)
    requires FirstRow(s.tables.journal, c.Pair()) == None
    ensures KeepsOnce(s.tables, Append(s, c).state.tables)
  {
    hide FirstRow, RowOf, MaxSeq, OneRowPerOccurrence, OneEffectPerKey, OneIntentPerKey;
    var t := Append(s, c).state.tables;
    if t.journal != s.tables.journal {
      NewRowKeepsOne(s.tables.journal, t.journal[|s.tables.journal|]);
    }
  }

  lemma AcceptKeepsOnce(f: Flow, s: State, c: Command)
    requires Repaired(f)
    ensures KeepsOnce(s.tables, Accept(f, s, c).state.tables)
  {
    hide FirstRow, Append, Conflicts, OneRowPerOccurrence, OneEffectPerKey, OneIntentPerKey;
    if FirstRow(s.tables.journal, c.Pair()) == None {
      AppendKeepsOnce(Tick(s), c);
    }
  }

  lemma AcceptCommandKeepsOnce(f: Flow, s: State, c: Command, retry: bool)
    requires Repaired(f)
    ensures KeepsOnce(s.tables, AcceptCommand(f, s, c, retry).state.tables)
  {
    hide Accept, OneRowPerOccurrence, OneEffectPerKey, OneIntentPerKey;
    AcceptKeepsOnce(f, s, c);
    AcceptKeepsOnce(f, Accept(f, s, c).state, c);
  }

  // What a settlement under a free key does, and what an answered one leaves.
  lemma SettleKeepsOnce(s: State, e: Event)
    requires EffectByKey(s.tables.effects, e.eventId, e.logicalKey) == None
    ensures var r := Settle(s, e);
      && KeepsOnce(s.tables, r.state.tables)
      && r.state.tables.intents == s.tables.intents && r.state.tables.cursor == s.tables.cursor
      && (r.out.Returned? || r.out.CutAt? ==> EffectByKey(r.state.tables.effects, e.eventId, e.logicalKey).Some?)
      && (r.out.Returned? ==> EffectNamed(r.state.tables.effects, r.out.value, e.eventId, e.logicalKey))
      && (!r.out.Returned? && !r.out.CutAt? ==> r.state.tables == s.tables)
  {
    hide EffectByKey, HasEffectId, OneRowPerOccurrence, OneEffectPerKey, OneIntentPerKey;
    var r := Settle(s, e);
    var n := |s.tables.effects|;
    if r.out.Returned? || r.out.CutAt? {
      var row := r.state.tables.effects[n];
      assert r.state.tables.effects == s.tables.effects + [row];
      NewEffectKeepsOne(s.tables.effects, row);
      EffectByKeyAppend(s.tables.effects, row, e.eventId, e.logicalKey);
    }
  }

  // An intent that says completed although its effect is not there; the outbox believes it.
  predicate ClaimsMissing(t: Tables, id: EventId, key: string) {
    var intent := LatestIntent(t.intents, id, key);
    EffectByKey(t.effects, id, key).None? && intent.Some? && intent.value.completed && intent.value.effectId.Some?
  }

  /** A program that opens an intent and completes it without settling leaves such a claim. */
  lemma ProgramMayClaimMissing(s: State, e: Event, effect: EffectId)
    requires EffectByKey(s.tables.effects, e.eventId, e.logicalKey) == None && IntentCreate(s, e).out.Returned?
    ensures var created := IntentCreate(s, e);
      ClaimsMissing(IntentComplete(created.state, created.out.value, effect).tables, e.eventId, e.logicalKey)
  {
    hide EffectByKey, LatestIntent, HasIntentId, CompleteRows;
    var created := IntentCreate(s, e);
    var row := created.state.tables.intents[|s.tables.intents|];
    assert created.state.tables.intents == s.tables.intents + [row];
    O.LatestAfterAppend(s.tables.intents, row, e.eventId, e.logicalKey);
    O.LatestAfterComplete(created.state.tables.intents, created.out.value, effect, e.eventId, e.logicalKey);
  }

  // What one answered s5 call leaves, and what one that is not answered leaves for the next.
  ghost predicate Leaves(f: Flow, s: State, e: Event, r: Result<EffectId>) {
    && KeepsOnce(s.tables, r.state.tables)
    && r.state.tables.journal == s.tables.journal
    && if f.IntentOutbox? && ClaimsMissing(s.tables, e.eventId, e.logicalKey)
       then r.out.Returned? && r.state == s
       else
         && (f.IntentOutbox? ==> !ClaimsMissing(r.state.tables, e.eventId, e.logicalKey))
         && (r.out.Returned? ==>
               && EffectByKey(r.state.tables.effects, e.eventId, e.logicalKey).Some?
               && (OneEffectPerKey(s.tables.effects) ==>
                     EffectNamed(r.state.tables.effects, r.out.value, e.eventId, e.logicalKey)))
  }

  lemma LogicalLeaves(s: State, e: Event)
    ensures Leaves(LogicalIdentity, s, e, S5(LogicalIdentity, s, e))
  {
    hide EffectByKey, Settle, OneRowPerOccurrence, OneEffectPerKey, OneIntentPerKey, EffectNamed;
    if EffectByKey(s.tables.effects, e.eventId, e.logicalKey).Some? {
      FoundEffectIsNamed(s.tables.effects, e.eventId, e.logicalKey);
    } else {
      SettleKeepsOnce(s, e);
      SettleKeepsJournal(s, e);
    }
  }

  lemma SettleKeepsJournal(s: State, e: Event)
    ensures Settle(s, e).state.tables.journal == s.tables.journal
  {
    hide HasEffectId;
  }

  lemma SettleIntentLeaves(s: State, e: Event, id: IntentId)
    requires EffectByKey(s.tables.effects, e.eventId, e.logicalKey) == None
    requires !ClaimsMissing(s.tables, e.eventId, e.logicalKey)
    ensures Leaves(IntentOutbox, s, e, SettleIntent(s, e, id))
  {
    hide EffectByKey, LatestIntent, Settle, CompleteRows, OneRowPerOccurrence, OneEffectPerKey, OneIntentPerKey, EffectNamed;
    SettleKeepsOnce(s, e);
    SettleKeepsJournal(s, e);
    var r := Settle(s, e);
    if r.out.Returned? { CompletingKeepsOne(r.state.tables.intents, id, r.out.value); }
  }

  lemma CreatedIntentIsOpen(s: State, e: Event)
    requires LatestIntent(s.tables.intents, e.eventId, e.logicalKey) == None
    ensures var r := IntentCreate(s, e);
      && KeepsOnce(s.tables, r.state.tables)
      && r.state.tables.journal == s.tables.journal && r.state.tables.effects == s.tables.effects
      && !ClaimsMissing(r.state.tables, e.eventId, e.logicalKey)
      && (r.out.Returned? || r.out == IntegrityError)
  {
    hide EffectByKey, LatestIntent, HasIntentId, OneRowPerOccurrence, OneEffectPerKey, OneIntentPerKey;
    var r := IntentCreate(s, e);
    if r.out.Returned? {
      var row := r.state.tables.intents[|s.tables.intents|];
      assert r.state.tables.intents == s.tables.intents + [row];
      NewIntentKeepsOne(s.tables.intents, row);
      O.LatestAfterAppend(s.tables.intents, row, e.eventId, e.logicalKey);
    }
  }

  lemma OutboxLeaves(s: State, e: Event)
    ensures Leaves(IntentOutbox, s, e, Outbox(s, e))
  {
    hide EffectByKey, LatestIntent, SettleIntent, IntentCreate, CompleteRows,
         OneRowPerOccurrence, OneEffectPerKey, OneIntentPerKey, EffectNamed;
    var intent := LatestIntent(s.tables.intents, e.eventId, e.logicalKey);
    var effect := EffectByKey(s.tables.effects, e.eventId, e.logicalKey);
    if effect.Some? {
      FoundEffectIsNamed(s.tables.effects, e.eventId, e.logicalKey);
      if intent.Some? && !intent.value.completed {
        CompletingKeepsOne(s.tables.intents, intent.value.intentId, effect.value.effectId);
      }
    } else if intent.None? {
      CreatedIntentIsOpen(s, e);
      var r := IntentCreate(s, e);
      if r.out.Returned? { SettleIntentLeaves(r.state, e, r.out.value); }
    } else if !ClaimsMissing(s.tables, e.eventId, e.logicalKey) {
      SettleIntentLeaves(s, e, intent.value.intentId);
    }
  }

  lemma S5Leaves(f: Flow, s: State, e: Event)
    requires Repaired(f)
    ensures Leaves(f, s, e, S5(f, s, e))
  {
    hide Leaves, Outbox;
    if f.IntentOutbox? { OutboxLeaves(s, e); } else { LogicalLeaves(s, e); }
  }

  // ---------------------------------------------------------------- deliveries

  ghost predicate DeliveryLeaves(f: Flow, t: Tables, id: EventId, sequence: int, r: Result<EffectId>) {
    && KeepsOnce(t, r.state.tables)
    && r.state.tables.journal == t.journal
    && (r.out.Returned? ==> r.state.tables.cursor == sequence)
    && if f.IntentOutbox? && ClaimsMissing(t, id, SETTLEMENT)
       then r.state.tables.effects == t.effects
       else r.out.Returned? ==>
         && EffectByKey(r.state.tables.effects, id, SETTLEMENT).Some?
         && (OneEffectPerKey(t.effects) ==> EffectNamed(r.state.tables.effects, r.out.value, id, SETTLEMENT))
  }

  lemma DeliverLeaves(f: Flow, s: State, id: EventId, sequence: int)
    requires Repaired(f)
    ensures var r := Deliver(f, s, id, sequence);
      && DeliveryLeaves(f, s.tables, id, sequence, r)
      && (f.IntentOutbox? && ClaimsMissing(s.tables, id, SETTLEMENT) ==> r.out.Returned? || r.out.Refused?)
      && (f.IntentOutbox? && !ClaimsMissing(s.tables, id, SETTLEMENT) ==> !ClaimsMissing(r.state.tables, id, SETTLEMENT))
  {
    hide S5, EffectByKey, LatestIntent, RowOf, OneRowPerOccurrence, OneEffectPerKey, OneIntentPerKey, EffectNamed;
    var loaded := Load(s, id);
    if loaded.out.Returned? { S5Leaves(f, loaded.state, loaded.out.value); }
  }

  lemma LeavesInSteps(f: Flow, t: Tables, t1: Tables, id: EventId, sequence: int, r: Result<EffectId>)
    requires KeepsOnce(t, t1) && t1.journal == t.journal && DeliveryLeaves(f, t1, id, sequence, r)
    requires f.IntentOutbox? ==> !ClaimsMissing(t, id, SETTLEMENT) && !ClaimsMissing(t1, id, SETTLEMENT)
    ensures DeliveryLeaves(f, t, id, sequence, r)
  {
    hide ClaimsMissing, OneRowPerOccurrence, OneEffectPerKey, OneIntentPerKey, EffectNamed, EffectByKey;
  }

  lemma {:induction false} DeliverFromLeaves(f: Flow, s: State, id: EventId, sequence: int, attempts: nat, budget: int, retry: bool)
    requires Repaired(f)
    ensures DeliveryLeaves(f, s.tables, id, sequence, DeliverFrom(f, s, id, sequence, attempts, budget, retry))
    decreases PendingCutpoints(s), budget - attempts
  {
    hide Deliver, ClaimsMissing, OneRowPerOccurrence, OneEffectPerKey, OneIntentPerKey, EffectNamed, EffectByKey;
    if attempts < budget {
      DeliverLeaves(f, s, id, sequence);
      var r := Deliver(f, s, id, sequence);
      var whole := DeliverFrom(f, s, id, sequence, attempts, budget, retry);
      if r.out.TransientFault? && retry && attempts + 1 < budget {
        DeliverFromLeaves(f, Tick(r.state), id, sequence, attempts + 1, budget, retry);
        LeavesInSteps(f, s.tables, r.state.tables, id, sequence, whole);
      } else if r.out.CutAt? {
        DeliverFromLeaves(f, Restart(r.state), id, sequence, 0, budget, retry);
        LeavesInSteps(f, s.tables, r.state.tables, id, sequence, whole);
      }
    }
  }

  /**
   From any store without two effects under one key, a delivery that returns leaves the cursor at its
   sequence, and exactly one settlement effect for its event if and only if it did not run the outbox into
   an intent that claims an effect that is not there. Under the logical identity it always does.
   */
  lemma DeliveryLeavesExactlyOneEffect(f: Flow, s: State, id: EventId, sequence: int, budget: int, retry: bool)
    requires Repaired(f) && OneEffectPerKey(s.tables.effects)
    ensures var r := DeliverEvent(f, s, id, sequence, budget, retry);
      r.out.Returned? ==>
        && r.state.tables.cursor == sequence
        && (CountEffects(r.state.tables.effects, id, SETTLEMENT) == 1 <==>
              !(f.IntentOutbox? && ClaimsMissing(s.tables, id, SETTLEMENT)))
        && (CountEffects(r.state.tables.effects, id, SETTLEMENT) == 1 ==>
              EffectNamed(r.state.tables.effects, r.out.value, id, SETTLEMENT))
  {
    hide DeliverFrom, OneEffectPerKey, OneRowPerOccurrence, OneIntentPerKey, EffectNamed, EffectByKey, LatestIntent;
    DeliverFromLeaves(f, s, id, sequence, 0, budget, retry);
    var r := DeliverEvent(f, s, id, sequence, budget, retry);
    CountIsOne(r.state.tables.effects, id, SETTLEMENT);
  }

  // ---------------------------------------------------------------- when a delivery returns

  // Generated ids carry the tick they were made at, and the clock never goes back.
  ghost predicate IdsOld(s: State) {
    && (forall i :: 0 <= i < |s.tables.effects| && s.tables.effects[i].effectId.EffectId? ==>
          s.tables.effects[i].effectId.tick <= s.tick)
    && (forall i :: 0 <= i < |s.tables.intents| ==> s.tables.intents[i].intentId.tick <= s.tick)
  }

  // The next s5 call has an effect to commit: there is none, and the outbox is not told otherwise.
  predicate Unsettled(f: Flow, t: Tables, id: EventId, key: string) {
    EffectByKey(t.effects, id, key).None? && !(f.IntentOutbox? && ClaimsMissing(t, id, key))
  }

  // The transient fault hits the first attempt at it.
  predicate FaultFires(f: Flow, s: State, id: EventId, key: string) {
    s.faults.transient && Attempts(s, id) == 0 && Unsettled(f, s.tables, id, key)
  }

  ghost predicate Adds(t: Tables, t': Tables, id: EventId, key: string) {
    && |t'.effects| == |t.effects| + 1
    && (var row := t'.effects[|t.effects|];
        t'.effects == t.effects + [row] && row.sourceEvent == id && row.logicalKey == key && row.amount == EFFECT_AMOUNT)
  }

  // One attempt: answered without an effect, deferred by the fault, or committed and perhaps cut.
  ghost predicate Tried(f: Flow, s: State, id: EventId, key: string, r: Result<EffectId>) {
    && IdsOld(r.state) && s.tick <= r.state.tick && r.state.tables.journal == s.tables.journal
    && if !Unsettled(f, s.tables, id, key) then
         && r.out.Returned? && r.state.tables.effects == s.tables.effects
         && r.state.faults == s.faults && r.state.attempts == s.attempts
       else if FaultFires(f, s, id, key) then
         && r.out == TransientFault && r.state.tables.effects == s.tables.effects
         && r.state.faults == s.faults.(transient := false) && Unsettled(f, r.state.tables, id, key)
       else
         && (if s.faults.s5Cutpoint then r.out.CutAt? else r.out.Returned?)
         && Adds(s.tables, r.state.tables, id, key) && r.state.faults == s.faults.(s5Cutpoint := false)
  }

  lemma NewIdIsNew(effects: seq<EffectRow>, now: nat, id: EffectId)
    requires forall i :: 0 <= i < |effects| && effects[i].effectId.EffectId? ==> effects[i].effectId.tick <= now
    requires id.EffectId? && now < id.tick
    ensures !HasEffectId(effects, id)
  {
  }

  lemma SettleTried(s: State, e: Event)
    requires IdsOld(s)
    ensures var r := Settle(s, e);
      && IdsOld(r.state) && s.tick <= r.state.tick
      && r.state.tables.journal == s.tables.journal && r.state.tables.intents == s.tables.intents
      && if s.faults.transient && Attempts(s, e.eventId) == 0 then
           && r.out == TransientFault && r.state.tables == s.tables && r.state.faults == s.faults.(transient := false)
         else
           && (if s.faults.s5Cutpoint then r.out.CutAt? else r.out.Returned?)
           && Adds(s.tables, r.state.tables, e.eventId, e.logicalKey) && r.state.faults == s.faults.(s5Cutpoint := false)
  {
    hide HasEffectId;
    var id := EffectId(e.eventId, e.occurrenceId, e.logicalKey, s.tick + 1, s.workloadId);
    NewIdIsNew(s.tables.effects, s.tick, id);
  }

  lemma LogicalTried(s: State, e: Event)
    requires IdsOld(s)
    ensures Tried(LogicalIdentity, s, e.eventId, e.logicalKey, S5(LogicalIdentity, s, e))
  {
    hide EffectByKey, LatestIntent, Settle, IdsOld;
    SettleTried(s, e);
  }

  lemma CompletingKeepsIdsOld(s: State, id: IntentId, effect: EffectId)
    requires IdsOld(s)
    ensures IdsOld(IntentComplete(s, id, effect))
  {
  }

  lemma SettleIntentTried(s: State, e: Event, id: IntentId)
    requires IdsOld(s) && Unsettled(IntentOutbox, s.tables, e.eventId, e.logicalKey)
    ensures Tried(IntentOutbox, s, e.eventId, e.logicalKey, SettleIntent(s, e, id))
  {
    hide EffectByKey, LatestIntent, Settle, IdsOld, IntentComplete;
    SettleTried(s, e);
    var r := Settle(s, e);
    if r.out.Returned? {
      CompletingKeepsIdsOld(r.state, id, r.out.value);
      CompletingKeepsRest(r.state, id, r.out.value);
    }
  }

  lemma CompletingKeepsRest(s: State, id: IntentId, effect: EffectId)
    ensures var t := IntentComplete(s, id, effect);
      && t.tables.journal == s.tables.journal && t.tables.effects == s.tables.effects
      && t.faults == s.faults && t.attempts == s.attempts && s.tick <= t.tick
  {
  }

  lemma CreatingSucceeds(s: State, e: Event)
    requires IdsOld(s)
    ensures var r := IntentCreate(s, e);
      && r.out.Returned? && IdsOld(r.state) && r.state.faults == s.faults && r.state.attempts == s.attempts
      && s.tick <= r.state.tick
  {
  }

  lemma OutboxTried(s: State, e: Event)
    requires IdsOld(s)
    ensures Tried(IntentOutbox, s, e.eventId, e.logicalKey, Outbox(s, e))
  {
    hide EffectByKey, LatestIntent, SettleIntent, IntentCreate, IntentComplete, IdsOld, Adds;
    var intent := LatestIntent(s.tables.intents, e.eventId, e.logicalKey);
    var effect := EffectByKey(s.tables.effects, e.eventId, e.logicalKey);
    if effect.Some? {
      if intent.Some? && !intent.value.completed {
        CompletingKeepsIdsOld(s, intent.value.intentId, effect.value.effectId);
        CompletingKeepsRest(s, intent.value.intentId, effect.value.effectId);
      }
    } else if intent.None? {
      CreatingSucceeds(s, e);
      CreatedIntentIsOpen(s, e);
      var r := IntentCreate(s, e);
      SettleIntentTried(r.state, e, r.out.value);
      TriedLater(s, r.state, e.eventId, e.logicalKey, SettleIntent(r.state, e, r.out.value));
    } else if !ClaimsMissing(s.tables, e.eventId, e.logicalKey) {
      SettleIntentTried(s, e, intent.value.intentId);
    }
  }

  // Opening the intent first makes no difference to the attempt.
  lemma TriedLater(s: State, t: State, id: EventId, key: string, r: Result<EffectId>)
    requires Tried(IntentOutbox, t, id, key, r) && s.tick <= t.tick
    requires Unsettled(IntentOutbox, s.tables, id, key) && Unsettled(IntentOutbox, t.tables, id, key)
    requires t.tables.effects == s.tables.effects && t.tables.journal == s.tables.journal
    requires t.faults == s.faults && t.attempts == s.attempts
    ensures Tried(IntentOutbox, s, id, key, r)
  {
    hide EffectByKey, LatestIntent, IdsOld;
  }

  lemma S5Tried(f: Flow, s: State, e: Event)
    requires Repaired(f) && IdsOld(s)
    ensures Tried(f, s, e.eventId, e.logicalKey, S5(f, s, e))
  {
    hide Tried, Outbox;
    if f.IntentOutbox? { OutboxTried(s, e); } else { LogicalTried(s, e); }
  }

  lemma DeliverTried(f: Flow, s: State, id: EventId, sequence: int)
    requires Repaired(f) && IdsOld(s) && RowOf(s.tables.journal, id).Some?
    ensures Tried(f, s, id, SETTLEMENT, Deliver(f, s, id, sequence))
    ensures Deliver(f, s, id, sequence).out.Returned? ==> Deliver(f, s, id, sequence).state.tables.cursor == sequence
  {
    hide S5, EffectByKey, LatestIntent, RowOf;
    var loaded := Load(s, id);
    S5Tried(f, loaded.state, loaded.out.value);
  }

  // A whole delivery: it is answered, or refused with nothing committed.
  ghost predicate Ends(f: Flow, s: State, id: EventId, sequence: int, answered: bool, r: Result<EffectId>) {
    && IdsOld(r.state) && s.tick <= r.state.tick && r.state.tables.journal == s.tables.journal
    && (if answered then r.out.Returned? && r.state.tables.cursor == sequence else r.out == Refused)
    && (if answered && Unsettled(f, s.tables, id, SETTLEMENT) then Adds(s.tables, r.state.tables, id, SETTLEMENT)
        else r.state.tables.effects == s.tables.effects)
    && (r.state.faults.transient ==> s.faults.transient) && (r.state.faults.s5Cutpoint ==> s.faults.s5Cutpoint)
    && (answered && FaultFires(f, s, id, SETTLEMENT) ==> !r.state.faults.transient)
    && (answered && !Unsettled(f, s.tables, id, SETTLEMENT) ==>
          r.state.faults == s.faults && r.state.attempts == s.attempts)
  }

  lemma SettledEnds(f: Flow, s: State, id: EventId, sequence: int, attempts: nat, budget: int, retry: bool)
    requires Repaired(f) && IdsOld(s) && RowOf(s.tables.journal, id).Some?
    requires attempts < budget && !Unsettled(f, s.tables, id, SETTLEMENT)
    ensures Ends(f, s, id, sequence, true, DeliverFrom(f, s, id, sequence, attempts, budget, retry))
  {
    hide Deliver, Unsettled, RowOf, IdsOld, Adds;
    DeliverTried(f, s, id, sequence);
  }

  lemma AddedIsSettled(f: Flow, t: Tables, t': Tables, id: EventId, key: string)
    requires Adds(t, t', id, key)
    ensures !Unsettled(f, t', id, key)
  {
    hide EffectByKey, LatestIntent;
    EffectByKeyAppend(t.effects, t'.effects[|t.effects|], id, key);
  }

  lemma UnfiredEnds(f: Flow, s: State, id: EventId, sequence: int, attempts: nat, budget: int, retry: bool)
    requires Repaired(f) && IdsOld(s) && RowOf(s.tables.journal, id).Some?
    requires attempts < budget && Unsettled(f, s.tables, id, SETTLEMENT) && !FaultFires(f, s, id, SETTLEMENT)
    ensures Ends(f, s, id, sequence, true, DeliverFrom(f, s, id, sequence, attempts, budget, retry))
  {
    hide Deliver, Unsettled, RowOf;
    DeliverTried(f, s, id, sequence);
    var r := Deliver(f, s, id, sequence);
    if s.faults.s5Cutpoint {
      AddedIsSettled(f, s.tables, r.state.tables, id, SETTLEMENT);
      SettledEnds(f, Restart(r.state), id, sequence, 0, budget, retry);
    }
  }

  /**
   When a delivery of a journalled event returns, from any store whose generated ids are of the past: the
   budget is at least one, and if the transient fault is going to fire, retrying is on and the budget is at
   least two. Then it leaves the cursor at its sequence and adds the one effect that was missing, if one
   was; otherwise it is refused and adds nothing. The fault fires on the first attempt at an event that has
   no settlement effect and, under the outbox, no intent that claims to have one.
   */
  lemma DeliveryReturnsExactlyWhen(f: Flow, s: State, id: EventId, sequence: int, budget: int, retry: bool)
    requires Repaired(f) && IdsOld(s) && RowOf(s.tables.journal, id).Some?
    ensures Ends(f, s, id, sequence, 1 <= budget && (FaultFires(f, s, id, SETTLEMENT) ==> retry && 2 <= budget),
                 DeliverEvent(f, s, id, sequence, budget, retry))
  {
    hide Deliver, Unsettled, RowOf;
    if budget < 1 {
    } else if !Unsettled(f, s.tables, id, SETTLEMENT) {
      SettledEnds(f, s, id, sequence, 0, budget, retry);
    } else if !FaultFires(f, s, id, SETTLEMENT) {
      UnfiredEnds(f, s, id, sequence, 0, budget, retry);
    } else {
      DeliverTried(f, s, id, sequence);
      var r := Deliver(f, s, id, sequence);
      if retry && 2 <= budget {
        UnfiredEnds(f, Tick(r.state), id, sequence, 1, budget, retry);
      }
    }
  }

  // ---------------------------------------------------------------- whole schedules

  lemma CallKeepsOnce(f: Flow, s: State, call: Call)
    requires Repaired(f)
    ensures KeepsOnce(s.tables, Perform(f, s, call).state.tables)
  {
    hide AcceptCommand, DeliverFrom, S5, RowOf, OneRowPerOccurrence, OneEffectPerKey, OneIntentPerKey, EffectByKey,
         LatestIntent, EffectNamed;
    match call
    case AcceptCall(c, retry) => AcceptCommandKeepsOnce(f, s, c, retry);
    case DeliverCall(i, n, budget, retry) =>
      if i < |s.tables.journal| { DeliverFromLeaves(f, s, s.tables.journal[i].eventId, n, 0, budget, retry); }
    case EmitCall(i, key) =>
      if i < |s.tables.journal| {
        var loaded := Load(s, s.tables.journal[i].eventId);
        if loaded.out.Returned? { S5Leaves(f, loaded.state, loaded.out.value.(logicalKey := key)); }
      }
    case WorkerRestart =>
    case StartRun(_, _) =>
  }

  /**
   Exactly once, over every schedule and from any store without duplicates: no occurrence gets a second
   row and no (event, key) a second effect, nor, if it had no two intents, a second intent.
   */
  lemma {:induction false} ExactlyOnceOverEverySchedule(s: State, calls: seq<(Flow, Call)>)
    requires Once(s.tables) && AllRepaired(calls)
    ensures Once(RunAll(s, calls).state.tables)
    ensures OneIntentPerKey(s.tables.intents) ==> OneIntentPerKey(RunAll(s, calls).state.tables.intents)
    decreases |calls|
  {
    hide Perform, OneRowPerOccurrence, OneEffectPerKey, OneIntentPerKey;
    if calls != [] {
      var front := calls[..|calls| - 1];
      var (f, call) := calls[|calls| - 1];
      ExactlyOnceOverEverySchedule(s, front);
      CallKeepsOnce(f, RunAll(s, front).state, call);
    }
  }
}

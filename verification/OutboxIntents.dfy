/**
 What the intent outbox adds to exactly-once: intents are written ahead. No effect is ever without its
 intent, and a delivery that returns leaves the intent completed with the effect it returns.
 */
module OutboxIntents {
  import opened Wrappers
  import opened Settlement
  import opened Flows
  import opened Ledger
  import opened RepairInvariant
  import opened RepairRefinement
  import opened ExactlyOnce

  // The intent of an event and key, if there is one, is completed with this effect.
  ghost predicate Fulfilled(intents: seq<IntentRow>, id: EventId, key: string, effect: EffectId) {
    match LatestIntent(intents, id, key)
    case None => true
    case Some(i) => i.completed && i.effectId == Some(effect)
  }

  // Every effect has an intent.
  ghost predicate Intended(effects: seq<EffectRow>, intents: seq<IntentRow>) {
    forall i :: 0 <= i < |effects| ==> LatestIntent(intents, effects[i].sourceEvent, effects[i].logicalKey).Some?
  }

  // ---------------------------------------------------------------- intents in the table

  lemma {:induction false} LatestAfterComplete(intents: seq<IntentRow>, iid: IntentId, effect: EffectId, id: EventId, key: string)
    ensures LatestIntent(CompleteRows(intents, iid, effect), id, key) ==
      match LatestIntent(intents, id, key)
      case None => None
      case Some(i) => Some(if i.intentId == iid then i.(completed := true, effectId := Some(effect)) else i)
  {
    if intents != [] {
      var front := intents[..|intents| - 1];
      LatestAfterComplete(front, iid, effect, id, key);
      assert CompleteRows(intents, iid, effect)[..|intents| - 1] == CompleteRows(front, iid, effect);
    }
  }

  lemma LatestAfterAppend(intents: seq<IntentRow>, row: IntentRow, id: EventId, key: string)
    ensures LatestIntent(intents + [row], id, key) ==
      if row.sourceEvent == id && row.logicalKey == key then Some(row) else LatestIntent(intents, id, key)
  {
    assert (intents + [row])[..|intents|] == intents;
  }

  lemma CompletingKeepsIntended(effects: seq<EffectRow>, intents: seq<IntentRow>, iid: IntentId, effect: EffectId)
    requires Intended(effects, intents)
    ensures Intended(effects, CompleteRows(intents, iid, effect))
  {
    hide LatestIntent, CompleteRows;
    forall i | 0 <= i < |effects|
      ensures LatestIntent(CompleteRows(intents, iid, effect), effects[i].sourceEvent, effects[i].logicalKey).Some?
    {
      LatestAfterComplete(intents, iid, effect, effects[i].sourceEvent, effects[i].logicalKey);
    }
  }

  lemma AppendingKeepsIntended(effects: seq<EffectRow>, intents: seq<IntentRow>, row: IntentRow)
    requires Intended(effects, intents)
    ensures Intended(effects, intents + [row])
  {
    hide LatestIntent;
    forall i | 0 <= i < |effects|
      ensures LatestIntent(intents + [row], effects[i].sourceEvent, effects[i].logicalKey).Some?
    {
      LatestAfterAppend(intents, row, effects[i].sourceEvent, effects[i].logicalKey);
    }
  }

  // ---------------------------------------------------------------- one s5 call

  lemma SettleAddsOnlyIts(s: State, e: Event)
    ensures var r := Settle(s, e);
      && r.state.tables.intents == s.tables.intents
      && (r.state.tables.effects == s.tables.effects ||
          exists row: EffectRow :: r.state.tables.effects == s.tables.effects + [row]
            && row.sourceEvent == e.eventId && row.logicalKey == e.logicalKey)
  {
    hide HasEffectId;
  }

  lemma SettleKeepsIntended(s: State, e: Event)
    requires Intended(s.tables.effects, s.tables.intents)
    requires LatestIntent(s.tables.intents, e.eventId, e.logicalKey).Some?
    ensures Intended(Settle(s, e).state.tables.effects, Settle(s, e).state.tables.intents)
  {
    hide Settle, LatestIntent;
    SettleAddsOnlyIts(s, e);
  }

  lemma SettleIntentWritesAhead(s: State, e: Event, iid: IntentId)
    requires Intended(s.tables.effects, s.tables.intents)
    requires LatestIntent(s.tables.intents, e.eventId, e.logicalKey).Some?
    requires LatestIntent(s.tables.intents, e.eventId, e.logicalKey).value.intentId == iid
    ensures var r := SettleIntent(s, e, iid);
      && Intended(r.state.tables.effects, r.state.tables.intents)
      && (r.out.Returned? ==> Fulfilled(r.state.tables.intents, e.eventId, e.logicalKey, r.out.value))
  {
    hide Settle, LatestIntent, CompleteRows, Intended;
    SettleKeepsIntended(s, e);
    SettleAddsOnlyIts(s, e);
    var r := Settle(s, e);
    if r.out.Returned? {
      CompletingKeepsIntended(r.state.tables.effects, r.state.tables.intents, iid, r.out.value);
      LatestAfterComplete(r.state.tables.intents, iid, r.out.value, e.eventId, e.logicalKey);
    }
  }

  lemma CompletedNamesTheEffect(s: State, id: EventId, key: string)
    requires Inv(s) && EffectByKey(s.tables.effects, id, key).Some?
    requires LatestIntent(s.tables.intents, id, key).Some? && LatestIntent(s.tables.intents, id, key).value.completed
    ensures LatestIntent(s.tables.intents, id, key).value.effectId == Some(EffectByKey(s.tables.effects, id, key).value.effectId)
  {
    var intent, row := LatestIntent(s.tables.intents, id, key).value, EffectByKey(s.tables.effects, id, key).value;
    var k :| 0 <= k < |s.tables.intents| && s.tables.intents[k] == intent;
    var n :| 0 <= n < |s.tables.effects| && s.tables.effects[n].effectId == intent.effectId.value
      && s.tables.effects[n].sourceEvent == id && s.tables.effects[n].logicalKey == key;
    var m :| 0 <= m < |s.tables.effects| && s.tables.effects[m] == row;
    assert n == m;
  }

  lemma CreatedIntent(s: State, e: Event)
    ensures var r := IntentCreate(s, e);
      && r.state.tables.effects == s.tables.effects
      && (r.out.Returned? ==>
            && LatestIntent(r.state.tables.intents, e.eventId, e.logicalKey).Some?
            && LatestIntent(r.state.tables.intents, e.eventId, e.logicalKey).value.intentId == r.out.value)
      && (!r.out.Returned? ==> r.state.tables.intents == s.tables.intents && r.out == IntegrityError)
      && (Intended(s.tables.effects, s.tables.intents) ==> Intended(r.state.tables.effects, r.state.tables.intents))
  {
    hide LatestIntent, Intended, HasIntentId;
    var r := IntentCreate(s, e);
    if r.out.Returned? {
      var row := r.state.tables.intents[|s.tables.intents|];
      assert r.state.tables.intents == s.tables.intents + [row];
      LatestAfterAppend(s.tables.intents, row, e.eventId, e.logicalKey);
      if Intended(s.tables.effects, s.tables.intents) {
        AppendingKeepsIntended(s.tables.effects, s.tables.intents, row);
      }
    }
  }

  /** One outbox s5 call writes its intent ahead of its effect, and if it returns, the intent is fulfilled. */
  lemma OutboxWritesAhead(s: State, e: Event)
    requires Inv(s) && Intended(s.tables.effects, s.tables.intents)
    ensures var r := Outbox(s, e);
      && Intended(r.state.tables.effects, r.state.tables.intents)
      && (r.out.Returned? ==> Fulfilled(r.state.tables.intents, e.eventId, e.logicalKey, r.out.value))
  {
    hide Inv, LatestIntent, EffectByKey, SettleIntent, IntentCreate, Intended, CompleteRows;
    var intent := LatestIntent(s.tables.intents, e.eventId, e.logicalKey);
    var effect := EffectByKey(s.tables.effects, e.eventId, e.logicalKey);
    if effect.Some? {
      if intent.Some? && !intent.value.completed {
        CompletingKeepsIntended(s.tables.effects, s.tables.intents, intent.value.intentId, effect.value.effectId);
        LatestAfterComplete(s.tables.intents, intent.value.intentId, effect.value.effectId, e.eventId, e.logicalKey);
      } else if intent.Some? {
        CompletedNamesTheEffect(s, e.eventId, e.logicalKey);
      }
    } else if intent.None? {
      CreatedIntent(s, e);
      var r := IntentCreate(s, e);
      if r.out.Returned? { SettleIntentWritesAhead(r.state, e, r.out.value); }
    } else {
      SettleIntentWritesAhead(s, e, intent.value.intentId);
    }
  }

  // ---------------------------------------------------------------- deliveries

  lemma DeliverWritesAhead(s: State, i: nat, sequence: int)
    requires Inv(s) && i < |s.tables.journal| && Intended(s.tables.effects, s.tables.intents)
    ensures var id := s.tables.journal[i].eventId; var r := Deliver(IntentOutbox, s, id, sequence);
      && Intended(r.state.tables.effects, r.state.tables.intents)
      && (r.out.Returned? ==> Fulfilled(r.state.tables.intents, id, SETTLEMENT, r.out.value))
  {
    hide Inv, Outbox, Load, Intended, Fulfilled, Represents;
    MeaningRepresents(s);
    SameFaults(Meaning(s), s);
    LoadFinds(Meaning(s), s, i);
    TickKeeps(Meaning(s), s);
    var loaded := Load(s, s.tables.journal[i].eventId);
    OutboxWritesAhead(loaded.state, loaded.out.value);
  }

  /**
   The whole delivery loop, through deferrals, cuts and restarts: no effect without its intent, and a
   delivery that returns leaves the settlement intent completed with the effect it returns.
   */
  lemma {:induction false} DeliveryFulfilsIntent(s: State, i: nat, sequence: int, attempts: nat, budget: int, retry: bool)
    requires Inv(s) && i < |s.tables.journal| && Intended(s.tables.effects, s.tables.intents)
    ensures var id := s.tables.journal[i].eventId;
      var r := DeliverFrom(IntentOutbox, s, id, sequence, attempts, budget, retry);
      && Intended(r.state.tables.effects, r.state.tables.intents)
      && (r.out.Returned? ==> Fulfilled(r.state.tables.intents, id, SETTLEMENT, r.out.value))
    decreases PendingCutpoints(s), budget - attempts
  {
    hide Inv, Deliver, Intended, Fulfilled, Represents;
    if attempts < budget {
      var id := s.tables.journal[i].eventId;
      MeaningRepresents(s);
      SameFaults(Meaning(s), s);
      DeliverAttempts(IntentOutbox, Meaning(s), s, i, sequence);
      DeliverWritesAhead(s, i, sequence);
      var r := Deliver(IntentOutbox, s, id, sequence);
      MeaningRepresents(r.state);
      TickKeeps(Meaning(r.state), r.state);
      RestartKeeps(Meaning(r.state), r.state);
      if r.out.TransientFault? && retry && attempts + 1 < budget {
        DeliveryFulfilsIntent(Tick(r.state), i, sequence, attempts + 1, budget, retry);
      } else if r.out.CutAt? {
        DeliveryFulfilsIntent(Restart(r.state), i, sequence, 0, budget, retry);
      }
    }
  }

  // ---------------------------------------------------------------- whole schedules

  lemma AcceptKeepsEffects(f: Flow, s: State, c: Command)
    ensures Accept(f, s, c).state.tables.effects == s.tables.effects
    ensures Accept(f, s, c).state.tables.intents == s.tables.intents
  {
    hide FirstRow, RowOf, MaxSeq;
  }

  lemma AcceptCommandKeepsEffects(f: Flow, s: State, c: Command, retry: bool)
    ensures AcceptCommand(f, s, c, retry).state.tables.effects == s.tables.effects
    ensures AcceptCommand(f, s, c, retry).state.tables.intents == s.tables.intents
  {
    hide Accept;
    AcceptKeepsEffects(f, s, c);
    AcceptKeepsEffects(f, Accept(f, s, c).state, c);
  }

  lemma CallWritesAhead(s: State, call: Call)
    requires Inv(s) && Intended(s.tables.effects, s.tables.intents)
    ensures var t := Perform(IntentOutbox, s, call).state; Intended(t.tables.effects, t.tables.intents)
  {
    hide Inv, AcceptCommand, Outbox, Load, Intended, Represents, DeliverFrom;
    match call
    case AcceptCall(c, retry) => AcceptCommandKeepsEffects(IntentOutbox, s, c, retry);
    case DeliverCall(i, n, budget, retry) =>
      if i < |s.tables.journal| { DeliveryFulfilsIntent(s, i, n, 0, budget, retry); }
    case EmitCall(i, key) =>
      if i < |s.tables.journal| {
        MeaningRepresents(s);
        SameFaults(Meaning(s), s);
        LoadFinds(Meaning(s), s, i);
        TickKeeps(Meaning(s), s);
        var loaded := Load(s, s.tables.journal[i].eventId);
        OutboxWritesAhead(loaded.state, loaded.out.value.(logicalKey := key));
      }
    case WorkerRestart =>
    case StartRun(_, _) =>
  }

  /** Over every schedule under the outbox, every effect in the table has its intent. */
  lemma {:induction false} OutboxNeverSkipsIntent(s: State, calls: seq<Call>)
    requires Inv(s) && Intended(s.tables.effects, s.tables.intents)
    ensures var t := RunAll(s, Under(IntentOutbox, calls)).state; Intended(t.tables.effects, t.tables.intents)
  {
    hide Inv, Intended, Perform;
    if calls != [] {
      var front := calls[..|calls| - 1];
      OutboxNeverSkipsIntent(s, front);
      assert Under(IntentOutbox, calls)[..|calls| - 1] == Under(IntentOutbox, front);
      InvariantOverEverySchedule(s, Under(IntentOutbox, front));
      CallWritesAhead(RunAll(s, Under(IntentOutbox, front)).state, calls[|calls| - 1]);
    }
  }
}

/**
 The runtime store and engine as the program runs them: an object whose fields the calls update, a
 delivery loop over an attempt counter, and the public-workload loops. Every method is proved to
 move the object's state as the function of the same name in `Settlement`, `Flows` or `Verdict`.
 */
module Runtime {
  import opened Wrappers
  import S = Settlement
  import opened Flows
  import V = Verdict
  import C = Counting
  import I = RepairInvariant
  import X = ExactlyOnce
  import A = FromAnyStore
  import N = SaneStore
  import H = StoreHistory

  class RuntimeStore {
    var tick: nat
    var journal: seq<S.JournalRow>
    var cursor: int
    var effects: seq<S.EffectRow>
    var intents: seq<S.IntentRow>
    var marks: map<(S.EventId, string), string>
    var commandKeys: map<(string, string), S.EventId>
    var attempts: map<S.EventId, nat>
    var s2Pending: bool
    var s5Pending: bool
    var transientPending: bool
    const workloadId: string

    function Tables(): S.Tables
      reads this
    {
      S.Tables(journal, cursor, effects, intents, marks, commandKeys)
    }

    function View(): S.State
      reads this
    {
      S.State(tick, Tables(), attempts, S.Faults(s2Pending, s5Pending, transientPending), workloadId)
    }

    /** A run starts over the durable tables with no attempts; the profile and the cutpoint arm the faults. */
    constructor (tick: nat, tables: S.Tables, profile: int, cutpoint: Option<string>, workloadId: string, transient: bool)
      ensures View() == S.State(tick, tables, map[],
        S.Faults(cutpoint == Some("s2.exit") && profile == 1, cutpoint == Some("s5.exit") && profile == 0,
                 transient && cutpoint.None?), workloadId)
      ensures !(s5Pending && transientPending) && !(s2Pending && s5Pending)
    {
      this.tick := tick;
      journal, cursor, effects := tables.journal, tables.cursor, tables.effects;
      intents, marks, commandKeys := tables.intents, tables.marks, tables.commandKeys;
      attempts := map[];
      s2Pending := cutpoint == Some("s2.exit") && profile == 1;
      s5Pending := cutpoint == Some("s5.exit") && profile == 0;
      transientPending := transient && cutpoint.None?;
      this.workloadId := workloadId;
    }

    method Advance()
      modifies this`tick
      ensures View() == S.Tick(old(View()))
    {
      tick := tick + 1;
    }

    method Append(command: S.Command) returns (out: S.Outcome<S.EventId>)
      modifies this
      ensures S.Result(View(), out) == S.Append(old(View()), command)
    {
      Advance();
      if S.Conflicts(Tables(), command) { return S.Refused; }
      var id := S.EventId.EventId(command.commandKey, command.occurrenceId, tick, workloadId);
      if S.RowOf(journal, id).Some? { return S.IntegrityError; }
      journal := journal + [S.JournalRow(S.MaxSeq(journal) + 1, id, command.commandKey, command.occurrenceId,
                                         S.PayloadHash.PayloadHash(command), tick)];
      if s2Pending {
        s2Pending := false;
        return S.CutAt(id);
      }
      out := S.Returned(id);
    }

    method Register(command: S.Command, id: S.EventId) returns (out: S.Outcome<()>)
      modifies this
      ensures S.Result(View(), out) == S.Register(old(View()), command, id)
      ensures if out.Returned? then H.Binds(old(Tables()), Tables(), command.Pair(), id) else Tables() == old(Tables())
    {
      hide S.FirstRow;
      H.RegisterBinds(View(), command, id);
      Advance();
      if S.Conflicts(Tables(), command) { return S.Refused; }
      commandKeys := commandKeys[command.Pair() := id];
      out := S.Returned(());
    }

    method Load(id: S.EventId) returns (out: S.Outcome<S.Event>)
      modifies this
      ensures S.Result(View(), out) == S.Load(old(View()), id)
    {
      Advance();
      var row := S.RowOf(journal, id);
      if row.None? { return S.Refused; }
      out := S.Returned(S.Event.Event(id, row.value.commandKey, row.value.occurrenceId, S.SETTLEMENT));
    }

    method Settle(event: S.Event) returns (out: S.Outcome<S.EffectId>)
      modifies this
      ensures S.Result(View(), out) == S.Settle(old(View()), event)
    {
      hide S.HasEffectId;
      var attempt := (if event.eventId in attempts then attempts[event.eventId] else 0) + 1;
      attempts := attempts[event.eventId := attempt];
      Advance();
      if transientPending && attempt == 1 {
        transientPending := false;
        return S.TransientFault;
      }
      var id := S.EffectId.EffectId(event.eventId, event.occurrenceId, event.logicalKey, tick, workloadId);
      if S.HasEffectId(effects, id) { return S.IntegrityError; }
      effects := effects + [S.EffectRow(id, event.occurrenceId, S.EFFECT_AMOUNT, event.logicalKey, event.eventId, tick)];
      if s5Pending {
        s5Pending := false;
        return S.CutAt(event.eventId);
      }
      out := S.Returned(id);
    }

    method AdvanceCursor(sequence: int)
      modifies this
      ensures View() == S.AdvanceCursor(old(View()), sequence)
    {
      Advance();
      cursor := sequence;
    }

    method Restart()
      modifies this
      ensures View() == S.Restart(old(View()))
    {
      attempts := map[];
      Advance();
    }

    method IntentCreate(event: S.Event) returns (out: S.Outcome<S.IntentId>)
      modifies this
      ensures S.Result(View(), out) == S.IntentCreate(old(View()), event)
    {
      Advance();
      var id := S.IntentId.IntentId(event.eventId, event.commandKey, event.occurrenceId, event.logicalKey, tick, workloadId);
      if S.HasIntentId(intents, id) { return S.IntegrityError; }
      intents := intents + [S.IntentRow(id, event.eventId, event.commandKey, event.occurrenceId, event.logicalKey, tick,
                                        false, None)];
      out := S.Returned(id);
    }

    method IntentComplete(id: S.IntentId, effect: S.EffectId)
      modifies this
      ensures View() == S.IntentComplete(old(View()), id, effect)
    {
      Advance();
      intents := S.CompleteRows(intents, id, effect);
    }

    method MarkEvent(id: S.EventId, key: string, value: string)
      modifies this
      ensures View() == S.Mark(old(View()), id, key, value)
    {
      Advance();
      marks := marks[(id, key) := value];
    }
  }

  // ---------------------------------------------------------------- the flows, stage by stage

  method RunS2(flow: Flow, command: S.Command, store: RuntimeStore) returns (out: S.Outcome<S.EventId>)
    modifies store
    ensures S.Result(store.View(), out) == S2(flow, old(store.View()), command)
  {
    if !flow.Baseline? {
      var existing := S.GetEventId(store.Tables(), command.Pair());
      if existing.Some? { return S.Returned(existing.value); }
    }
    out := store.Append(command);
  }

  method RunOutbox(event: S.Event, store: RuntimeStore) returns (out: S.Outcome<S.EffectId>)
    modifies store
    ensures S.Result(store.View(), out) == Outbox(old(store.View()), event)
  {
    var existing := S.EffectByKey(store.effects, event.eventId, event.logicalKey);
    var intent := S.LatestIntent(store.intents, event.eventId, event.logicalKey);
    if existing.Some? {
      if intent.Some? && !intent.value.completed {
        store.IntentComplete(intent.value.intentId, existing.value.effectId);
      }
      return S.Returned(existing.value.effectId);
    }
    if intent.Some? && intent.value.completed && intent.value.effectId.Some? {
      return S.Returned(intent.value.effectId.value);
    }
    var intentId;
    if intent.None? {
      var created := store.IntentCreate(event);
      if !created.Returned? { return S.IntegrityError; }
      intentId := created.value;
    } else {
      intentId := intent.value.intentId;
    }
    out := store.Settle(event);
    if out.Returned? { store.IntentComplete(intentId, out.value); }
  }

  method RunS5(flow: Flow, event: S.Event, store: RuntimeStore) returns (out: S.Outcome<S.EffectId>)
    modifies store
    ensures S.Result(store.View(), out) == S5(flow, old(store.View()), event)
  {
    match flow {
      case Baseline =>
      case BroadEventDedup =>
        var existing := S.EffectOf(store.effects, event.eventId);
        if existing.Some? { return S.Returned(existing.value.effectId); }
      case LogicalIdentity =>
        var existing := S.EffectByKey(store.effects, event.eventId, event.logicalKey);
        if existing.Some? { return S.Returned(existing.value.effectId); }
      case IntentOutbox =>
        out := RunOutbox(event, store);
        return;
    }
    out := store.Settle(event);
  }

  method RunAccept(flow: Flow, command: S.Command, store: RuntimeStore) returns (out: S.Outcome<S.EventId>)
    modifies store
    ensures S.Result(store.View(), out) == Accept(flow, old(store.View()), command)
  {
    store.Advance();
    out := RunS2(flow, command, store);
    if !out.Returned? { return; }
    var registered := store.Register(command, out.value);
    if !registered.Returned? { out := S.Refused; }
  }

  method RunDeliver(flow: Flow, id: S.EventId, sequence: int, store: RuntimeStore) returns (out: S.Outcome<S.EffectId>)
    modifies store
    ensures S.Result(store.View(), out) == Deliver(flow, old(store.View()), id, sequence)
  {
    hide S.RowOf, S5;
    var loaded := store.Load(id);
    if !loaded.Returned? { return S.Refused; }
    out := RunS5(flow, loaded.value, store);
    if out.Returned? { store.AdvanceCursor(sequence); }
  }

  // ---------------------------------------------------------------- the engine

  // A sane state that knows none of these distinct commands, and attempts enough for the fault it has armed.
  ghost predicate NewCommands(s: S.State, commands: seq<S.Command>, budget: int) {
    && N.Sane(s) && V.Enough(budget, s.faults)
    && commands != [] && C.Distinct(V.Pairs(commands)) && V.AllNew(s.tables, commands)
  }

  lemma NewCommandsPass(f: Flow, s: S.State, commands: seq<S.Command>, budget: int)
    requires Repaired(f) && NewCommands(s, commands, budget)
    ensures V.RunWorkload(f, s, commands, budget).out == S.Returned(true)
  {
    hide N.Sane, V.RunWorkload, V.AllNew;
    V.FreshWorkloadPassesTwice(f, f, s, commands, budget, "", s.faults);
  }

  class RuntimeEngine {
    const flow: Flow
    const store: RuntimeStore

    constructor (flow: Flow, store: RuntimeStore)
      ensures this.flow == flow && this.store == store
    {
      this.flow := flow;
      this.store := store;
    }

    method AcceptCommand(command: S.Command, retryAfterCut: bool) returns (out: S.Outcome<S.EventId>)
      modifies store
      ensures S.Result(store.View(), out) == Flows.AcceptCommand(flow, old(store.View()), command, retryAfterCut)
      ensures Repaired(flow) && old(I.OneRowPerOccurrence(store.journal)) ==> I.OneRowPerOccurrence(store.journal)
    {
      hide Accept, I.OneRowPerOccurrence, I.OneEffectPerKey, I.OneIntentPerKey;
      if Repaired(flow) { A.AcceptCommandKeepsOnce(flow, store.View(), command, retryAfterCut); }
      out := RunAccept(flow, command, store);
      if out.CutAt? {
        var id := out.event;
        if !retryAfterCut { return S.Returned(id); }
        out := RunAccept(flow, command, store);
        if out.Returned? { out := S.Returned(id); }
      }
    }

    /**
     The loop ends although a cutpoint sets the counter back: each cutpoint disarms itself first. Under the
     logical identity a delivery that returns leaves exactly one settlement effect for its event.
     */
    method DeliverEvent(id: S.EventId, sequence: int, budget: int, retry: bool) returns (out: S.Outcome<S.EffectId>)
      modifies store
      ensures S.Result(store.View(), out) == Flows.DeliverEvent(flow, old(store.View()), id, sequence, budget, retry)
      ensures flow.LogicalIdentity? && old(I.OneEffectPerKey(store.effects)) && out.Returned? ==>
        X.CountEffects(store.effects, id, S.SETTLEMENT) == 1 && store.cursor == sequence
    {
      hide Deliver, S.Tick, S.Restart, I.OneEffectPerKey, I.EffectNamed, A.ClaimsMissing;
      if Repaired(flow) && I.OneEffectPerKey(store.effects) {
        A.DeliveryLeavesExactlyOneEffect(flow, store.View(), id, sequence, budget, retry);
      }
      var attempts := 0;
      while attempts < budget
        invariant 0 <= attempts
        invariant DeliverFrom(flow, store.View(), id, sequence, attempts, budget, retry) ==
                  DeliverFrom(flow, old(store.View()), id, sequence, 0, budget, retry)
        decreases PendingCutpoints(store.View()), budget - attempts
      {
        attempts := attempts + 1;
        out := RunDeliver(flow, id, sequence, store);
        if out.TransientFault? {
          assert PendingCutpoints(S.Tick(store.View())) == PendingCutpoints(store.View()) by { TickKeepsPending(store.View()); }
          store.Advance();
          if !retry || attempts >= budget { return S.Refused; }
        } else if out.CutAt? {
          assert PendingCutpoints(S.Restart(store.View())) == PendingCutpoints(store.View()) by { TickKeepsPending(store.View()); }
          store.Restart();
          attempts := 0;
        } else {
          return;
        }
      }
      out := S.Refused;
    }

    method RunPublicWorkload(commands: seq<S.Command>, budget: int) returns (out: S.Outcome<bool>)
      modifies store
      ensures S.Result(store.View(), out) == V.RunWorkload(flow, old(store.View()), commands, budget)
      ensures Repaired(flow) && old(NewCommands(store.View(), commands, budget)) ==> out == S.Returned(true)
    {
      hide Flows.AcceptCommand, V.DeliverOne, C.DurableOutcome, NewCommands;
      if Repaired(flow) && NewCommands(store.View(), commands, budget) {
        NewCommandsPass(flow, store.View(), commands, budget);
      }
      var ids: seq<S.EventId> := [];
      for i := 0 to |commands|
        invariant V.Intake(store.View(), ids, S.Returned(())) == V.AcceptAll(flow, old(store.View()), commands[..i])
      {
        assert commands[..i + 1][..i] == commands[..i];
        var accepted := AcceptCommand(commands[i], true);
        if !accepted.Returned? {
          out := V.FailedAs(V.Void(accepted));
          StoppedIntake(flow, old(store.View()), commands, i + 1);
          return;
        }
        ids := ids + [accepted.value];
        store.Advance();
      }
      assert commands[..|commands|] == commands;
      label delivering:
      for i := 0 to |ids|
        invariant S.Result(store.View(), S.Returned(())) == V.DeliverAll(flow, old@delivering(store.View()), ids[..i], budget)
      {
        assert ids[..i + 1][..i] == ids[..i];
        var delivered := DeliverOne(ids[i], budget);
        if !delivered.Returned? {
          out := V.FailedAs(delivered);
          StoppedDelivery(flow, old@delivering(store.View()), ids, i + 1, budget);
          return;
        }
        assert delivered.value == ();
      }
      assert ids[..|ids|] == ids;
      out := S.Returned(C.DurableOutcome(store.Tables(), V.Pairs(commands), |commands|));
    }

    method DeliverOne(id: S.EventId, budget: int) returns (out: S.Outcome<()>)
      modifies store
      ensures S.Result(store.View(), out) == V.DeliverOne(flow, old(store.View()), id, budget)
    {
      hide Flows.DeliverEvent;
      var row := S.RowOf(store.journal, id);
      if row.None? { return S.Refused; }
      store.Advance();
      var delivered := DeliverEvent(id, row.value.seqNo, budget, true);
      out := V.Void(delivered);
      if delivered.Returned? { store.Advance(); }
    }
  }

  lemma TickKeepsPending(s: S.State)
    ensures PendingCutpoints(S.Tick(s)) == PendingCutpoints(s) == PendingCutpoints(S.Restart(s))
  {
  }

  lemma {:induction false} StoppedIntake(f: Flow, s: S.State, commands: seq<S.Command>, n: nat)
    requires n <= |commands| && !V.AcceptAll(f, s, commands[..n]).out.Returned?
    ensures V.AcceptAll(f, s, commands) == V.AcceptAll(f, s, commands[..n])
    decreases |commands| - n
  {
    if n == |commands| {
      assert commands[..n] == commands;
    } else {
      assert commands[..n + 1][..n] == commands[..n];
      StoppedIntake(f, s, commands, n + 1);
    }
  }

  lemma {:induction false} StoppedDelivery(f: Flow, s: S.State, ids: seq<S.EventId>, n: nat, budget: int)
    requires n <= |ids| && !V.DeliverAll(f, s, ids[..n], budget).out.Returned?
    ensures V.DeliverAll(f, s, ids, budget) == V.DeliverAll(f, s, ids[..n], budget)
    decreases |ids| - n
  {
    if n == |ids| {
      assert ids[..n] == ids;
    } else {
      assert ids[..n + 1][..n] == ids[..n];
      StoppedDelivery(f, s, ids, n + 1, budget);
    }
  }
}

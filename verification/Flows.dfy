/**
 The service flows as programs over the store, their stage composition, and the engine calls that
 drive them: accepting a command, and delivering an event until it settles or the budget is spent.
 */
module Flows {
  import opened Wrappers
  import opened Settlement

  // The public baseline, the two reference repairs, and the repair that deduplicates too broadly.
  datatype Flow = Baseline | LogicalIdentity | IntentOutbox | BroadEventDedup

  predicate Repaired(f: Flow) { f.LogicalIdentity? || f.IntentOutbox? }

  function PendingCutpoints(s: State): nat {
    (if s.faults.s2Cutpoint then 1 else 0) + (if s.faults.s5Cutpoint then 1 else 0)
  }

  function S2(f: Flow, s: State, c: Command): Result<EventId> {
    if f.Baseline? then Append(s, c)
    else
      match GetEventId(s.tables, c.Pair())
      case Some(id) => Result(s, Returned(id))
      case None => Append(s, c)
  }

  function S5(f: Flow, s: State, e: Event): (r: Result<EffectId>)
    ensures SpendsFault(s, r)
  {
    match f
    case Baseline => Settle(s, e)
    case BroadEventDedup =>
      (match EffectOf(s.tables.effects, e.eventId)
       case Some(row) => Result(s, Returned(row.effectId))
       case None => Settle(s, e))
    case LogicalIdentity =>
      (match EffectByKey(s.tables.effects, e.eventId, e.logicalKey)
       case Some(row) => Result(s, Returned(row.effectId))
       case None => Settle(s, e))
    case IntentOutbox => Outbox(s, e)
  }

  function Outbox(s: State, e: Event): (r: Result<EffectId>)
    ensures SpendsFault(s, r)
  {
    var intent := LatestIntent(s.tables.intents, e.eventId, e.logicalKey);
    match EffectByKey(s.tables.effects, e.eventId, e.logicalKey)
    case Some(row) =>
      if intent.Some? && !intent.value.completed
      then Result(IntentComplete(s, intent.value.intentId, row.effectId), Returned(row.effectId))
      else Result(s, Returned(row.effectId))
    case None =>
      if intent.Some? && intent.value.completed && intent.value.effectId.Some?
      then Result(s, Returned(intent.value.effectId.value))
      else if intent.None? then
        match IntentCreate(s, e)
        case Result(s1, Returned(id)) => SettleIntent(s1, e, id)
        case Result(s1, _) => Result(s1, IntegrityError)
      else SettleIntent(s, e, intent.value.intentId)
  }

  function SettleIntent(s: State, e: Event, id: IntentId): (r: Result<EffectId>)
    ensures SpendsFault(s, r)
  {
    var r := Settle(s, e);
    if r.out.Returned? then Result(IntentComplete(r.state, id, r.out.value), r.out) else r
  }

  // s1, s2, s3
  function Accept(f: Flow, s: State, c: Command): Result<EventId> {
    var r := S2(f, Tick(s), c);
    if !r.out.Returned? then r
    else
      var r3 := Register(r.state, c, r.out.value);
      if r3.out.Returned? then Result(r3.state, r.out) else Result(r3.state, Refused)
  }

  // s4, s5, s6
  function Deliver(f: Flow, s: State, id: EventId, sequence: int): (r: Result<EffectId>)
    ensures SpendsFault(s, r)
  {
    match Load(s, id)
    case Result(s4, Returned(e)) =>
      var r := S5(f, s4, e);
      if r.out.Returned? then Result(AdvanceCursor(r.state, sequence), r.out) else r
    case Result(s4, _) => Result(s4, Refused)
  }

  // A client retries once when intake was cut after the journal insert.
  function AcceptCommand(f: Flow, s: State, c: Command, retry: bool): Result<EventId> {
    var r := Accept(f, s, c);
    if !r.out.CutAt? then r
    else if !retry then Result(r.state, Returned(r.out.event))
    else
      var again := Accept(f, r.state, c);
      if again.out.Returned? then Result(again.state, Returned(r.out.event)) else again
  }

  /**
   The delivery loop from a given attempt count. A cutpoint restarts the worker and sets the count
   back to zero, so the measure is the number of cutpoints still armed, then the attempts left.
   */
  function DeliverFrom(f: Flow, s: State, id: EventId, sequence: int, attempts: nat, budget: int, retry: bool): Result<EffectId>
    decreases PendingCutpoints(s), budget - attempts
  {
    if attempts >= budget then Result(s, Refused)
    else
      var r := Deliver(f, s, id, sequence);
      match r.out
      case TransientFault =>
        if !retry || attempts + 1 >= budget then Result(Tick(r.state), Refused)
        else DeliverFrom(f, Tick(r.state), id, sequence, attempts + 1, budget, retry)
      case CutAt(_) => DeliverFrom(f, Restart(r.state), id, sequence, 0, budget, retry)
      case _ => r
  }

  function DeliverEvent(f: Flow, s: State, id: EventId, sequence: int, budget: int, retry: bool): Result<EffectId> {
    DeliverFrom(f, s, id, sequence, 0, budget, retry)
  }
}

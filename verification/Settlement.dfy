/**
 The tables of the settlement runtime and the store methods the service flows call.

 Every operation is a function on the whole runtime state; `RuntimeStore` performs the same
 operations on fields and is proved against these functions.

 Digests are symbolic: an identifier is the constructor that hashes its fields, so two identifiers
 are equal exactly when their hashed fields are, and identifiers of different kinds never meet.
 A table is the sequence of its rows in the order the queries list them.
 */
module Settlement {
  import opened Wrappers

  const EFFECT_AMOUNT := 100
  const SETTLEMENT := "settlement"

  datatype Command = Command(commandKey: string, occurrenceId: string, alias: string, amount: string)
  {
    function Pair(): (string, string) { (commandKey, occurrenceId) }
  }

  datatype PayloadHash = PayloadHash(command: Command) | SeededPayload(name: string)

  // The tick makes an identifier fresh: the clock never goes back, not even on a restore.
  datatype EventId =
    | EventId(commandKey: string, occurrenceId: string, tick: nat, workloadId: string)
    | SeededEvent(name: string)

  datatype EffectId =
    | EffectId(event: EventId, occurrenceId: string, logicalKey: string, tick: nat, workloadId: string)
    | SeededEffect(name: string)

  datatype IntentId =
    IntentId(event: EventId, commandKey: string, occurrenceId: string, logicalKey: string, tick: nat, workloadId: string)

  datatype JournalRow = JournalRow(
    seqNo: nat, eventId: EventId, commandKey: string, occurrenceId: string, payload: PayloadHash, acceptedTick: nat)
  {
    function Pair(): (string, string) { (commandKey, occurrenceId) }
  }

  datatype EffectRow = EffectRow(
    effectId: EffectId, occurrenceId: string, amount: int, logicalKey: string, sourceEvent: EventId, committedTick: nat)

  datatype IntentRow = IntentRow(
    intentId: IntentId, sourceEvent: EventId, commandKey: string, occurrenceId: string, logicalKey: string,
    createdTick: nat, completed: bool, effectId: Option<EffectId>)

  datatype Tables = Tables(
    journal: seq<JournalRow>,
    cursor: int,
    effects: seq<EffectRow>,
    intents: seq<IntentRow>,
    marks: map<(EventId, string), string>,
    commandKeys: map<(string, string), EventId>)

  // The three one-shot faults of one workload run.
  datatype Faults = Faults(s2Cutpoint: bool, s5Cutpoint: bool, transient: bool)

  datatype State = State(
    tick: nat, tables: Tables, attempts: map<EventId, nat>, faults: Faults, workloadId: string)

  // How a store call or a flow ends: normally, or with one of the exceptions the engine tells apart.
  datatype Outcome<+T> =
    | Returned(value: T)
    | Refused
    | CutAt(event: EventId)
    | TransientFault
    | IntegrityError

  datatype Result<+T> = Result(state: State, out: Outcome<T>)

  // The event dictionary that s4 hands to s5.
  datatype Event = Event(eventId: EventId, commandKey: string, occurrenceId: string, logicalKey: string)

  // ---------------------------------------------------------------- queries

  function MaxSeq(journal: seq<JournalRow>): nat {
    if journal == [] then 0
    else
      var m := MaxSeq(journal[..|journal| - 1]);
      if m < journal[|journal| - 1].seqNo then journal[|journal| - 1].seqNo else m
  }

  /** The first journal row of a command occurrence, in seq order. */
  function FirstRow(journal: seq<JournalRow>, pair: (string, string)): (r: Option<JournalRow>)
    ensures r.Some? ==> r.value in journal && r.value.Pair() == pair
    ensures r.None? ==> forall row :: row in journal ==> row.Pair() != pair
  {
    if journal == [] then None
    else
      var r := FirstRow(journal[..|journal| - 1], pair);
      var last := journal[|journal| - 1];
      assert journal == journal[..|journal| - 1] + [last];
      if r.Some? then r else if last.Pair() == pair then Some(last) else None
  }

  function RowOf(journal: seq<JournalRow>, id: EventId): (r: Option<JournalRow>)
    ensures r.Some? ==> r.value in journal && r.value.eventId == id
    ensures r.None? ==> forall row :: row in journal ==> row.eventId != id
  {
    if journal == [] then None
    else
      var r := RowOf(journal[..|journal| - 1], id);
      var last := journal[|journal| - 1];
      assert journal == journal[..|journal| - 1] + [last];
      if r.Some? then r else if last.eventId == id then Some(last) else None
  }

  /** The earliest effect of an event under a logical key. */
  function EffectByKey(effects: seq<EffectRow>, id: EventId, key: string): (r: Option<EffectRow>)
    ensures r.Some? ==> r.value in effects && r.value.sourceEvent == id && r.value.logicalKey == key
    ensures r.None? ==> forall e :: e in effects ==> !(e.sourceEvent == id && e.logicalKey == key)
  {
    if effects == [] then None
    else
      var r := EffectByKey(effects[..|effects| - 1], id, key);
      var last := effects[|effects| - 1];
      assert effects == effects[..|effects| - 1] + [last];
      if r.Some? then r else if last.sourceEvent == id && last.logicalKey == key then Some(last) else None
  }

  /** The earliest effect of an event, whatever its key. */
  function EffectOf(effects: seq<EffectRow>, id: EventId): (r: Option<EffectRow>)
    ensures r.Some? ==> r.value in effects && r.value.sourceEvent == id
    ensures r.None? ==> forall e :: e in effects ==> e.sourceEvent != id
  {
    if effects == [] then None
    else
      var r := EffectOf(effects[..|effects| - 1], id);
      var last := effects[|effects| - 1];
      assert effects == effects[..|effects| - 1] + [last];
      if r.Some? then r else if last.sourceEvent == id then Some(last) else None
  }

  /** The latest intent of an event under a logical key. */
  function LatestIntent(intents: seq<IntentRow>, id: EventId, key: string): (r: Option<IntentRow>)
    ensures r.Some? ==> r.value in intents && r.value.sourceEvent == id && r.value.logicalKey == key
    ensures r.None? ==> forall i :: i in intents ==> !(i.sourceEvent == id && i.logicalKey == key)
  {
    if intents == [] then None
    else
      var last := intents[|intents| - 1];
      assert intents == intents[..|intents| - 1] + [last];
      if last.sourceEvent == id && last.logicalKey == key then Some(last)
      else LatestIntent(intents[..|intents| - 1], id, key)
  }

  predicate HasEffectId(effects: seq<EffectRow>, id: EffectId) {
    exists i :: 0 <= i < |effects| && effects[i].effectId == id
  }

  predicate HasIntentId(intents: seq<IntentRow>, id: IntentId) {
    exists i :: 0 <= i < |intents| && intents[i].intentId == id
  }

  function GetEventId(t: Tables, pair: (string, string)): Option<EventId> {
    match FirstRow(t.journal, pair)
    case None => None
    case Some(row) => Some(row.eventId)
  }

  // Only the first matching row is compared with the new payload.
  predicate Conflicts(t: Tables, c: Command) {
    var r := FirstRow(t.journal, c.Pair());
    r.Some? && r.value.payload != PayloadHash(c)
  }

  function Attempts(s: State, id: EventId): nat {
    if id in s.attempts then s.attempts[id] else 0
  }

  // ---------------------------------------------------------------- operations

  // Every mutating call moves the clock by one; s1 and log lines do nothing else to the model.
  function Tick(s: State): State { s.(tick := s.tick + 1) }

  function Append(s: State, c: Command): Result<EventId> {
    var s1 := Tick(s);
    var id := EventId(c.commandKey, c.occurrenceId, s1.tick, s1.workloadId);
    if Conflicts(s1.tables, c) then Result(s1, Refused)
    else if RowOf(s1.tables.journal, id).Some? then Result(s1, IntegrityError)
    else
      var row := JournalRow(MaxSeq(s1.tables.journal) + 1, id, c.commandKey, c.occurrenceId, PayloadHash(c), s1.tick);
      var s2 := s1.(tables := s1.tables.(journal := s1.tables.journal + [row]));
      if s2.faults.s2Cutpoint then Result(s2.(faults := s2.faults.(s2Cutpoint := false)), CutAt(id))
      else Result(s2, Returned(id))
  }

  function Register(s: State, c: Command, id: EventId): Result<()> {
    var s1 := Tick(s);
    if Conflicts(s1.tables, c) then Result(s1, Refused)
    else Result(s1.(tables := s1.tables.(commandKeys := s1.tables.commandKeys[c.Pair() := id])), Returned(()))
  }

  function Load(s: State, id: EventId): Result<Event> {
    var s1 := Tick(s);
    match RowOf(s1.tables.journal, id)
    case None => Result(s1, Refused)
    case Some(row) => Result(s1, Returned(Event(id, row.commandKey, row.occurrenceId, SETTLEMENT)))
  }

  // What a settlement may do to the armed faults: only a cutpoint disarms the s5 cutpoint.
  predicate SpendsFault<T>(s: State, r: Result<T>) {
    && r.state.faults.s2Cutpoint == s.faults.s2Cutpoint
    && r.state.faults.s5Cutpoint == (s.faults.s5Cutpoint && !r.out.CutAt?)
    && (r.out.CutAt? ==> s.faults.s5Cutpoint)
  }

  function Settle(s: State, e: Event): (r: Result<EffectId>)
    ensures SpendsFault(s, r)
  {
    var attempt := Attempts(s, e.eventId) + 1;
    var s1 := Tick(s.(attempts := s.attempts[e.eventId := attempt]));
    var id := EffectId(e.eventId, e.occurrenceId, e.logicalKey, s1.tick, s1.workloadId);
    if s1.faults.transient && attempt == 1 then
      Result(s1.(faults := s1.faults.(transient := false)), TransientFault)
    else if HasEffectId(s1.tables.effects, id) then Result(s1, IntegrityError)
    else
      var row := EffectRow(id, e.occurrenceId, EFFECT_AMOUNT, e.logicalKey, e.eventId, s1.tick);
      var s2 := s1.(tables := s1.tables.(effects := s1.tables.effects + [row]));
      if s2.faults.s5Cutpoint then Result(s2.(faults := s2.faults.(s5Cutpoint := false)), CutAt(e.eventId))
      else Result(s2, Returned(id))
  }

  // The cursor is overwritten, not raised.
  function AdvanceCursor(s: State, sequence: int): State {
    Tick(s.(tables := s.tables.(cursor := sequence)))
  }

  function Restart(s: State): State { Tick(s.(attempts := map[])) }

  function IntentCreate(s: State, e: Event): Result<IntentId> {
    var s1 := Tick(s);
    var id := IntentId(e.eventId, e.commandKey, e.occurrenceId, e.logicalKey, s1.tick, s1.workloadId);
    if HasIntentId(s1.tables.intents, id) then Result(s1, IntegrityError)
    else
      var row := IntentRow(id, e.eventId, e.commandKey, e.occurrenceId, e.logicalKey, s1.tick, false, None);
      Result(s1.(tables := s1.tables.(intents := s1.tables.intents + [row])), Returned(id))
  }

  function CompleteRows(intents: seq<IntentRow>, id: IntentId, effect: EffectId): (r: seq<IntentRow>)
    ensures |r| == |intents|
    ensures forall i :: 0 <= i < |r| ==>
      r[i] == if intents[i].intentId == id then intents[i].(completed := true, effectId := Some(effect)) else intents[i]
  {
    seq(|intents|, i requires 0 <= i < |intents| =>
      if intents[i].intentId == id then intents[i].(completed := true, effectId := Some(effect)) else intents[i])
  }

  function IntentComplete(s: State, id: IntentId, effect: EffectId): State {
    Tick(s.(tables := s.tables.(intents := CompleteRows(s.tables.intents, id, effect))))
  }

  function Mark(s: State, id: EventId, key: string, value: string): State {
    Tick(s.(tables := s.tables.(marks := s.tables.marks[(id, key) := value])))
  }

  // A workload run starts with a fresh in-memory store over the same tables.
  function NewRun(s: State, workloadId: string, faults: Faults): State {
    s.(attempts := map[], faults := faults, workloadId := workloadId)
  }
}

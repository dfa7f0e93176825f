/**
 The main results about the two repairs, over every schedule of engine calls and faults.

 A schedule names an event by its position in the journal, because the identifiers two flows give to
 the same event differ: they contain ticks, and the outbox spends more of them.
 */
module ExactlyOnce {
  import opened Wrappers
  import opened Settlement
  import opened Journal
  import opened Flows
  import opened Ledger
  import opened RepairInvariant
  import opened RepairRefinement

  datatype Call =
    | AcceptCall(command: Command, retryAfterCut: bool)
    | DeliverCall(position: nat, sequence: int, budget: int, retry: bool)
    | EmitCall(position: nat, key: string)
    | WorkerRestart
    | StartRun(workloadId: string, faults: Faults)

  datatype Performed = Performed(state: State, reply: Reply)

  function Answer<T>(r: Result<T>): Performed { Performed(r.state, ReplyOf(r.out)) }

  // A delivery or a direct s5 call for an event the journal does not hold is refused before any stage runs.
  function Perform(f: Flow, s: State, call: Call): Performed {
    match call
    case AcceptCall(c, retry) => Answer(AcceptCommand(f, s, c, retry))
    case DeliverCall(i, n, budget, retry) =>
      if i < |s.tables.journal| then Answer(DeliverEvent(f, s, s.tables.journal[i].eventId, n, budget, retry))
      else Performed(s, Rejected)
    case EmitCall(i, key) =>
      if i < |s.tables.journal| then EmitLoaded(f, Load(s, s.tables.journal[i].eventId), key) else Performed(s, Rejected)
    case WorkerRestart => Performed(Restart(s), Done)
    case StartRun(w, faults) => Performed(NewRun(s, w, faults), Done)
  }

  function EmitLoaded(f: Flow, loaded: Result<Event>, key: string): Performed {
    if loaded.out.Returned? then Answer(S5(f, loaded.state, loaded.out.value.(logicalKey := key)))
    else Performed(loaded.state, Rejected)
  }

  function Interpret(l: Ledger, call: Call): Step
    requires WellFormed(l)
  {
    match call
    case AcceptCall(c, retry) => AcceptStep(l, c, retry)
    case DeliverCall(i, n, budget, retry) =>
      if i < |l.accepted| then DeliverStep(l, i, n, budget, retry) else Step(l, Rejected)
    case EmitCall(i, key) => if i < |l.accepted| then EmitStep(l, i, key) else Step(l, Rejected)
    case WorkerRestart => Step(RestartStep(l), Done)
    case StartRun(_, faults) => Step(RestartStep(l).(faults := faults), Done)
  }

  // ---------------------------------------------------------------- the meaning of a state

  function PositionOf(journal: seq<JournalRow>, id: EventId): nat {
    match RowOf(journal, id)
    case Some(row) => if row.seqNo == 0 then 0 else row.seqNo - 1
    case None => 0
  }

  function Meaning(s: State): Ledger {
    var j := s.tables.journal;
    var effects := s.tables.effects;
    Ledger(
      seq(|j|, i requires 0 <= i < |j| => Accepted(j[i].Pair(), j[i].payload)),
      set k | 0 <= k < |effects| :: (PositionOf(j, effects[k].sourceEvent), effects[k].logicalKey),
      s.tables.commandKeys.Keys,
      seq(|j|, i requires 0 <= i < |j| => Attempts(s, j[i].eventId)),
      s.tables.cursor,
      s.faults)
  }

  lemma PositionAt(journal: seq<JournalRow>, i: nat)
    requires IdsDistinct(journal) && GapFree(journal) && i < |journal|
    ensures PositionOf(journal, journal[i].eventId) == i
  {
    RowOfAt(journal, i);
  }

  lemma MeaningSettled(s: State)
    requires Inv(s)
    ensures SettledIn(Meaning(s), s.tables.journal, s.tables.effects)
  {
    var j, effects := s.tables.journal, s.tables.effects;
    var settled := Meaning(s).settled;
    forall k | 0 <= k < |effects|
      ensures var n := PositionOf(j, effects[k].sourceEvent); n < |j| && j[n].eventId == effects[k].sourceEvent
    {
      var row := RowOf(j, effects[k].sourceEvent).value;
      var n :| 0 <= n < |j| && j[n] == row;
      PositionAt(j, n);
    }
    forall i, key | 0 <= i < |j|
      ensures (i, key) in settled <==> EffectByKey(effects, j[i].eventId, key).Some?
    {
      PositionAt(j, i);
      var r := EffectByKey(effects, j[i].eventId, key);
      if r.Some? {
        var k :| 0 <= k < |effects| && effects[k] == r.value;
        assert (PositionOf(j, effects[k].sourceEvent), effects[k].logicalKey) in settled;
      }
      if (i, key) in settled {
        var k :| 0 <= k < |effects| && (PositionOf(j, effects[k].sourceEvent), effects[k].logicalKey) == (i, key);
        assert effects[k] in effects && effects[k].sourceEvent == j[i].eventId;
      }
    }
  }

  lemma MeaningRepresents(s: State)
    requires Inv(s)
    ensures Simulates(Meaning(s), s) && WellFormed(Meaning(s))
  {
    MeaningSettled(s);
  }

  // ---------------------------------------------------------------- one call

  lemma EmitRefines(f: Flow, l: Ledger, s: State, i: nat, key: string)
    requires Repaired(f) && Simulates(l, s) && WellFormed(l) && i < |s.tables.journal| && i < |l.accepted|
    ensures var p := EmitLoaded(f, Load(s, s.tables.journal[i].eventId), key);
      Simulates(EmitStep(l, i, key).ledger, p.state) && p.reply == EmitStep(l, i, key).reply
  {
    hide Inv, Represents, S5, Load;
    LoadFinds(l, s, i);
    TickKeeps(l, s);
    RepairedS5Emits(f, l, Tick(s), i, Load(s, s.tables.journal[i].eventId).out.value.(logicalKey := key));
  }

  lemma CallRefines(f: Flow, l: Ledger, s: State, call: Call)
    requires Repaired(f) && Simulates(l, s) && WellFormed(l)
    ensures Simulates(Interpret(l, call).ledger, Perform(f, s, call).state)
    ensures Interpret(l, call).reply == Perform(f, s, call).reply
    ensures WellFormed(Interpret(l, call).ledger)
  {
    hide Inv, Represents, AcceptCommand, DeliverEvent, Load;
    SameFaults(l, s);
    match call
    case AcceptCall(c, retry) => AcceptCommandRefines(f, l, s, c, retry);
    case DeliverCall(i, n, budget, retry) =>
      if i < |l.accepted| { DeliverEventRefines(f, l, s, i, n, budget, retry); }
    case EmitCall(i, key) =>
      if i < |l.accepted| { EmitRefines(f, l, s, i, key); }
    case WorkerRestart => RestartKeeps(l, s);
    case StartRun(w, faults) => NewRunKeeps(l, s, w, faults);
  }

  /**
   Refinement: under either repair, an engine call keeps the invariant, answers as the ledger does, and
   moves the meaning of the state by exactly the ledger's step.
   */
  lemma RepairImplementsLedger(f: Flow, s: State, call: Call)
    requires Repaired(f) && Inv(s)
    ensures Inv(Perform(f, s, call).state)
    ensures WellFormed(Meaning(s))
    ensures Meaning(Perform(f, s, call).state) == Interpret(Meaning(s), call).ledger
    ensures Perform(f, s, call).reply == Interpret(Meaning(s), call).reply
  {
    hide Represents, Perform, Interpret;
    MeaningRepresents(s);
    CallRefines(f, Meaning(s), s, call);
    var s' := Perform(f, s, call).state;
    MeaningRepresents(s');
    LedgerIsUnique(Meaning(s'), Interpret(Meaning(s), call).ledger, s');
  }

  // ---------------------------------------------------------------- whole schedules

  datatype Run = Run(state: State, replies: seq<Reply>)

  // The flow may change between calls: the agent can deploy another repair.
  function RunAll(s: State, calls: seq<(Flow, Call)>): Run {
    if calls == [] then Run(s, [])
    else
      var before := RunAll(s, calls[..|calls| - 1]);
      var (f, call) := calls[|calls| - 1];
      var p := Perform(f, before.state, call);
      Run(p.state, before.replies + [p.reply])
  }

  function Under(f: Flow, calls: seq<Call>): (r: seq<(Flow, Call)>)
  {
    seq(|calls|, i requires 0 <= i < |calls| => (f, calls[i]))
  }

  ghost predicate AllRepaired(calls: seq<(Flow, Call)>) {
    forall i :: 0 <= i < |calls| ==> Repaired(calls[i].0)
  }

  /** Over every schedule the whole invariant is kept, and with it the absence of duplicates. */
  lemma {:induction false} InvariantOverEverySchedule(s: State, calls: seq<(Flow, Call)>)
    requires Inv(s) && AllRepaired(calls)
    ensures Inv(RunAll(s, calls).state)
    ensures OneRowPerOccurrence(RunAll(s, calls).state.tables.journal)
    ensures OneEffectPerKey(RunAll(s, calls).state.tables.effects)
    ensures OneIntentPerKey(RunAll(s, calls).state.tables.intents)
    decreases |calls|
  {
    hide Perform;
    if calls != [] {
      var front := calls[..|calls| - 1];
      InvariantOverEverySchedule(s, front);
      RepairImplementsLedger(calls[|calls| - 1].0, RunAll(s, front).state, calls[|calls| - 1].1);
    }
  }

  /**
   Two repairs, one meaning: from states with the same meaning, the two flows give the same replies to
   every schedule of commands, deliveries, restarts and faults, and end with the same meaning.
   */
  lemma {:induction false} TwoRepairsOneMeaning(f: Flow, g: Flow, s: State, t: State, calls: seq<Call>)
    requires Repaired(f) && Repaired(g) && Inv(s) && Inv(t) && Meaning(s) == Meaning(t)
    ensures RunAll(s, Under(f, calls)).replies == RunAll(t, Under(g, calls)).replies
    ensures Meaning(RunAll(s, Under(f, calls)).state) == Meaning(RunAll(t, Under(g, calls)).state)
    decreases |calls|
  {
    hide Perform, Meaning, Interpret, Inv;
    if calls != [] {
      var front := calls[..|calls| - 1];
      var last := calls[|calls| - 1];
      TwoRepairsOneMeaning(f, g, s, t, front);
      forall h: Flow | h == f || h == g
        ensures Under(h, calls)[..|calls| - 1] == Under(h, front)
      {
      }
      InvariantOverEverySchedule(s, Under(f, front));
      InvariantOverEverySchedule(t, Under(g, front));
      RepairImplementsLedger(f, RunAll(s, Under(f, front)).state, last);
      RepairImplementsLedger(g, RunAll(t, Under(g, front)).state, last);
    }
  }

  // The tables a restore of the initial snapshot leaves, at any tick.
  function Restored(now: nat, workloadId: string, faults: Faults): State {
    State(now, Tables([], 0, [], [], map[], map[]), map[], faults, workloadId)
  }

  lemma RestoredIsSound(now: nat, workloadId: string, faults: Faults)
    ensures Inv(Restored(now, workloadId, faults))
  {
  }

  // ---------------------------------------------------------------- a delivery that returns

  function CountEffects(effects: seq<EffectRow>, id: EventId, key: string): nat {
    if effects == [] then 0
    else
      var last := effects[|effects| - 1];
      CountEffects(effects[..|effects| - 1], id, key) + (if last.sourceEvent == id && last.logicalKey == key then 1 else 0)
  }

  lemma {:induction false} CountIsOne(effects: seq<EffectRow>, id: EventId, key: string)
    requires OneEffectPerKey(effects)
    ensures CountEffects(effects, id, key) == (if EffectByKey(effects, id, key).Some? then 1 else 0)
  {
    if effects != [] {
      CountIsOne(effects[..|effects| - 1], id, key);
    }
  }

  /** Under the invariant either repair leaves exactly one settlement effect for the event, whose id it returns. */
  lemma SoundDeliveryLeavesExactlyOneEffect(f: Flow, s: State, i: nat, sequence: int, budget: int, retry: bool)
    requires Repaired(f) && Inv(s) && i < |s.tables.journal|
    ensures var id := s.tables.journal[i].eventId; var r := DeliverEvent(f, s, id, sequence, budget, retry);
      r.out.Returned? ==>
        && CountEffects(r.state.tables.effects, id, SETTLEMENT) == 1
        && EffectNamed(r.state.tables.effects, r.out.value, id, SETTLEMENT)
        && r.state.tables.cursor == sequence
  {
    hide DeliverEvent;
    MeaningRepresents(s);
    DeliverEventRefines(f, Meaning(s), s, i, sequence, budget, retry);
    var id := s.tables.journal[i].eventId;
    var r := DeliverEvent(f, s, id, sequence, budget, retry);
    if r.out.Returned? {
      CountIsOne(r.state.tables.effects, id, SETTLEMENT);
    }
  }

  /**
   Under the invariant no intent makes a false claim, so when a delivery of a journalled event returns does
   not depend on the repair, and a refused one leaves the settled pairs as they were.
   */
  lemma SoundDeliveryReturnsExactlyWhen(f: Flow, s: State, i: nat, sequence: int, budget: int, retry: bool)
    requires Repaired(f) && Inv(s) && i < |s.tables.journal|
    ensures var id := s.tables.journal[i].eventId;
      var fires := s.faults.transient && Attempts(s, id) == 0 && EffectByKey(s.tables.effects, id, SETTLEMENT).None?;
      var r := DeliverEvent(f, s, id, sequence, budget, retry);
      && (r.out.Returned? <==> 1 <= budget && (fires ==> retry && 2 <= budget))
      && (!r.out.Returned? ==> r.out == Refused && Meaning(r.state).settled == Meaning(s).settled)
  {
    hide DeliverEvent, EffectByKey, RowOf, FirstRow, Inv, Meaning;
    MeaningRepresents(s);
    DeliverEventRefines(f, Meaning(s), s, i, sequence, budget, retry);
    var r := DeliverEvent(f, s, s.tables.journal[i].eventId, sequence, budget, retry);
    MeaningRepresents(r.state);
    LedgerIsUnique(Meaning(r.state), DeliverStep(Meaning(s), i, sequence, budget, retry).ledger, r.state);
  }
}

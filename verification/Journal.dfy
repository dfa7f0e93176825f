/**
 What the journal keeps under any service flow.

 The flow is the agent's own program, so it may call the store methods in any order and with any
 arguments. Such a run is a sequence of operations, and the invariant holds for every sequence.
 */
module Journal {
  import opened Wrappers
  import opened Settlement

  datatype Op =
    | Prepare
    | AppendOp(command: Command)
    | RegisterOp(command: Command, id: EventId)
    | LoadOp(id: EventId)
    | SettleOp(event: Event)
    | AdvanceOp(sequence: int)
    | IntentCreateOp(event: Event)
    | IntentCompleteOp(intentId: IntentId, effectId: EffectId)
    | MarkOp(id: EventId, key: string, value: string)
    | RestartOp
    | NewRunOp(workloadId: string, faults: Faults)

  function Apply(s: State, op: Op): State {
    match op
    case Prepare => Tick(s)
    case AppendOp(c) => Append(s, c).state
    case RegisterOp(c, id) => Register(s, c, id).state
    case LoadOp(id) => Load(s, id).state
    case SettleOp(e) => Settle(s, e).state
    case AdvanceOp(n) => AdvanceCursor(s, n)
    case IntentCreateOp(e) => IntentCreate(s, e).state
    case IntentCompleteOp(i, f) => IntentComplete(s, i, f)
    case MarkOp(id, k, v) => Mark(s, id, k, v)
    case RestartOp => Restart(s)
    case NewRunOp(w, f) => NewRun(s, w, f)
  }

  function ApplyAll(s: State, ops: seq<Op>): State
    decreases |ops|
  {
    if ops == [] then s else ApplyAll(Apply(s, ops[0]), ops[1..])
  }

  ghost predicate GapFree(journal: seq<JournalRow>) {
    forall i :: 0 <= i < |journal| ==> journal[i].seqNo == i + 1
  }

  ghost predicate TicksAscend(journal: seq<JournalRow>, now: nat) {
    && (forall i, k :: 0 <= i < k < |journal| ==> journal[i].acceptedTick < journal[k].acceptedTick)
    && (forall i :: 0 <= i < |journal| ==> journal[i].acceptedTick <= now)
  }

  // A generated identifier carries the tick of its own row.
  ghost predicate IdsStamped(journal: seq<JournalRow>) {
    forall i :: 0 <= i < |journal| && journal[i].eventId.EventId? ==> journal[i].eventId.tick == journal[i].acceptedTick
  }

  ghost predicate IdsDistinct(journal: seq<JournalRow>) {
    forall i, k :: 0 <= i < k < |journal| ==> journal[i].eventId != journal[k].eventId
  }

  ghost predicate PayloadsAgree(journal: seq<JournalRow>) {
    forall i, k :: 0 <= i < k < |journal| && journal[i].Pair() == journal[k].Pair() ==>
      journal[i].payload == journal[k].payload
  }

  ghost predicate Consistent(journal: seq<JournalRow>, now: nat) {
    && GapFree(journal)
    && TicksAscend(journal, now)
    && IdsStamped(journal)
    && IdsDistinct(journal)
    && PayloadsAgree(journal)
  }

  lemma {:induction false} MaxSeqOfGapFree(journal: seq<JournalRow>)
    requires GapFree(journal)
    ensures MaxSeq(journal) == |journal|
  {
    if journal != [] {
      MaxSeqOfGapFree(journal[..|journal| - 1]);
    }
  }

  lemma RowOfFresh(journal: seq<JournalRow>, now: nat, id: EventId)
    requires TicksAscend(journal, now) && IdsStamped(journal)
    requires id.EventId? && now < id.tick
    ensures RowOf(journal, id) == None
  {
    if id in set row | row in journal :: row.eventId {
      assert false;
    }
  }

  lemma RowsShareFirstPayload(journal: seq<JournalRow>, row: JournalRow)
    requires PayloadsAgree(journal) && row in journal
    ensures var first := FirstRow(journal, row.Pair()); first.Some? && first.value.payload == row.payload
  {
    var i :| 0 <= i < |journal| && journal[i] == row;
    var first := FirstRow(journal, row.Pair());
    var k :| 0 <= k < |journal| && journal[k] == first.value;
  }

  lemma AddRowKeepsConsistent(journal: seq<JournalRow>, now: nat, row: JournalRow)
    requires Consistent(journal, now)
    requires row.seqNo == |journal| + 1 && now < row.acceptedTick
    requires row.eventId.EventId? && row.eventId.tick == row.acceptedTick
    requires forall r :: r in journal && r.Pair() == row.Pair() ==> r.payload == row.payload
    ensures Consistent(journal + [row], row.acceptedTick)
  {
    var j := journal + [row];
    assert IdsDistinct(j);
    assert PayloadsAgree(j);
    assert TicksAscend(j, row.acceptedTick);
  }

  function NewRow(s: State, c: Command): JournalRow {
    JournalRow(|s.tables.journal| + 1, EventId(c.commandKey, c.occurrenceId, s.tick + 1, s.workloadId),
               c.commandKey, c.occurrenceId, PayloadHash(c), s.tick + 1)
  }

  function Appended(s: State, c: Command): State {
    Tick(s).(tables := s.tables.(journal := s.tables.journal + [NewRow(s, c)]), faults := s.faults.(s2Cutpoint := false))
  }

  /** Appending never hits a uniqueness constraint: it refuses a conflicting payload or adds the next row. */
  lemma AppendAddsNextRow(s: State, c: Command)
    requires Consistent(s.tables.journal, s.tick)
    ensures Append(s, c) ==
      if Conflicts(s.tables, c) then Result(Tick(s), Refused)
      else Result(Appended(s, c), if s.faults.s2Cutpoint then CutAt(NewRow(s, c).eventId) else Returned(NewRow(s, c).eventId))
  {
    RowOfFresh(s.tables.journal, s.tick, NewRow(s, c).eventId);
    MaxSeqOfGapFree(s.tables.journal);
  }

  lemma NewRowKeepsConsistent(s: State, c: Command)
    requires Consistent(s.tables.journal, s.tick) && !Conflicts(s.tables, c)
    ensures Consistent(s.tables.journal + [NewRow(s, c)], s.tick + 1)
  {
    forall r | r in s.tables.journal && r.Pair() == c.Pair() ensures r.payload == PayloadHash(c) {
      RowsShareFirstPayload(s.tables.journal, r);
    }
    AddRowKeepsConsistent(s.tables.journal, s.tick, NewRow(s, c));
  }

  lemma OtherStepsKeepJournal(s: State, op: Op)
    requires !op.AppendOp?
    ensures Apply(s, op).tables.journal == s.tables.journal && s.tick <= Apply(s, op).tick
  {
    hide FirstRow, RowOf;
  }

  lemma StepKeepsConsistent(s: State, op: Op)
    requires Consistent(s.tables.journal, s.tick)
    ensures Consistent(Apply(s, op).tables.journal, Apply(s, op).tick)
  {
    hide FirstRow, RowOf, Append, Conflicts, Settle, IntentCreate, Load, Register;
    if op.AppendOp? {
      AppendAddsNextRow(s, op.command);
      if !Conflicts(s.tables, op.command) {
        NewRowKeepsConsistent(s, op.command);
      }
    } else {
      OtherStepsKeepJournal(s, op);
    }
  }

  lemma LaterClockKeepsConsistent(journal: seq<JournalRow>, now: nat, later: nat)
    requires Consistent(journal, now) && now <= later
    ensures Consistent(journal, later)
  {
  }

  // ---------------------------------------------------------------- runs with restores

  // The runtime state and the tables that snapshots hold.
  datatype Held = Held(state: State, snapshots: map<string, Tables>)

  datatype Action = StoreCall(op: Op) | SaveSnapshot(id: string) | RestoreTo(id: string)

  // A restore brings back the service tables and moves the clock on; it does not bring back the clock.
  function Act(h: Held, action: Action): Held {
    match action
    case StoreCall(op) => h.(state := Apply(h.state, op))
    case SaveSnapshot(id) => if id in h.snapshots then h else h.(snapshots := h.snapshots[id := h.state.tables])
    case RestoreTo(id) => if id in h.snapshots then h.(state := Tick(h.state).(tables := h.snapshots[id])) else h
  }

  function ActAll(h: Held, actions: seq<Action>): Held
    decreases |actions|
  {
    if actions == [] then h else ActAll(Act(h, actions[0]), actions[1..])
  }

  ghost predicate HeldConsistent(h: Held) {
    && Consistent(h.state.tables.journal, h.state.tick)
    && forall id :: id in h.snapshots ==> Consistent(h.snapshots[id].journal, h.state.tick)
  }

  lemma ActKeepsConsistent(h: Held, action: Action)
    requires HeldConsistent(h)
    ensures HeldConsistent(Act(h, action))
  {
    hide Consistent, Apply;
    var h' := Act(h, action);
    match action
    case StoreCall(op) =>
      StepKeepsConsistent(h.state, op);
      StepKeepsAcceptedRows(h.state, op);
      forall id | id in h.snapshots ensures Consistent(h.snapshots[id].journal, h'.state.tick) {
        LaterClockKeepsConsistent(h.snapshots[id].journal, h.state.tick, h'.state.tick);
      }
    case SaveSnapshot(id) =>
    case RestoreTo(id) =>
      forall other | other in h.snapshots ensures Consistent(h.snapshots[other].journal, h'.state.tick) {
        LaterClockKeepsConsistent(h.snapshots[other].journal, h.state.tick, h'.state.tick);
      }
  }

  /**
   Although only the first matching row is ever compared, after any sequence of store calls, snapshots and
   restores all rows of one command occurrence share one payload hash, the seqs run 1, 2, 3, ..., the
   accepted ticks ascend with them, and the event ids are distinct.
   */
  lemma {:induction false} AnyFlowKeepsJournalConsistent(h: Held, actions: seq<Action>)
    requires HeldConsistent(h)
    ensures HeldConsistent(ActAll(h, actions))
    decreases |actions|
  {
    if actions != [] {
      hide Act, HeldConsistent;
      ActKeepsConsistent(h, actions[0]);
      AnyFlowKeepsJournalConsistent(Act(h, actions[0]), actions[1..]);
    }
  }

  lemma StepKeepsAcceptedRows(s: State, op: Op)
    ensures s.tables.journal <= Apply(s, op).tables.journal
    ensures s.tick <= Apply(s, op).tick
  {
    hide FirstRow, RowOf, MaxSeq, Settle, IntentCreate, Load, Register;
    if !op.AppendOp? {
      OtherStepsKeepJournal(s, op);
    }
  }

  /** The journal only grows: no store call rewrites or drops an accepted row. */
  lemma {:induction false} AnyFlowKeepsAcceptedRows(s: State, ops: seq<Op>)
    ensures s.tables.journal <= ApplyAll(s, ops).tables.journal
    ensures s.tick <= ApplyAll(s, ops).tick
    decreases |ops|
  {
    hide Apply;
    if ops != [] {
      StepKeepsAcceptedRows(s, ops[0]);
      AnyFlowKeepsAcceptedRows(Apply(s, ops[0]), ops[1..]);
    }
  }

  /** A consistent journal brought back by a restore is consistent under the later clock. */
  lemma RestoreKeepsConsistent(saved: State, s: State)
    requires Consistent(saved.tables.journal, saved.tick) && saved.tick <= s.tick
    ensures var restored := s.(tables := saved.tables); Consistent(restored.tables.journal, restored.tick)
  {
  }
}

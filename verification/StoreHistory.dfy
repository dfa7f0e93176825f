/**
 What the tables of the runtime say about the program that filled them: after any sequence of store calls,
 from any state, bindings, marks, the cursor and completions are those of the last call that wrote them,
 and effects and intents are the rows of the calls that committed them, in their order.
 */
module StoreHistory {
  import opened Wrappers
  import opened Settlement
  import opened Journal
  import opened Flows
  import opened RepairInvariant
  import opened RepairRefinement

  // ---------------------------------------------------------------- what is overwritten

  // The overwritten parts of the tables: a binding of an occurrence, a mark, the cursor, a completion.
  datatype Slot =
    | Binding(pair: (string, string))
    | MarkOf(id: EventId, key: string)
    | CursorSlot
    | Completion(intent: nat)

  datatype Content = BoundTo(id: EventId) | Marked(value: string) | At(sequence: int) | CompletedBy(effect: Option<EffectId>)

  function Held(t: Tables, slot: Slot): Option<Content> {
    match slot
    case Binding(pair) => if pair in t.commandKeys then Some(BoundTo(t.commandKeys[pair])) else None
    case MarkOf(id, key) => if (id, key) in t.marks then Some(Marked(t.marks[(id, key)])) else None
    case CursorSlot => Some(At(t.cursor))
    case Completion(i) => if i < |t.intents| && t.intents[i].completed then Some(CompletedBy(t.intents[i].effectId)) else None
  }

  // A register is refused when the first row of its occurrence has another payload.
  predicate IsRefused(t: Tables, c: Command) {
    exists i :: 0 <= i < |t.journal| && IsFirstOf(t.journal, c.Pair(), i) && t.journal[i].payload != PayloadHash(c)
  }

  predicate IsFirstOf(journal: seq<JournalRow>, pair: (string, string), i: nat) {
    i < |journal| && journal[i].Pair() == pair && forall k :: 0 <= k < i ==> journal[k].Pair() != pair
  }

  // What a call writes into a slot, if it writes there.
  function Writes(t: Tables, op: Op, slot: Slot): Option<Content> {
    match (op, slot)
    case (RegisterOp(c, id), Binding(pair)) => if c.Pair() == pair && !IsRefused(t, c) then Some(BoundTo(id)) else None
    case (MarkOp(id, key, value), MarkOf(id', key')) => if id == id' && key == key' then Some(Marked(value)) else None
    case (AdvanceOp(n), CursorSlot) => Some(At(n))
    case (IntentCompleteOp(iid, effect), Completion(i)) =>
      if i < |t.intents| && t.intents[i].intentId == iid then Some(CompletedBy(Some(effect))) else None
    case _ => None
  }

  lemma {:induction false} FirstRowIsFirst(journal: seq<JournalRow>, pair: (string, string), i: nat)
    requires IsFirstOf(journal, pair, i)
    ensures FirstRow(journal, pair) == Some(journal[i])
  {
    var front := journal[..|journal| - 1];
    if i < |front| {
      FirstRowIsFirst(front, pair, i);
    } else {
      assert forall row :: row in front ==> row.Pair() != pair;
    }
  }

  lemma {:induction false} FirstPlace(journal: seq<JournalRow>, pair: (string, string)) returns (i: nat)
    requires FirstRow(journal, pair).Some?
    ensures IsFirstOf(journal, pair, i)
  {
    var front := journal[..|journal| - 1];
    if FirstRow(front, pair).Some? {
      i := FirstPlace(front, pair);
    } else {
      i := |front|;
      assert forall k :: 0 <= k < i ==> journal[k] == front[k] && front[k] in front;
    }
  }

  lemma RefusedIsConflict(t: Tables, c: Command)
    ensures IsRefused(t, c) <==> Conflicts(t, c)
  {
    hide FirstRow;
    if i :| 0 <= i < |t.journal| && IsFirstOf(t.journal, c.Pair(), i) && t.journal[i].payload != PayloadHash(c) {
      FirstRowIsFirst(t.journal, c.Pair(), i);
    }
    if FirstRow(t.journal, c.Pair()).Some? {
      var i := FirstPlace(t.journal, c.Pair());
      FirstRowIsFirst(t.journal, c.Pair(), i);
    }
  }

  lemma CallWrites(s: State, op: Op, slot: Slot)
    ensures Held(Apply(s, op).tables, slot) ==
      if Writes(s.tables, op, slot).Some? then Writes(s.tables, op, slot) else Held(s.tables, slot)
  {
    hide FirstRow, RowOf, MaxSeq, HasEffectId, HasIntentId, IsRefused, Conflicts;
    if op.RegisterOp? { RefusedIsConflict(s.tables, op.command); }
  }

  lemma {:induction false} ApplyLast(s: State, ops: seq<Op>)
    requires ops != []
    ensures ApplyAll(s, ops) == Apply(ApplyAll(s, ops[..|ops| - 1]), ops[|ops| - 1])
    decreases |ops|
  {
    hide Apply;
    if |ops| > 1 {
      ApplyLast(Apply(s, ops[0]), ops[1..]);
      assert ops[1..][..|ops| - 2] == ops[..|ops| - 1][1..];
    }
  }

  // Call i of a program writes into the slot.
  predicate WritesAt(s: State, ops: seq<Op>, i: nat, slot: Slot) {
    i < |ops| && Writes(ApplyAll(s, ops[..i]).tables, ops[i], slot).Some?
  }

  ghost predicate IsLastWrite(s: State, ops: seq<Op>, i: nat, slot: Slot) {
    WritesAt(s, ops, i, slot) && forall k :: i < k < |ops| ==> !WritesAt(s, ops, k, slot)
  }

  ghost predicate NoWrite(s: State, ops: seq<Op>, slot: Slot) {
    forall i :: 0 <= i < |ops| ==> !WritesAt(s, ops, i, slot)
  }

  /**
   The last write stands. Whatever the program, a slot holds what the last call that wrote into it gave. So an
   occurrence is bound to the id of the last register for it that was not refused.
   */
  lemma {:induction false} LastWriteStands(s: State, ops: seq<Op>, slot: Slot, i: nat)
    requires IsLastWrite(s, ops, i, slot)
    ensures i < |ops| && Held(ApplyAll(s, ops).tables, slot) == Writes(ApplyAll(s, ops[..i]).tables, ops[i], slot)
    decreases |ops|
  {
    hide Apply, Held, Writes, ApplyAll;
    var n := |ops| - 1;
    ApplyLast(s, ops);
    CallWrites(ApplyAll(s, ops[..n]), ops[n], slot);
    if i < n {
      ShorterLastWrite(s, ops, i, slot);
      LastWriteStands(s, ops[..n], slot, i);
      assert ops[..n][..i] == ops[..i];
    }
  }

  lemma ShorterLastWrite(s: State, ops: seq<Op>, i: nat, slot: Slot)
    requires IsLastWrite(s, ops, i, slot) && i < |ops| - 1
    ensures IsLastWrite(s, ops[..|ops| - 1], i, slot)
    ensures !Writes(ApplyAll(s, ops[..|ops| - 1]).tables, ops[|ops| - 1], slot).Some?
  {
    hide Writes, ApplyAll;
    var front := ops[..|ops| - 1];
    forall k | i <= k < |front| ensures WritesAt(s, front, k, slot) <==> WritesAt(s, ops, k, slot) {
      assert front[..k] == ops[..k];
    }
    assert !WritesAt(s, ops, |ops| - 1, slot);
  }

  /** And a slot that no call wrote into is as it was. */
  lemma {:induction false} UnwrittenStands(s: State, ops: seq<Op>, slot: Slot)
    requires NoWrite(s, ops, slot)
    ensures Held(ApplyAll(s, ops).tables, slot) == Held(s.tables, slot)
    decreases |ops|
  {
    hide Apply, Held, Writes, ApplyAll;
    if ops == [] {
      NothingApplied(s);
    } else {
      var n := |ops| - 1;
      var front := ops[..n];
      forall k | 0 <= k < n ensures !WritesAt(s, front, k, slot) {
        assert front[..k] == ops[..k] && !WritesAt(s, ops, k, slot);
      }
      UnwrittenStands(s, front, slot);
      ApplyLast(s, ops);
      assert !WritesAt(s, ops, n, slot);
      CallWrites(ApplyAll(s, front), ops[n], slot);
    }
  }

  lemma NothingApplied(s: State)
    ensures ApplyAll(s, []) == s
  {
  }

  // ---------------------------------------------------------------- which row a query finds

  /** By event id a query finds the first row, by event and key, or by event, the earliest effect. */
  lemma {:induction false} RowOfIsFirst(journal: seq<JournalRow>, id: EventId, i: nat)
    requires i < |journal| && journal[i].eventId == id && forall k :: 0 <= k < i ==> journal[k].eventId != id
    ensures RowOf(journal, id) == Some(journal[i])
  {
    var front := journal[..|journal| - 1];
    if i < |front| {
      RowOfIsFirst(front, id, i);
    } else {
      assert forall row :: row in front ==> row.eventId != id;
    }
  }

  predicate IsOf(e: EffectRow, id: EventId, key: string) {
    e.sourceEvent == id && e.logicalKey == key
  }

  lemma {:induction false} EffectByKeyIsFirst(effects: seq<EffectRow>, id: EventId, key: string, i: nat)
    requires i < |effects| && IsOf(effects[i], id, key) && forall k :: 0 <= k < i ==> !IsOf(effects[k], id, key)
    ensures EffectByKey(effects, id, key) == Some(effects[i])
  {
    var front := effects[..|effects| - 1];
    if i < |front| {
      EffectByKeyIsFirst(front, id, key, i);
    } else {
      assert forall e :: e in front ==> !IsOf(e, id, key);
    }
  }

  lemma {:induction false} EffectOfIsFirst(effects: seq<EffectRow>, id: EventId, i: nat)
    requires i < |effects| && effects[i].sourceEvent == id && forall k :: 0 <= k < i ==> effects[k].sourceEvent != id
    ensures EffectOf(effects, id) == Some(effects[i])
  {
    var front := effects[..|effects| - 1];
    if i < |front| {
      EffectOfIsFirst(front, id, i);
    } else {
      assert forall e :: e in front ==> e.sourceEvent != id;
    }
  }

  /** Of the intents of an event and key a query finds the last. */
  lemma {:induction false} LatestIntentIsLast(intents: seq<IntentRow>, id: EventId, key: string, i: nat)
    requires i < |intents| && intents[i].sourceEvent == id && intents[i].logicalKey == key
    requires forall k :: i < k < |intents| ==> !(intents[k].sourceEvent == id && intents[k].logicalKey == key)
    ensures LatestIntent(intents, id, key) == Some(intents[i])
  {
    if i < |intents| - 1 {
      LatestIntentIsLast(intents[..|intents| - 1], id, key, i);
    }
  }

  // ---------------------------------------------------------------- what is added

  // The row of a command accepted at a tick, at place k of the journal.
  predicate IsRowOf(row: JournalRow, k: nat, c: Command, now: nat, workloadId: string) {
    && row.seqNo == k + 1 && row.commandKey == c.commandKey && row.occurrenceId == c.occurrenceId
    && row.payload == PayloadHash(c) && row.acceptedTick == now
    && row.eventId == EventId(c.commandKey, c.occurrenceId, now, workloadId)
  }

  predicate Journals(s: State, op: Op) {
    op.AppendOp? && !IsRefused(s.tables, op.command)
  }

  lemma CallAddsRow(s: State, op: Op)
    requires Consistent(s.tables.journal, s.tick)
    ensures var t, n := Apply(s, op), |s.tables.journal|;
      if Journals(s, op) then
        && |t.tables.journal| == n + 1 && s.tables.journal <= t.tables.journal
        && IsRowOf(t.tables.journal[n], n, op.command, s.tick + 1, s.workloadId)
      else t.tables.journal == s.tables.journal
  {
    hide FirstRow, RowOf, MaxSeq, Consistent, Append, IsRefused, Conflicts, Settle, IntentCreate;
    if op.AppendOp? {
      AppendAddsNextRow(s, op.command);
      RefusedIsConflict(s.tables, op.command);
    } else {
      OtherStepsKeepJournal(s, op);
    }
  }

  function Entries(s: State, ops: seq<Op>): nat {
    if ops == [] then 0
    else Entries(s, ops[..|ops| - 1]) + if Journals(ApplyAll(s, ops[..|ops| - 1]), ops[|ops| - 1]) then 1 else 0
  }

  lemma {:induction false} JournalGrows(s: State, ops: seq<Op>)
    requires Consistent(s.tables.journal, s.tick)
    ensures var t := ApplyAll(s, ops);
      Consistent(t.tables.journal, t.tick) && |t.tables.journal| == |s.tables.journal| + Entries(s, ops)
    decreases |ops|
  {
    hide Apply, ApplyAll, Journals, IsRowOf, Consistent;
    if ops == [] {
      NothingApplied(s);
    } else {
      var front, last := ops[..|ops| - 1], ops[|ops| - 1];
      JournalGrows(s, front);
      ApplyLast(s, ops);
      CallAddsRow(ApplyAll(s, front), last);
      StepKeepsConsistent(ApplyAll(s, front), last);
    }
  }

  /**
   The journal of a program is the rows of the commands it appended, in the order it did, behind those it
   found: seq, payload, tick and event id of each are those of the call.
   */
  lemma {:induction false} RowsAreAppended(s: State, ops: seq<Op>, i: nat)
    requires Consistent(s.tables.journal, s.tick) && i < |ops| && Journals(ApplyAll(s, ops[..i]), ops[i])
    ensures var before, journal := ApplyAll(s, ops[..i]), ApplyAll(s, ops).tables.journal;
      var k := |s.tables.journal| + Entries(s, ops[..i]);
      && k < |journal| == |s.tables.journal| + Entries(s, ops)
      && IsRowOf(journal[k], k, ops[i].command, before.tick + 1, before.workloadId)
    decreases |ops|
  {
    hide Apply, ApplyAll, Journals, IsRowOf, Consistent;
    var n := |ops| - 1;
    JournalGrows(s, ops);
    JournalGrows(s, ops[..i]);
    JournalGrows(s, ops[..n]);
    ApplyLast(s, ops);
    CallAddsRow(ApplyAll(s, ops[..n]), ops[n]);
    if i < n {
      assert ops[..n][..i] == ops[..i];
      RowsAreAppended(s, ops[..n], i);
    }
  }

  /** Loading answers the event of its row, under the settlement key, and refuses an id without a row. */
  lemma LoadAnswersRow(s: State, id: EventId)
    ensures var r := Load(s, id);
      && r.state.tables == s.tables
      && (r.out.Returned? <==> exists row :: row in s.tables.journal && row.eventId == id)
      && (r.out.Returned? ==>
            && r.out.value.eventId == id && r.out.value.logicalKey == "settlement"
            && exists row :: row in s.tables.journal && row.eventId == id
                 && row.Pair() == (r.out.value.commandKey, r.out.value.occurrenceId))
  {
    hide RowOf;
  }

  // A settle that commits its effect, whether or not the worker is cut after it.
  predicate Commits(s: State, op: Op) {
    op.SettleOp? && (Settle(s, op.event).out.Returned? || Settle(s, op.event).out.CutAt?)
  }

  // The row of an effect committed for an event at a tick.
  predicate IsEffectOf(row: EffectRow, e: Event, now: nat, workloadId: string) {
    && row.sourceEvent == e.eventId && row.occurrenceId == e.occurrenceId && row.logicalKey == e.logicalKey
    && row.amount == 100 && row.committedTick == now
    && row.effectId.EffectId? && row.effectId.event == e.eventId && row.effectId.occurrenceId == e.occurrenceId
    && row.effectId.logicalKey == e.logicalKey && row.effectId.tick == now && row.effectId.workloadId == workloadId
  }

  // The row of an intent opened for an event at a tick, as long as nothing completes it.
  predicate IsIntentOf(row: IntentRow, e: Event, now: nat, workloadId: string) {
    && row.sourceEvent == e.eventId && row.commandKey == e.commandKey && row.occurrenceId == e.occurrenceId
    && row.logicalKey == e.logicalKey && row.createdTick == now
    && row.intentId == IntentId(e.eventId, e.commandKey, e.occurrenceId, e.logicalKey, now, workloadId)
  }

  /** A call adds an effect exactly if it is a settle that commits: one, the last, of the event it settles. */
  lemma CallAddsEffect(s: State, op: Op)
    ensures var t := Apply(s, op);
      if Commits(s, op) then
        && |t.tables.effects| == |s.tables.effects| + 1 && s.tables.effects <= t.tables.effects
        && IsEffectOf(t.tables.effects[|s.tables.effects|], op.event, s.tick + 1, s.workloadId)
        && t.tick == s.tick + 1
      else t.tables.effects == s.tables.effects
  {
    hide FirstRow, RowOf, MaxSeq, HasEffectId, HasIntentId;
  }

  // The intents an op leaves have the columns they had.
  predicate SameColumns(a: IntentRow, b: IntentRow) {
    a == b.(completed := a.completed, effectId := a.effectId)
  }

  predicate Opens(s: State, op: Op) {
    op.IntentCreateOp? && IntentCreate(s, op.event).out.Returned?
  }

  lemma CallOpensIntent(s: State, op: Op)
    ensures var t := Apply(s, op);
      && |t.tables.intents| == |s.tables.intents| + (if Opens(s, op) then 1 else 0)
      && (forall k :: 0 <= k < |s.tables.intents| ==> SameColumns(t.tables.intents[k], s.tables.intents[k]))
      && (Opens(s, op) ==>
            IsIntentOf(t.tables.intents[|s.tables.intents|], op.event, s.tick + 1, s.workloadId) &&
            IntentCreate(s, op.event).out.value == t.tables.intents[|s.tables.intents|].intentId)
  {
    hide FirstRow, RowOf, MaxSeq, HasEffectId, HasIntentId, Settle;
    if op.SettleOp? { SettleKeepsIntents(s, op.event); }
  }

  lemma SettleKeepsIntents(s: State, e: Event)
    ensures Settle(s, e).state.tables.intents == s.tables.intents
  {
    hide HasEffectId;
  }

  // How many of the calls of a program commit an effect.
  function Commitments(s: State, ops: seq<Op>): nat {
    if ops == [] then 0
    else Commitments(s, ops[..|ops| - 1]) + if Commits(ApplyAll(s, ops[..|ops| - 1]), ops[|ops| - 1]) then 1 else 0
  }

  function Openings(s: State, ops: seq<Op>): nat {
    if ops == [] then 0
    else Openings(s, ops[..|ops| - 1]) + if Opens(ApplyAll(s, ops[..|ops| - 1]), ops[|ops| - 1]) then 1 else 0
  }

  lemma {:induction false} EffectsGrow(s: State, ops: seq<Op>)
    ensures s.tables.effects <= ApplyAll(s, ops).tables.effects
    ensures |ApplyAll(s, ops).tables.effects| == |s.tables.effects| + Commitments(s, ops)
    decreases |ops|
  {
    hide Apply, ApplyAll, Commits, IsEffectOf;
    if ops == [] {
      NothingApplied(s);
    } else {
      EffectsGrow(s, ops[..|ops| - 1]);
      ApplyLast(s, ops);
      CallAddsEffect(ApplyAll(s, ops[..|ops| - 1]), ops[|ops| - 1]);
    }
  }

  /**
   The effects of a program are the rows it committed, in the order it did, behind those it found: the one
   that call i committed is the row at the place given by the commitments before it, for good.
   */
  lemma {:induction false} EffectsAreCommitted(s: State, ops: seq<Op>, i: nat)
    requires i < |ops| && Commits(ApplyAll(s, ops[..i]), ops[i])
    ensures var before, effects := ApplyAll(s, ops[..i]), ApplyAll(s, ops).tables.effects;
      var k := |s.tables.effects| + Commitments(s, ops[..i]);
      && k < |effects| == |s.tables.effects| + Commitments(s, ops)
      && IsEffectOf(effects[k], ops[i].event, before.tick + 1, before.workloadId)
    decreases |ops|
  {
    hide Apply, ApplyAll, Commits, IsEffectOf;
    var n := |ops| - 1;
    EffectsGrow(s, ops);
    EffectsGrow(s, ops[..i]);
    ApplyLast(s, ops);
    CallAddsEffect(ApplyAll(s, ops[..n]), ops[n]);
    if i < n {
      assert ops[..n][..i] == ops[..i];
      EffectsAreCommitted(s, ops[..n], i);
    }
  }

  /** The intents that were there keep their columns. */
  lemma {:induction false} IntentsKeepColumns(s: State, ops: seq<Op>, k: nat)
    requires k < |s.tables.intents|
    ensures k < |ApplyAll(s, ops).tables.intents|
    ensures SameColumns(ApplyAll(s, ops).tables.intents[k], s.tables.intents[k])
    decreases |ops|
  {
    hide Apply, ApplyAll, Opens;
    if ops == [] {
      NothingApplied(s);
    } else {
      IntentsKeepColumns(s, ops[..|ops| - 1], k);
      ApplyLast(s, ops);
      CallOpensIntent(ApplyAll(s, ops[..|ops| - 1]), ops[|ops| - 1]);
    }
  }

  lemma {:induction false} IntentCount(s: State, ops: seq<Op>)
    ensures |ApplyAll(s, ops).tables.intents| == |s.tables.intents| + Openings(s, ops)
    decreases |ops|
  {
    hide Apply, ApplyAll, Opens, SameColumns, IsIntentOf;
    if ops == [] {
      NothingApplied(s);
    } else {
      IntentCount(s, ops[..|ops| - 1]);
      ApplyLast(s, ops);
      CallOpensIntent(ApplyAll(s, ops[..|ops| - 1]), ops[|ops| - 1]);
    }
  }

  /**
   The intents of a program are the rows it opened, in the order it did, behind those it found, each with the
   columns of its event; all that ever changes in them is their completion.
   */
  lemma {:induction false} IntentsAreOpened(s: State, ops: seq<Op>, i: nat)
    requires i < |ops| && Opens(ApplyAll(s, ops[..i]), ops[i])
    ensures var before, intents := ApplyAll(s, ops[..i]), ApplyAll(s, ops).tables.intents;
      var k := |s.tables.intents| + Openings(s, ops[..i]);
      && k < |intents| == |s.tables.intents| + Openings(s, ops)
      && IsIntentOf(intents[k], ops[i].event, before.tick + 1, before.workloadId)
    decreases |ops|
  {
    hide Apply, ApplyAll, Opens;
    var n := |ops| - 1;
    IntentCount(s, ops);
    IntentCount(s, ops[..i]);
    ApplyLast(s, ops);
    CallOpensIntent(ApplyAll(s, ops[..n]), ops[n]);
    if i < n {
      assert ops[..n][..i] == ops[..i];
      IntentsAreOpened(s, ops[..n], i);
    }
  }

  // ---------------------------------------------------------------- unique ids

  ghost predicate IdsUnique(t: Tables) {
    && IdsDistinct(t.journal)
    && (forall i, k :: 0 <= i < k < |t.effects| ==> t.effects[i].effectId != t.effects[k].effectId)
    && (forall i, k :: 0 <= i < k < |t.intents| ==> t.intents[i].intentId != t.intents[k].intentId)
  }

  lemma CallKeepsIdsUnique(s: State, op: Op)
    requires IdsUnique(s.tables)
    ensures IdsUnique(Apply(s, op).tables)
  {
    hide FirstRow, MaxSeq, Conflicts, RowOf;
    if op.AppendOp? {
      var r := Append(s, op.command);
      forall i, k | 0 <= i < k < |r.state.tables.journal|
        ensures r.state.tables.journal[i].eventId != r.state.tables.journal[k].eventId
      {
        assert s.tables.journal[i] in s.tables.journal;
      }
    }
  }

  /**
   The uniqueness constraints hold from any state that meets them, a state of no sane store included: an id
   that is already there is refused. No event, effect or intent id is in its table twice.
   */
  lemma {:induction false} IdsStayUnique(s: State, ops: seq<Op>)
    requires IdsUnique(s.tables)
    ensures IdsUnique(ApplyAll(s, ops).tables)
    decreases |ops|
  {
    hide IdsUnique, Apply;
    if ops != [] {
      CallKeepsIdsUnique(s, ops[0]);
      IdsStayUnique(Apply(s, ops[0]), ops[1..]);
    }
  }

  // The id that the next append, settle or creation generates.
  function NextEventId(s: State, c: Command): EventId {
    EventId(c.commandKey, c.occurrenceId, s.tick + 1, s.workloadId)
  }

  function NextEffectId(s: State, e: Event): EffectId {
    EffectId(e.eventId, e.occurrenceId, e.logicalKey, s.tick + 1, s.workloadId)
  }

  function NextIntentId(s: State, e: Event): IntentId {
    IntentId(e.eventId, e.commandKey, e.occurrenceId, e.logicalKey, s.tick + 1, s.workloadId)
  }

  /** When a uniqueness constraint raises: exactly if the id that the call generates is in its table already. */
  lemma RaisesExactly(s: State, c: Command, e: Event)
    ensures Append(s, c).out.IntegrityError? <==>
      !IsRefused(s.tables, c) && exists row :: row in s.tables.journal && row.eventId == NextEventId(s, c)
    ensures Settle(s, e).out.IntegrityError? <==>
      && !(s.faults.transient && Attempts(s, e.eventId) == 0)
      && exists row :: row in s.tables.effects && row.effectId == NextEffectId(s, e)
    ensures IntentCreate(s, e).out.IntegrityError? <==>
      exists row :: row in s.tables.intents && row.intentId == NextIntentId(s, e)
    ensures var unknown := EffectByKey(s.tables.effects, e.eventId, e.logicalKey).None?
                           && LatestIntent(s.tables.intents, e.eventId, e.logicalKey).None?;
      IntentCreate(s, e).out.IntegrityError? && unknown ==> Outbox(s, e) == Result(Tick(s), IntegrityError)
  {
    hide FirstRow, MaxSeq, Conflicts, IsRefused, RowOf, EffectByKey, LatestIntent;
    RefusedIsConflict(s.tables, c);
    if exists row :: row in s.tables.effects && row.effectId == NextEffectId(s, e) {
      var row :| row in s.tables.effects && row.effectId == NextEffectId(s, e);
      var i :| 0 <= i < |s.tables.effects| && s.tables.effects[i] == row;
    }
    if exists row :: row in s.tables.intents && row.intentId == NextIntentId(s, e) {
      var row :| row in s.tables.intents && row.intentId == NextIntentId(s, e);
      var i :| 0 <= i < |s.tables.intents| && s.tables.intents[i] == row;
    }
  }

  // ---------------------------------------------------------------- clock, attempts and faults

  /** Every call of the store moves the clock by one, refused or not; starting a run moves it not at all. */
  lemma CallTicks(s: State, op: Op)
    ensures Apply(s, op).tick == s.tick + if op.NewRunOp? then 0 else 1
    ensures Apply(s, op).workloadId == if op.NewRunOp? then op.workloadId else s.workloadId
  {
    hide FirstRow, RowOf, MaxSeq, HasEffectId, HasIntentId;
  }

  /** Attempts count the settles of an event since the last restart or start of a run, whatever came of them. */
  lemma CallCountsAttempts(s: State, op: Op, id: EventId)
    ensures Attempts(Apply(s, op), id) ==
      if op.RestartOp? || op.NewRunOp? then 0
      else Attempts(s, id) + if op.SettleOp? && op.event.eventId == id then 1 else 0
  {
    hide FirstRow, RowOf, MaxSeq, HasEffectId, HasIntentId;
  }

  /**
   Each fault fires once and by itself: the s2 cutpoint at the next append that inserts its row, the transient
   fault at the next settle that is the first attempt at its event, and the s5 cutpoint at the next settle that
   commits. What fires is how the call ends.
   */
  lemma CallSpendsFaults(s: State, op: Op)
    requires !op.NewRunOp?
    ensures var t := Apply(s, op).faults;
      var first := op.SettleOp? && Attempts(s, op.event.eventId) == 0;
      && t.s2Cutpoint == (s.faults.s2Cutpoint && !(op.AppendOp? && Append(s, op.command).out.CutAt?))
      && t.transient == (s.faults.transient && !first)
      && t.s5Cutpoint == (s.faults.s5Cutpoint && !Commits(s, op))
      && (op.AppendOp? && Append(s, op.command).out.CutAt? ==> s.faults.s2Cutpoint)
      && (op.AppendOp? && Append(s, op.command).out.Returned? ==> !s.faults.s2Cutpoint)
      && (op.SettleOp? ==> (Settle(s, op.event).out.TransientFault? <==> s.faults.transient && first))
      && (op.SettleOp? && Commits(s, op) ==> (Settle(s, op.event).out.CutAt? <==> s.faults.s5Cutpoint))
  {
    hide FirstRow, RowOf, MaxSeq, HasEffectId, HasIntentId;
  }

  // ---------------------------------------------------------------- intake

  // Nothing but the binding of the occurrence differs.
  ghost predicate Binds(t: Tables, u: Tables, pair: (string, string), id: EventId) {
    && pair in u.commandKeys && u.commandKeys[pair] == id
    && (forall other :: other != pair ==> Held(u, Binding(other)) == Held(t, Binding(other)))
    && u.(commandKeys := t.commandKeys) == t
  }

  /** A register that is not refused binds its occurrence to the id it is given, and changes nothing else. */
  lemma RegisterBinds(s: State, c: Command, id: EventId)
    ensures var r := Register(s, c, id);
      && (r.out == if IsRefused(s.tables, c) then Refused else Returned(()))
      && (if r.out.Returned? then Binds(s.tables, r.state.tables, c.Pair(), id) else r.state.tables == s.tables)
  {
    hide FirstRow, IsRefused, Conflicts;
    RefusedIsConflict(s.tables, c);
  }

  /** Under every flow, an intake that is not cut and not refused binds the occurrence to the id it answers. */
  lemma AcceptBindsAnswer(f: Flow, s: State, c: Command)
    requires Accept(f, s, c).out.Returned?
    ensures Held(Accept(f, s, c).state.tables, Binding(c.Pair())) == Some(BoundTo(Accept(f, s, c).out.value))
    ensures forall other :: other != c.Pair() ==>
      Held(Accept(f, s, c).state.tables, Binding(other)) == Held(s.tables, Binding(other))
  {
    hide FirstRow, RowOf, MaxSeq, Register, IsRefused;
    RegisterBinds(S2(f, Tick(s), c).state, c, S2(f, Tick(s), c).out.value);
  }

  // Intake was cut after the insert: the row is in the journal, and nothing else happened to the tables.
  lemma CutLeavesRow(f: Flow, s: State, c: Command)
    requires Accept(f, s, c).out.CutAt?
    ensures var r, n := Accept(f, s, c), |s.tables.journal|;
      && |r.state.tables.journal| == n + 1 && s.tables.journal <= r.state.tables.journal
      && r.state.tables.journal[n].Pair() == c.Pair() && r.state.tables.journal[n].payload == PayloadHash(c)
      && r.out == CutAt(r.state.tables.journal[n].eventId)
      && r.state.tables.commandKeys == s.tables.commandKeys
      && !r.state.faults.s2Cutpoint && !IsRefused(s.tables, c)
  {
    hide FirstRow, RowOf, MaxSeq, IsRefused;
    RefusedIsConflict(s.tables, c);
  }

  lemma AppendsOrFinds(f: Flow, s: State, c: Command)
    requires Consistent(s.tables.journal, s.tick) && !Conflicts(s.tables, c) && !s.faults.s2Cutpoint
    ensures var r := Accept(f, s, c);
      && r.out.Returned? && s.tables.journal <= r.state.tables.journal
      && (if f.Baseline? then
            && |r.state.tables.journal| == |s.tables.journal| + 1
            && r.out.value == r.state.tables.journal[|s.tables.journal|].eventId
            && r.out.value.EventId? && s.tick < r.out.value.tick
          else FirstRow(s.tables.journal, c.Pair()).Some? ==> r.out.value == FirstRow(s.tables.journal, c.Pair()).value.eventId)
  {
    hide FirstRow, RowOf, MaxSeq, Append, Consistent;
    var s1 := Tick(s);
    LaterClockKeepsConsistent(s.tables.journal, s.tick, s1.tick);
    AppendAddsNextRow(s1, c);
    var row := NewRow(s1, c);
    FirstRowAppend(s.tables.journal, row, c.Pair());
  }

  lemma CutIsConsistent(f: Flow, s: State, c: Command)
    requires Consistent(s.tables.journal, s.tick) && Accept(f, s, c).out.CutAt?
    ensures var t := Accept(f, s, c).state;
      Consistent(t.tables.journal, t.tick) && !Conflicts(t.tables, c) && FirstRow(t.tables.journal, c.Pair()).Some?
    ensures FirstRow(s.tables.journal, c.Pair()).None? ==>
      FirstRow(Accept(f, s, c).state.tables.journal, c.Pair()).value.eventId == Accept(f, s, c).out.event
  {
    hide FirstRow, RowOf, MaxSeq, Append, Consistent;
    var s1 := Tick(s);
    LaterClockKeepsConsistent(s.tables.journal, s.tick, s1.tick);
    AppendAddsNextRow(s1, c);
    NewRowKeepsConsistent(s1, c);
    FirstRowAppend(s.tables.journal, NewRow(s1, c), c.Pair());
  }

  /**
   An intake that was cut and is retried: under every flow it succeeds and answers the id of the row that the
   cut left. The id it binds is that of the row the retry came to: under the baseline a second row with
   another id, under a flow that looks first the first row of the occurrence.
   */
  lemma RetriedIntakeAnswersCutRow(f: Flow, s: State, c: Command)
    requires Consistent(s.tables.journal, s.tick) && Accept(f, s, c).out.CutAt?
    ensures var r, n := AcceptCommand(f, s, c, true), |s.tables.journal|;
      var journal, keys := r.state.tables.journal, r.state.tables.commandKeys;
      && n < |journal| && s.tables.journal <= journal && journal[n].Pair() == c.Pair()
      && r.out == Returned(journal[n].eventId)
      && c.Pair() in keys
      && (if f.Baseline? then
            |journal| == n + 2 && keys[c.Pair()] == journal[n + 1].eventId != journal[n].eventId
          else FirstRow(journal, c.Pair()).Some? && keys[c.Pair()] == FirstRow(journal, c.Pair()).value.eventId)
  {
    hide FirstRow, Accept, Consistent, Conflicts, IsRefused;
    var cut := Accept(f, s, c).state;
    CutLeavesRow(f, s, c);
    CutIsConsistent(f, s, c);
    AppendsOrFinds(f, cut, c);
    AcceptBindsAnswer(f, cut, c);
    var r := Accept(f, cut, c).state;
    if f.Baseline? {
      CutIdIsOld(f, s, c);
    } else {
      SecondAcceptFinds(f, cut, c);
    }
  }

  lemma CutIdIsOld(f: Flow, s: State, c: Command)
    requires Accept(f, s, c).out.CutAt?
    ensures var id := Accept(f, s, c).out.event; id.EventId? ==> id.tick <= Accept(f, s, c).state.tick
  {
    hide FirstRow, RowOf, MaxSeq;
  }

  lemma SecondAcceptFinds(f: Flow, s: State, c: Command)
    requires !f.Baseline? && FirstRow(s.tables.journal, c.Pair()).Some?
    ensures Accept(f, s, c).state.tables.journal == s.tables.journal
  {
    hide FirstRow;
  }

  /** So the baseline, cut and retried on a new occurrence, registers the second of the two rows it leaves. */
  lemma BaselineRegistersSecondRow(s: State, c: Command)
    requires Consistent(s.tables.journal, s.tick) && s.faults.s2Cutpoint && FirstRow(s.tables.journal, c.Pair()).None?
    ensures var t, n := AcceptCommand(Baseline, s, c, true).state.tables, |s.tables.journal|;
      && |t.journal| == n + 2 && t.journal[n].Pair() == t.journal[n + 1].Pair() == c.Pair()
      && c.Pair() in t.commandKeys && t.commandKeys[c.Pair()] == t.journal[n + 1].eventId != t.journal[n].eventId
  {
    hide FirstRow, Consistent, IsRefused;
    var s1 := Tick(s);
    LaterClockKeepsConsistent(s.tables.journal, s.tick, s1.tick);
    AppendAddsNextRow(s1, c);
    RetriedIntakeAnswersCutRow(Baseline, s, c);
    SecondRowIsOf(s, c);
  }

  lemma SecondRowIsOf(s: State, c: Command)
    requires AcceptCommand(Baseline, s, c, true).out.Returned? && Accept(Baseline, s, c).out.CutAt?
    requires |AcceptCommand(Baseline, s, c, true).state.tables.journal| == |s.tables.journal| + 2
    ensures AcceptCommand(Baseline, s, c, true).state.tables.journal[|s.tables.journal| + 1].Pair() == c.Pair()
  {
    hide FirstRow, RowOf, MaxSeq;
  }
}

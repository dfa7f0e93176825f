/**
 The shapes of the verifier's hidden workloads, for any command, any script of repeats and any faults:
 one occurrence accepted and delivered again and again across restarts, one event with several logical
 effects, and an occurrence offered again with another payload.
 */
module HiddenWorkloads {
  import opened Wrappers
  import opened Settlement
  import opened Journal
  import opened Flows
  import opened Ledger
  import opened RepairInvariant
  import opened RepairRefinement
  import opened ExactlyOnce
  import opened Counting
  import F = FromAnyStore

  // ---------------------------------------------------------------- counts under the invariant

  lemma {:induction false} CountRowsIsOne(journal: seq<JournalRow>, pair: (string, string))
    requires OneRowPerOccurrence(journal)
    ensures CountRows(journal, pair) == (if FirstRow(journal, pair).Some? then 1 else 0)
  {
    if journal != [] {
      CountRowsIsOne(journal[..|journal| - 1], pair);
    }
  }

  lemma {:induction false} CountOfSingleKey(effects: seq<EffectRow>, id: EventId, key: string)
    requires forall e :: e in effects && e.sourceEvent == id ==> e.logicalKey == key
    ensures CountOf(effects, id) == CountEffects(effects, id, key)
  {
    if effects != [] {
      CountOfSingleKey(effects[..|effects| - 1], id, key);
    }
  }

  lemma SettledOnceCountsOne(s: State, p: nat)
    requires Inv(s) && p < |s.tables.journal|
    requires forall key :: (p, key) in Meaning(s).settled <==> key == SETTLEMENT
    ensures CountOf(s.tables.effects, s.tables.journal[p].eventId) == 1
  {
    hide Inv, Meaning, EffectByKey;
    var id := s.tables.journal[p].eventId;
    MeaningRepresents(s);
    KeysOfEvent(s, p);
    CountOfSingleKey(s.tables.effects, id, SETTLEMENT);
    assert OneEffectPerKey(s.tables.effects) by { InvParts(s); }
    CountIsOne(s.tables.effects, id, SETTLEMENT);
  }

  lemma InvParts(s: State)
    requires Inv(s)
    ensures OneEffectPerKey(s.tables.effects) && OneRowPerOccurrence(s.tables.journal)
    ensures IdsDistinct(s.tables.journal) && GapFree(s.tables.journal)
    ensures forall e :: e in s.tables.effects ==> e.amount == EFFECT_AMOUNT
  {
  }

  lemma KeysOfEvent(s: State, p: nat)
    requires Inv(s) && p < |s.tables.journal|
    requires forall key :: (p, key) in Meaning(s).settled <==> key == SETTLEMENT
    ensures EffectByKey(s.tables.effects, s.tables.journal[p].eventId, SETTLEMENT).Some?
    ensures forall e :: e in s.tables.effects && e.sourceEvent == s.tables.journal[p].eventId ==> e.logicalKey == SETTLEMENT
  {
    hide Inv, Meaning, EffectByKey;
    MeaningRepresents(s);
    var id := s.tables.journal[p].eventId;
    forall e | e in s.tables.effects && e.sourceEvent == id ensures e.logicalKey == SETTLEMENT {
      assert EffectByKey(s.tables.effects, id, e.logicalKey).Some?;
      assert (p, e.logicalKey) in Meaning(s).settled;
    }
  }

  lemma SettledIsInRange(l: Ledger, s: State)
    requires Simulates(l, s)
    ensures forall x :: x in l.settled ==> x.0 < |l.accepted|
  {
  }

  // ---------------------------------------------------------------- one occurrence, again and again

  datatype Move = AcceptAgain(retryAfterCut: bool) | DeliverAgain | RestartWorker

  // The budget and the retry behaviour under which a delivery cannot be refused.
  datatype Effort = Effort(budget: int, retry: bool)

  predicate Enough(e: Effort, faults: Faults) {
    1 <= e.budget && (faults.transient ==> e.retry && 2 <= e.budget)
  }

  function CallOf(c: Command, position: nat, e: Effort, move: Move): Call {
    match move
    case AcceptAgain(retry) => AcceptCall(c, retry)
    case DeliverAgain => DeliverCall(position, position + 1, e.budget, e.retry)
    case RestartWorker => WorkerRestart
  }

  function CallsOf(c: Command, position: nat, e: Effort, script: seq<Move>): seq<Call> {
    seq(|script|, i requires 0 <= i < |script| => CallOf(c, position, e, script[i]))
  }

  predicate Delivers(script: seq<Move>) {
    DeliverAgain in script
  }

  // The ledger after a script: one more accepted occurrence, settled when it was delivered.
  ghost predicate Repeated(l: Ledger, m: Ledger, c: Command, delivered: bool) {
    && WellFormed(m)
    && m.accepted == l.accepted + [Accepted(c.Pair(), PayloadHash(c))]
    && (m.faults.transient ==> l.faults.transient)
    && (forall i, key :: (i, key) in m.settled <==>
          (i, key) in l.settled || (delivered && i == |l.accepted| && key == SETTLEMENT))
  }

  lemma FirstAccept(l: Ledger, c: Command, retry: bool)
    requires WellFormed(l) && IndexOf(l.accepted, c.Pair()) == |l.accepted|
    ensures AcceptStep(l, c, retry).reply == Done && Repeated(l, AcceptStep(l, c, retry).ledger, c, false)
  {
  }

  lemma RepeatMove(l: Ledger, m: Ledger, c: Command, e: Effort, delivered: bool, move: Move)
    requires WellFormed(l) && IndexOf(l.accepted, c.Pair()) == |l.accepted|
    requires Repeated(l, m, c, delivered) && Enough(e, l.faults)
    ensures var step := Interpret(m, CallOf(c, |l.accepted|, e, move));
      step.reply == Done && Repeated(l, step.ledger, c, delivered || move.DeliverAgain?)
  {
    match move
    case AcceptAgain(retry) => IndexOfAdmitted(l, c);
    case DeliverAgain =>
    case RestartWorker =>
  }

  lemma {:induction false} ScriptRepeats(f: Flow, s: State, c: Command, e: Effort, script: seq<Move>)
    requires Repaired(f) && Inv(s) && WellFormed(Meaning(s)) && IndexOf(Meaning(s).accepted, c.Pair()) == |Meaning(s).accepted|
    requires script != [] && script[0].AcceptAgain? && Enough(e, s.faults)
    ensures var calls := Under(f, CallsOf(c, |Meaning(s).accepted|, e, script));
      && Inv(RunAll(s, calls).state)
      && Repeated(Meaning(s), Meaning(RunAll(s, calls).state), c, Delivers(script))
      && forall i :: 0 <= i < |RunAll(s, calls).replies| ==> RunAll(s, calls).replies[i] == Done
  {
    hide Inv, Meaning, Perform, Interpret, Repeated, IndexOf;
    var l := Meaning(s);
    var p := |l.accepted|;
    assert l.faults == s.faults by { MeaningFaults(s); }
    var n := |script| - 1;
    var front := script[..n];
    var calls, before := Under(f, CallsOf(c, p, e, script)), Under(f, CallsOf(c, p, e, front));
    assert calls[..n] == before;
    assert calls[n] == (f, CallOf(c, p, e, script[n]));
    if n == 0 {
      assert RunAll(s, before) == Run(s, []);
      RepairImplementsLedger(f, s, CallOf(c, p, e, script[0]));
      FirstInterpreted(l, c, p, e, script[0]);
      assert !Delivers(script);
    } else {
      ScriptRepeats(f, s, c, e, front);
      var mid := RunAll(s, before).state;
      RepairImplementsLedger(f, mid, CallOf(c, p, e, script[n]));
      RepeatMove(l, Meaning(mid), c, e, Delivers(front), script[n]);
      assert script == front + [script[n]];
      assert Delivers(script) <==> Delivers(front) || script[n].DeliverAgain?;
    }
  }

  lemma FirstInterpreted(l: Ledger, c: Command, p: nat, e: Effort, move: Move)
    requires WellFormed(l) && IndexOf(l.accepted, c.Pair()) == |l.accepted| && move.AcceptAgain?
    ensures var step := Interpret(l, CallOf(c, p, e, move)); step.reply == Done && Repeated(l, step.ledger, c, false)
  {
    hide AcceptStep, Repeated, IndexOf;
    FirstAccept(l, c, move.retryAfterCut);
  }

  lemma MeaningFaults(s: State)
    ensures Meaning(s).faults == s.faults && |Meaning(s).accepted| == |s.tables.journal|
  {
  }

  lemma NoKeysNoEffects(s: State, p: nat)
    requires Inv(s) && p < |s.tables.journal|
    requires forall key :: (p, key) !in Meaning(s).settled
    ensures CountOf(s.tables.effects, s.tables.journal[p].eventId) == 0
  {
    hide Inv, Meaning;
    KeysAreSettled(s, p);
    assert KeysOf(s.tables.effects, s.tables.journal[p].eventId) == {};
    InvParts(s);
    EffectsAreKeys(s.tables.effects, s.tables.journal[p].eventId);
  }

  /**
   A new occurrence that is accepted, and then accepted, delivered and restarted in any order and any
   number of times, with every fault armed or not: every call succeeds, the journal gets one row for it,
   and its event gets one effect if it was ever delivered and none otherwise.
   */
  lemma RepeatedOccurrencePasses(f: Flow, s: State, c: Command, e: Effort, script: seq<Move>)
    requires Repaired(f) && Inv(s) && FirstRow(s.tables.journal, c.Pair()) == None
    requires script != [] && script[0].AcceptAgain? && Enough(e, s.faults)
    ensures var p := |s.tables.journal|;
      var run := RunAll(s, Under(f, CallsOf(c, p, e, script)));
      var t := run.state.tables;
      && (forall i :: 0 <= i < |run.replies| ==> run.replies[i] == Done)
      && |t.journal| == p + 1 && t.journal[p].Pair() == c.Pair()
      && CountRows(t.journal, c.Pair()) == 1
      && CountOf(t.effects, t.journal[p].eventId) == if Delivers(script) then 1 else 0
  {
    hide Inv, Meaning, Perform, FirstRow, RowOf, RunAll, Under, CallsOf, EffectByKey;
    MeaningRepresents(s);
    MeaningFaults(s);
    IndexIsFirstRow(Meaning(s), s, c.Pair());
    ScriptRepeats(f, s, c, e, script);
    var t := RunAll(s, Under(f, CallsOf(c, |s.tables.journal|, e, script))).state;
    OccurrenceCounted(s, t, c, Delivers(script));
  }

  lemma OccurrenceCounted(s: State, t: State, c: Command, delivered: bool)
    requires Inv(s) && Inv(t) && Repeated(Meaning(s), Meaning(t), c, delivered)
    ensures var p := |s.tables.journal|;
      && |t.tables.journal| == p + 1 && t.tables.journal[p].Pair() == c.Pair()
      && CountRows(t.tables.journal, c.Pair()) == 1
      && CountOf(t.tables.effects, t.tables.journal[p].eventId) == if delivered then 1 else 0
  {
    hide Inv, FirstRow, RowOf, EffectByKey, Meaning;
    var p := |s.tables.journal|;
    MeaningRepresents(s);
    MeaningRepresents(t);
    MeaningFaults(s);
    MeaningFaults(t);
    SettledIsInRange(Meaning(s), s);
    InvParts(t);
    assert Meaning(t).accepted[p].pair == c.Pair();
    FirstRowAt(t.tables.journal, p);
    CountRowsIsOne(t.tables.journal, c.Pair());
    if delivered {
      SettledOnceCountsOne(t, p);
    } else {
      NoKeysNoEffects(t, p);
    }
  }

  // ---------------------------------------------------------------- one event, several logical effects

  function KeysOf(effects: seq<EffectRow>, id: EventId): set<string> {
    set k | 0 <= k < |effects| && effects[k].sourceEvent == id :: effects[k].logicalKey
  }

  lemma KeysAppend(effects: seq<EffectRow>, row: EffectRow, id: EventId)
    ensures KeysOf(effects + [row], id) ==
      KeysOf(effects, id) + if row.sourceEvent == id then {row.logicalKey} else {}
  {
    var all := effects + [row];
    forall key ensures key in KeysOf(all, id) <==> key in KeysOf(effects, id) || (row.sourceEvent == id && row.logicalKey == key) {
      if key in KeysOf(effects, id) {
        var k :| 0 <= k < |effects| && effects[k].sourceEvent == id && effects[k].logicalKey == key;
        assert all[k] == effects[k];
      }
      if row.sourceEvent == id && row.logicalKey == key {
        assert all[|effects|] == row;
      }
    }
  }

  lemma LastKeyIsNew(effects: seq<EffectRow>)
    requires OneEffectPerKey(effects) && effects != []
    ensures var last := effects[|effects| - 1];
      last.logicalKey !in KeysOf(effects[..|effects| - 1], last.sourceEvent)
  {
  }

  /** One effect per key: counting the effects of an event is counting its keys. */
  lemma {:induction false} EffectsAreKeys(effects: seq<EffectRow>, id: EventId)
    requires OneEffectPerKey(effects)
    ensures CountOf(effects, id) == |KeysOf(effects, id)|
  {
    if effects == [] {
      assert KeysOf(effects, id) == {};
    } else {
      var front, last := effects[..|effects| - 1], effects[|effects| - 1];
      FrontHasOneEach(effects);
      EffectsAreKeys(front, id);
      LastKeyIsNew(effects);
      hide KeysOf, OneEffectPerKey;
      KeysAppend(front, last, id);
      assert effects == front + [last];
    }
  }

  lemma FrontHasOneEach(effects: seq<EffectRow>)
    requires OneEffectPerKey(effects) && effects != []
    ensures OneEffectPerKey(effects[..|effects| - 1])
  {
  }

  lemma KeysAreSettled(s: State, i: nat)
    requires Inv(s) && i < |s.tables.journal|
    ensures forall key :: key in KeysOf(s.tables.effects, s.tables.journal[i].eventId) <==> (i, key) in Meaning(s).settled
  {
    hide Inv, Meaning;
    MeaningRepresents(s);
    var effects, id := s.tables.effects, s.tables.journal[i].eventId;
    forall key ensures key in KeysOf(effects, id) <==> EffectByKey(effects, id, key).Some? {
      if key in KeysOf(effects, id) {
        var k :| 0 <= k < |effects| && effects[k].sourceEvent == id && effects[k].logicalKey == key;
        assert effects[k] in effects;
      }
      if EffectByKey(effects, id, key).Some? {
        var k :| 0 <= k < |effects| && effects[k] == EffectByKey(effects, id, key).value;
      }
    }
  }

  function EmitsOf(i: nat, keys: seq<string>): seq<Call> {
    seq(|keys|, k requires 0 <= k < |keys| => EmitCall(i, keys[k]))
  }

  // What emitting under some keys leaves.
  ghost predicate Emitted(l: Ledger, m: Ledger, i: nat, keys: set<string>) {
    && WellFormed(m) && m.accepted == l.accepted && !m.faults.transient
    && forall n, key :: (n, key) in m.settled <==> (n, key) in l.settled || (n == i && key in keys)
  }

  lemma EmitOneMore(l: Ledger, m: Ledger, i: nat, keys: set<string>, key: string)
    requires i < |l.accepted| && Emitted(l, m, i, keys)
    ensures Emitted(l, Interpret(m, EmitCall(i, key)).ledger, i, keys + {key})
  {
  }

  lemma {:induction false} EmitsSettle(f: Flow, s: State, i: nat, keys: seq<string>)
    requires Repaired(f) && Inv(s) && i < |Meaning(s).accepted| && !s.faults.transient && WellFormed(Meaning(s))
    ensures var t := RunAll(s, Under(f, EmitsOf(i, keys))).state;
      Inv(t) && Emitted(Meaning(s), Meaning(t), i, (set key | key in keys))
  {
    hide Inv, Meaning, Perform, Interpret, Emitted;
    if keys == [] {
      assert Emitted(Meaning(s), Meaning(s), i, {}) by { MeaningFaults(s); NothingEmitted(Meaning(s), i); }
      assert (set key | key in keys) == {};
    } else {
      var n := |keys| - 1;
      EmitsSettle(f, s, i, keys[..n]);
      assert Under(f, EmitsOf(i, keys))[..n] == Under(f, EmitsOf(i, keys[..n]));
      var before := RunAll(s, Under(f, EmitsOf(i, keys[..n]))).state;
      RepairImplementsLedger(f, before, EmitCall(i, keys[n]));
      EmitOneMore(Meaning(s), Meaning(before), i, (set key | key in keys[..n]), keys[n]);
      assert keys == keys[..n] + [keys[n]];
      assert (set key | key in keys) == (set key | key in keys[..n]) + {keys[n]};
    }
  }

  lemma NothingEmitted(l: Ledger, i: nat)
    requires WellFormed(l) && !l.faults.transient
    ensures Emitted(l, l, i, {})
  {
  }

  /**
   One event may have several logical effects, and each only once: emitting under any list of keys,
   repeats and a cutpoint included, leaves exactly the keys it had and the keys of the list, and as many
   effects as keys.
   */
  lemma SeveralKeysSeveralEffects(f: Flow, s: State, i: nat, keys: seq<string>)
    requires Repaired(f) && Inv(s) && i < |s.tables.journal| && !s.faults.transient
    ensures var id := s.tables.journal[i].eventId;
      var t := RunAll(s, Under(f, EmitsOf(i, keys))).state.tables;
      && i < |t.journal| && t.journal[i].eventId == id
      && KeysOf(t.effects, id) == KeysOf(s.tables.effects, id) + (set key | key in keys)
      && CountOf(t.effects, id) == |KeysOf(t.effects, id)|
  {
    hide Inv, Meaning, Perform, RunAll, Under, EmitsOf, KeysOf;
    MeaningRepresents(s);
    MeaningFaults(s);
    EmitsSettle(f, s, i, keys);
    var t := RunAll(s, Under(f, EmitsOf(i, keys))).state;
    MeaningFaults(t);
    EmitsKeepJournal(f, s, i, keys);
    KeysAreSettled(s, i);
    KeysAreSettled(t, i);
    InvParts(t);
    EffectsAreKeys(t.tables.effects, s.tables.journal[i].eventId);
  }

  lemma {:induction false} EmitsKeepJournal(f: Flow, s: State, i: nat, keys: seq<string>)
    ensures RunAll(s, Under(f, EmitsOf(i, keys))).state.tables.journal == s.tables.journal
  {
    hide Perform;
    if keys != [] {
      var n := |keys| - 1;
      EmitsKeepJournal(f, s, i, keys[..n]);
      assert Under(f, EmitsOf(i, keys))[..n] == Under(f, EmitsOf(i, keys[..n]));
      EmitKeepsJournal(f, RunAll(s, Under(f, EmitsOf(i, keys[..n]))).state, i, keys[n]);
    }
  }

  lemma OutboxKeepsJournal(s: State, e: Event)
    ensures Outbox(s, e).state.tables.journal == s.tables.journal
  {
    hide EffectByKey, LatestIntent, HasIntentId, CompleteRows, Settle;
    F.SettleKeepsJournal(s, e);
    F.SettleKeepsJournal(IntentCreate(s, e).state, e);
  }

  lemma EmitKeepsJournal(f: Flow, s: State, i: nat, key: string)
    ensures Perform(f, s, EmitCall(i, key)).state.tables.journal == s.tables.journal
  {
    hide RowOf, EffectByKey, EffectOf, Outbox, Settle;
    if i < |s.tables.journal| {
      var loaded := Load(s, s.tables.journal[i].eventId);
      if loaded.out.Returned? {
        OutboxKeepsJournal(loaded.state, loaded.out.value.(logicalKey := key));
        F.SettleKeepsJournal(loaded.state, loaded.out.value.(logicalKey := key));
      }
    }
  }

  // ---------------------------------------------------------------- another payload

  /**
   An occurrence offered again with another payload is refused, whatever the flow, and leaves the tables
   as they were: the baseline refuses it in s2, every repair in s3.
   */
  lemma ConflictIsRefused(f: Flow, s: State, c: Command, d: Command, retry: bool)
    requires FirstRow(s.tables.journal, c.Pair()).Some? && FirstRow(s.tables.journal, c.Pair()).value.payload == PayloadHash(c)
    requires d.Pair() == c.Pair() && d != c
    ensures AcceptCommand(f, s, d, retry).out == Refused
    ensures AcceptCommand(f, s, d, retry).state.tables == s.tables
  {
    hide FirstRow, RowOf, MaxSeq;
  }
}

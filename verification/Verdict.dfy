/**
 The public-workload procedure: accept every command, deliver every accepted event, check the durable
 outcome. Under a repaired flow its verdict is decided, over any sane store, by what the tables already hold
 of the listed commands and by which of them was journalled last.
 */
module Verdict {
  import opened Wrappers
  import opened Settlement
  import opened Journal
  import opened Flows
  import opened RepairInvariant
  import opened Counting
  import opened FromAnyStore
  import opened SaneStore

  datatype Intake = Intake(state: State, ids: seq<EventId>, out: Outcome<()>)

  function Void<T>(o: Outcome<T>): Outcome<()> {
    match o
    case Returned(_) => Returned(())
    case Refused => Refused
    case CutAt(id) => CutAt(id)
    case TransientFault => TransientFault
    case IntegrityError => IntegrityError
  }

  function Pairs(commands: seq<Command>): seq<(string, string)> {
    seq(|commands|, i requires 0 <= i < |commands| => commands[i].Pair())
  }

  function AcceptAll(f: Flow, s: State, commands: seq<Command>): Intake {
    if commands == [] then Intake(s, [], Returned(()))
    else
      var prior := AcceptAll(f, s, commands[..|commands| - 1]);
      if !prior.out.Returned? then prior
      else
        var r := AcceptCommand(f, prior.state, commands[|commands| - 1], true);
        if r.out.Returned? then Intake(Tick(r.state), prior.ids + [r.out.value], Returned(()))
        else Intake(r.state, prior.ids, Void(r.out))
  }

  // The log lines before and after a delivery move the clock.
  function DeliverOne(f: Flow, s: State, id: EventId, budget: int): Result<()> {
    match RowOf(s.tables.journal, id)
    case None => Result(s, Refused)
    case Some(row) =>
      var r := DeliverEvent(f, Tick(s), id, row.seqNo, budget, true);
      if r.out.Returned? then Result(Tick(r.state), Returned(())) else Result(r.state, Void(r.out))
  }

  function DeliverAll(f: Flow, s: State, ids: seq<EventId>, budget: int): Result<()> {
    if ids == [] then Result(s, Returned(()))
    else
      var prior := DeliverAll(f, s, ids[..|ids| - 1], budget);
      if !prior.out.Returned? then prior else DeliverOne(f, prior.state, ids[|ids| - 1], budget)
  }

  function RunWorkload(f: Flow, s: State, commands: seq<Command>, budget: int): Result<bool> {
    var intake := AcceptAll(f, s, commands);
    if !intake.out.Returned? then Result(intake.state, FailedAs(intake.out))
    else
      var r := DeliverAll(f, intake.state, intake.ids, budget);
      if !r.out.Returned? then Result(r.state, FailedAs(r.out))
      else Result(r.state, Returned(DurableOutcome(r.state.tables, Pairs(commands), |commands|)))
  }

  function FailedAs(o: Outcome<()>): Outcome<bool>
    requires !o.Returned?
  {
    match o
    case Refused => Refused
    case CutAt(id) => CutAt(id)
    case TransientFault => TransientFault
    case IntegrityError => IntegrityError
  }

  // ---------------------------------------------------------------- what the tables hold of a command

  function RowFor(t: Tables, c: Command): Option<JournalRow> {
    FirstRow(t.journal, c.Pair())
  }

  // At most one effect for the event, the right one.
  ghost predicate Tidy(t: Tables, id: EventId) {
    && CountOf(t.effects, id) <= 1
    && forall e :: e in t.effects && e.sourceEvent == id ==> e.logicalKey == SETTLEMENT && e.amount == EFFECT_AMOUNT
  }

  // The command is new, or has one row with its own payload and a tidy event.
  ghost predicate Sound(t: Tables, c: Command) {
    && CountRows(t.journal, c.Pair()) <= 1
    && (RowFor(t, c).Some? ==> RowFor(t, c).value.payload == PayloadHash(c) && Tidy(t, RowFor(t, c).value.eventId))
  }

  // The outbox is told that the command is settled when it is not.
  predicate Claimed(t: Tables, c: Command) {
    RowFor(t, c).Some? && ClaimsMissing(t, RowFor(t, c).value.eventId, SETTLEMENT)
  }

  ghost predicate AllSound(t: Tables, commands: seq<Command>) {
    forall i :: 0 <= i < |commands| ==> Sound(t, commands[i])
  }

  predicate NoneClaimed(t: Tables, commands: seq<Command>) {
    forall i :: 0 <= i < |commands| ==> !Claimed(t, commands[i])
  }

  // The place of a command in the journal; a new one comes after everything there is.
  function Place(t: Tables, c: Command): nat {
    if RowFor(t, c).Some? then RowFor(t, c).value.seqNo else |t.journal| + 1
  }

  // A new last command is always latest.
  ghost predicate LastIsLatest(t: Tables, commands: seq<Command>)
    requires commands != []
  {
    forall i :: 0 <= i < |commands| ==> Place(t, commands[i]) <= Place(t, commands[|commands| - 1])
  }

  // ---------------------------------------------------------------- intake

  predicate Fits(t: Tables, c: Command) {
    RowFor(t, c).Some? ==> RowFor(t, c).value.payload == PayloadHash(c)
  }

  predicate AllFit(t: Tables, commands: seq<Command>) {
    forall i :: 0 <= i < |commands| ==> Fits(t, commands[i])
  }

  // The row a command has after intake: the one it had, or a later one with an id not seen before.
  ghost predicate Has(s: State, t: State, c: Command, id: EventId) {
    && RowFor(t.tables, c).Some?
    && (var row := RowFor(t.tables, c).value;
        && row.eventId == id && row.payload == PayloadHash(c)
        && match RowFor(s.tables, c)
           case Some(had) => row == had
           case None => |s.tables.journal| < row.seqNo && id.EventId? && s.tick < id.tick)
  }

  ghost predicate RowsAfter(s: State, t: State, commands: seq<Command>) {
    && (forall pair :: CountRows(t.tables.journal, pair) ==
          if pair in Pairs(commands) && FirstRow(s.tables.journal, pair) == None then 1 else CountRows(s.tables.journal, pair))
    && (forall pair :: FirstRow(s.tables.journal, pair).Some? || pair !in Pairs(commands) ==>
          FirstRow(t.tables.journal, pair) == FirstRow(s.tables.journal, pair))
  }

  // New commands are journalled in the order of the list.
  ghost predicate InOrder(s: State, t: State, commands: seq<Command>) {
    forall i, k :: 0 <= i < k < |commands| && RowFor(s.tables, commands[i]) == None && RowFor(s.tables, commands[k]) == None ==>
      Place(t.tables, commands[i]) < Place(t.tables, commands[k])
  }

  ghost predicate TakenIn(s: State, commands: seq<Command>, r: Intake) {
    && r.out.Returned?
    && Sane(r.state) && SameAttempts(s, r.state)
    && r.state.tables.(journal := s.tables.journal, commandKeys := s.tables.commandKeys) == s.tables
    && |s.tables.journal| <= |r.state.tables.journal|
    && |r.ids| == |commands|
    && (forall i :: 0 <= i < |commands| ==> Has(s, r.state, commands[i], r.ids[i]))
    && RowsAfter(s, r.state, commands)
    && InOrder(s, r.state, commands)
  }

  lemma PairsOneMore(commands: seq<Command>, c: Command)
    ensures forall pair :: pair in Pairs(commands + [c]) <==> pair in Pairs(commands) || pair == c.Pair()
  {
    assert Pairs(commands + [c]) == Pairs(commands) + [c.Pair()];
  }

  lemma DistinctFront(commands: seq<Command>)
    requires commands != [] && Distinct(Pairs(commands))
    ensures var front := commands[..|commands| - 1];
      Distinct(Pairs(front)) && commands[|commands| - 1].Pair() !in Pairs(front)
  {
    var front := commands[..|commands| - 1];
    assert forall i :: 0 <= i < |front| ==> Pairs(front)[i] == Pairs(commands)[i];
    assert Pairs(commands)[|front|] == commands[|front|].Pair();
  }

  lemma NothingTakenIn(s: State)
    requires Sane(s)
    ensures TakenIn(s, [], Intake(s, [], Returned(())))
  {
  }

  lemma SeqWithin(journal: seq<JournalRow>, now: nat, pair: (string, string))
    requires Consistent(journal, now) && FirstRow(journal, pair).Some?
    ensures 1 <= FirstRow(journal, pair).value.seqNo <= |journal|
  {
    var row := FirstRow(journal, pair).value;
    var i :| 0 <= i < |journal| && journal[i] == row;
  }

  lemma KnownTakesIn(s: State, front: seq<Command>, c: Command, prior: Intake, r: Result<EventId>)
    requires TakenIn(s, front, prior) && c.Pair() !in Pairs(front) && Fits(s.tables, c)
    requires RowFor(s.tables, c).Some? && Accepts(prior.state, c, r)
    ensures r.out.Returned?
    ensures TakenIn(s, front + [c], Intake(Tick(r.state), prior.ids + [r.out.value], Returned(())))
  {
    hide FirstRow, CountRows, Admits, Pairs, Consistent, IdsOld, Owned, SourcesOld;
    PairsOneMore(front, c);
    AcceptKeepsSane(prior.state, c, r);
    LaterIsSane(r.state, Tick(r.state));
  }

  lemma FreshRows(s: State, front: seq<Command>, c: Command, p: State, t: State, id: EventId)
    requires RowsAfter(s, p, front) && c.Pair() !in Pairs(front) && RowFor(s.tables, c) == None
    requires Admits(p, t, c, id)
    ensures RowsAfter(s, t, front + [c])
    ensures RowFor(t.tables, c) == Some(t.tables.journal[|p.tables.journal|])
    ensures forall d: Command :: d.Pair() != c.Pair() ==> RowFor(t.tables, d) == RowFor(p.tables, d)
  {
    hide FirstRow, CountRows, Pairs, Consistent;
    var row := t.tables.journal[|p.tables.journal|];
    PairsOneMore(front, c);
    CountRowsNone(s.tables.journal, c.Pair());
    forall pair
      ensures CountRows(t.tables.journal, pair) == CountRows(p.tables.journal, pair) + if row.Pair() == pair then 1 else 0
    {
      CountRowsAppend(p.tables.journal, row, pair);
    }
    forall pair ensures FirstRow(t.tables.journal, pair) ==
      if FirstRow(p.tables.journal, pair).Some? then FirstRow(p.tables.journal, pair)
      else if row.Pair() == pair then Some(row) else None
    {
      FirstRowAppend(p.tables.journal, row, pair);
    }
  }

  lemma FreshTakesIn(s: State, front: seq<Command>, c: Command, prior: Intake, r: Result<EventId>)
    requires TakenIn(s, front, prior) && c.Pair() !in Pairs(front)
    requires RowFor(s.tables, c) == None && Accepts(prior.state, c, r)
    ensures r.out.Returned?
    ensures TakenIn(s, front + [c], Intake(Tick(r.state), prior.ids + [r.out.value], Returned(())))
  {
    hide FirstRow, CountRows, Pairs, Consistent, IdsOld, Owned, SourcesOld, RowsAfter;
    assert FirstRow(prior.state.tables.journal, c.Pair()) == None by { UntouchedRow(s, prior.state, front, c); }
    var id := r.out.value;
    FreshRows(s, front, c, prior.state, r.state, id);
    AcceptKeepsSane(prior.state, c, r);
    LaterIsSane(r.state, Tick(r.state));
    var all := front + [c];
    forall i | 0 <= i < |front|
      ensures RowFor(r.state.tables, front[i]) == RowFor(prior.state.tables, front[i])
      ensures Place(r.state.tables, front[i]) <= |prior.state.tables.journal|
    {
      assert Pairs(front)[i] == front[i].Pair() by { PairAt(front, i); }
      assert Has(s, prior.state, front[i], prior.ids[i]);
      SeqWithin(prior.state.tables.journal, prior.state.tick, front[i].Pair());
    }
    assert RowsAfter(s, Tick(r.state), all) by { SameRows(s, r.state, Tick(r.state), all); }
  }

  lemma SameRows(s: State, t: State, u: State, commands: seq<Command>)
    requires RowsAfter(s, t, commands) && u.tables == t.tables
    ensures RowsAfter(s, u, commands)
  {
  }

  lemma PairAt(commands: seq<Command>, i: nat)
    requires i < |commands|
    ensures |Pairs(commands)| == |commands| && Pairs(commands)[i] == commands[i].Pair()
  {
  }

  lemma UntouchedRow(s: State, t: State, commands: seq<Command>, c: Command)
    requires RowsAfter(s, t, commands) && (c.Pair() !in Pairs(commands) || RowFor(s.tables, c).Some?)
    ensures RowFor(t.tables, c) == RowFor(s.tables, c)
  {
    hide FirstRow, CountRows, Pairs;
  }

  lemma UnfitIsRefused(s: State, front: seq<Command>, c: Command, prior: Intake, r: Result<EventId>)
    requires TakenIn(s, front, prior) && !Fits(s.tables, c) && Accepts(prior.state, c, r)
    ensures r.out == Refused
  {
    hide FirstRow, Admits, Sane;
    UntouchedRow(s, prior.state, front, c);
  }

  /** Intake takes every command in, or refuses if one of them is known with another payload. */
  lemma {:induction false} IntakeDecides(f: Flow, s: State, commands: seq<Command>)
    requires Repaired(f) && Sane(s) && Distinct(Pairs(commands))
    ensures if AllFit(s.tables, commands) then TakenIn(s, commands, AcceptAll(f, s, commands))
            else AcceptAll(f, s, commands).out == Refused
  {
    hide Sane, TakenIn, AcceptCommand, Accepts, RowFor, Pairs;
    if commands == [] {
      NothingTakenIn(s);
    } else {
      var front, c := commands[..|commands| - 1], commands[|commands| - 1];
      DistinctFront(commands);
      IntakeDecides(f, s, front);
      assert front + [c] == commands;
      if AllFit(s.tables, front) {
        var prior := AcceptAll(f, s, front);
        var r := AcceptCommand(f, prior.state, c, true);
        TakenIsSane(s, front, prior);
        AcceptExactly(f, prior.state, c);
        if !Fits(s.tables, c) {
          UnfitIsRefused(s, front, c, prior, r);
        } else if RowFor(s.tables, c).Some? {
          KnownTakesIn(s, front, c, prior, r);
        } else {
          FreshTakesIn(s, front, c, prior, r);
        }
      }
    }
  }

  lemma TakenIsSane(s: State, commands: seq<Command>, r: Intake)
    requires TakenIn(s, commands, r)
    ensures r.out.Returned? && Sane(r.state) && Consistent(r.state.tables.journal, r.state.tick)
  {
  }

  // ---------------------------------------------------------------- delivering

  // An event's effects and intents are as they were.
  ghost predicate SameEvent(t: Tables, u: Tables, id: EventId) {
    && CountOf(u.effects, id) == CountOf(t.effects, id)
    && (forall key :: EffectByKey(u.effects, id, key) == EffectByKey(t.effects, id, key))
    && (forall key :: LatestIntent(u.intents, id, key) == LatestIntent(t.intents, id, key))
    && (forall e: EffectRow :: e.sourceEvent == id ==> (e in u.effects <==> e in t.effects))
  }

  // An event was delivered: the missing effect was added, and no other.
  ghost predicate SettledEvent(f: Flow, t: Tables, u: Tables, id: EventId) {
    if Unsettled(f, t, id, SETTLEMENT) then
      && CountOf(u.effects, id) == CountOf(t.effects, id) + 1
      && EffectByKey(u.effects, id, SETTLEMENT).Some?
      && (forall e :: e in t.effects && e.sourceEvent == id ==> e in u.effects)
      && (forall e :: e in u.effects && e.sourceEvent == id ==>
            e in t.effects || (e.logicalKey == SETTLEMENT && e.amount == EFFECT_AMOUNT))
    else
      && CountOf(u.effects, id) == CountOf(t.effects, id)
      && (forall key :: EffectByKey(u.effects, id, key) == EffectByKey(t.effects, id, key))
      && (forall e: EffectRow :: e.sourceEvent == id ==> (e in u.effects <==> e in t.effects))
  }

  ghost predicate NoneUnsettled(f: Flow, s: State, ids: seq<EventId>) {
    forall id :: id in ids ==> !Unsettled(f, s.tables, id, SETTLEMENT)
  }

  // There is no attempt at all, or the one attempt is taken by the fault.
  ghost predicate Starved(f: Flow, s: State, ids: seq<EventId>, budget: int) {
    ids != [] && (budget < 1 || (budget < 2 && s.faults.transient && !NoneUnsettled(f, s, ids)))
  }

  ghost predicate Handed(f: Flow, s: State, t: State, ids: seq<EventId>) {
    && Sane(t) && s.tick <= t.tick && t.tables.journal == s.tables.journal
    && (t.faults.transient ==> s.faults.transient)
    && (forall id :: id in ids ==> SettledEvent(f, s.tables, t.tables, id))
    && (forall id :: id !in ids ==> SameEvent(s.tables, t.tables, id))
    && (NoneUnsettled(f, s, ids) ==> t.faults == s.faults && t.attempts == s.attempts)
    && (ids != [] ==>
          RowOf(s.tables.journal, ids[|ids| - 1]).Some? &&
          t.tables.cursor == RowOf(s.tables.journal, ids[|ids| - 1]).value.seqNo)
  }

  lemma AddsElsewhere(t: Tables, u: Tables, id: EventId, other: EventId)
    requires Adds(t, u, id, SETTLEMENT) && other != id
    ensures CountOf(u.effects, other) == CountOf(t.effects, other)
    ensures forall key :: EffectByKey(u.effects, other, key) == EffectByKey(t.effects, other, key)
    ensures forall e: EffectRow :: e.sourceEvent == other ==> (e in u.effects <==> e in t.effects)
  {
    hide CountOf, EffectByKey;
    var row := u.effects[|t.effects|];
    CountOfAppend(t.effects, row, other);
    forall key ensures EffectByKey(u.effects, other, key) == EffectByKey(t.effects, other, key) {
      EffectByKeyAppend(t.effects, row, other, key);
    }
  }

  lemma AddsHere(f: Flow, t: Tables, u: Tables, id: EventId)
    requires Adds(t, u, id, SETTLEMENT) && Unsettled(f, t, id, SETTLEMENT)
    ensures SettledEvent(f, t, u, id)
  {
    hide CountOf, EffectByKey, LatestIntent;
    var row := u.effects[|t.effects|];
    CountOfAppend(t.effects, row, id);
    EffectByKeyAppend(t.effects, row, id, SETTLEMENT);
  }

  lemma OneHanded(f: Flow, s: State, id: EventId, row: JournalRow, budget: int)
    requires Repaired(f) && Sane(s) && RowOf(s.tables.journal, id) == Some(row)
    ensures var r := DeliverOne(f, s, id, budget);
      if 1 <= budget && (FaultFires(f, s, id, SETTLEMENT) ==> 2 <= budget)
      then r.out == Returned(()) && Handed(f, s, r.state, [id])
      else r.out == Refused
  {
    hide DeliverEvent, RowOf, Sane, Unsettled, Moves, Adds, CountOf, EffectByKey, LatestIntent, SettledEvent, FaultFires;
    LaterIsSane(s, Tick(s));
    SaneParts(s);
    SaneParts(Tick(s));
    DeliveryReturnsExactlyWhen(f, Tick(s), id, row.seqNo, budget, true);
    SameFault(f, s, id);
    DeliveryKeepsSane(f, Tick(s), id, row.seqNo, budget, true);
    var t := DeliverEvent(f, Tick(s), id, row.seqNo, budget, true).state;
    MovedIntents(Tick(s), t, id);
    LaterIsSane(t, Tick(t));
    if 1 <= budget && (FaultFires(f, s, id, SETTLEMENT) ==> 2 <= budget) {
      if Unsettled(f, s.tables, id, SETTLEMENT) {
        AddsHere(f, s.tables, t.tables, id);
        forall other | other != id ensures SameEvent(s.tables, t.tables, other) {
          AddsElsewhere(s.tables, t.tables, id, other);
        }
      } else {
        assert SettledEvent(f, s.tables, t.tables, id) by { NothingAdded(f, s.tables, t.tables, id); }
      }
    }
  }

  lemma SameFault(f: Flow, s: State, id: EventId)
    ensures FaultFires(f, Tick(s), id, SETTLEMENT) <==> FaultFires(f, s, id, SETTLEMENT)
  {
    hide Unsettled;
  }

  lemma NothingAdded(f: Flow, t: Tables, u: Tables, id: EventId)
    requires u.effects == t.effects && !Unsettled(f, t, id, SETTLEMENT)
    ensures SettledEvent(f, t, u, id)
  {
  }

  lemma SaneParts(s: State)
    requires Sane(s)
    ensures IdsOld(s) && Consistent(s.tables.journal, s.tick)
  {
  }

  lemma MovedIntents(s: State, t: State, id: EventId)
    requires Moves(s, t, id)
    ensures forall other, key :: other != id ==>
      LatestIntent(t.tables.intents, other, key) == LatestIntent(s.tables.intents, other, key)
  {
  }

  lemma StillUnsettled(f: Flow, t: Tables, u: Tables, id: EventId)
    requires SameEvent(t, u, id)
    ensures Unsettled(f, u, id, SETTLEMENT) <==> Unsettled(f, t, id, SETTLEMENT)
  {
    hide EffectByKey, LatestIntent, CountOf;
  }

  lemma SettledThenSame(f: Flow, t: Tables, u: Tables, v: Tables, id: EventId)
    requires SettledEvent(f, t, u, id) && SameEvent(u, v, id)
    ensures SettledEvent(f, t, v, id)
  {
    hide EffectByKey, LatestIntent, CountOf, Unsettled;
  }

  lemma SameThenSettled(f: Flow, t: Tables, u: Tables, v: Tables, id: EventId)
    requires SameEvent(t, u, id) && SettledEvent(f, u, v, id)
    ensures SettledEvent(f, t, v, id)
  {
    hide EffectByKey, LatestIntent, CountOf, Unsettled;
    StillUnsettled(f, t, u, id);
  }

  lemma SameThenSame(t: Tables, u: Tables, v: Tables, id: EventId)
    requires SameEvent(t, u, id) && SameEvent(u, v, id)
    ensures SameEvent(t, v, id)
  {
    hide EffectByKey, LatestIntent, CountOf;
  }

  lemma NoneOfMore(f: Flow, s: State, front: seq<EventId>, id: EventId)
    ensures NoneUnsettled(f, s, front + [id]) <==> NoneUnsettled(f, s, front) && !Unsettled(f, s.tables, id, SETTLEMENT)
    ensures front == [] ==> front + [id] == [id] && NoneUnsettled(f, s, front)
  {
    hide Unsettled;
    assert id in front + [id] && forall other :: other in front ==> other in front + [id];
  }

  lemma HandOneMore(f: Flow, s: State, t: State, u: State, front: seq<EventId>, id: EventId)
    requires Handed(f, s, t, front) && Handed(f, t, u, [id]) && id !in front
    ensures Handed(f, s, u, front + [id])
  {
    hide Sane, RowOf, SettledEvent, SameEvent, Unsettled;
    forall other | other in front ensures SettledEvent(f, s.tables, u.tables, other) {
      SettledThenSame(f, s.tables, t.tables, u.tables, other);
    }
    SameThenSettled(f, s.tables, t.tables, u.tables, id);
    forall other | other !in front + [id] ensures SameEvent(s.tables, u.tables, other) {
      SameThenSame(s.tables, t.tables, u.tables, other);
    }
    StillUnsettled(f, s.tables, t.tables, id);
    NoneOfMore(f, s, front, id);
    assert NoneUnsettled(f, t, [id]) <==> !Unsettled(f, t.tables, id, SETTLEMENT) by { NoneOfMore(f, t, [], id); }
  }

  lemma NothingHanded(f: Flow, s: State)
    requires Sane(s)
    ensures Handed(f, s, s, [])
  {
    hide Sane;
  }

  lemma HandedIsSane(f: Flow, s: State, t: State, ids: seq<EventId>)
    requires Handed(f, s, t, ids)
    ensures Sane(t) && t.tables.journal == s.tables.journal
  {
  }

  lemma HandedFaults(f: Flow, s: State, t: State, ids: seq<EventId>, id: EventId)
    requires Handed(f, s, t, ids) && id !in ids
    ensures t.faults.transient ==> s.faults.transient
    ensures NoneUnsettled(f, s, ids) ==> t.faults == s.faults && t.attempts == s.attempts
    ensures Unsettled(f, t.tables, id, SETTLEMENT) <==> Unsettled(f, s.tables, id, SETTLEMENT)
  {
    hide Sane, RowOf, SettledEvent, SameEvent, Unsettled, NoneUnsettled;
    StillUnsettled(f, s.tables, t.tables, id);
  }

  /**
   Delivering a list of journalled events settles each that is not, and leaves all other events alone. It is
   refused if and only if there is no attempt at all, or a single one that the fault takes.
   */
  lemma {:induction false} DeliverAllHands(f: Flow, s: State, ids: seq<EventId>, budget: int)
    requires Repaired(f) && Sane(s) && Distinct(ids) && (budget == 1 && s.faults.transient ==> s.attempts == map[])
    requires forall i :: 0 <= i < |ids| ==> RowOf(s.tables.journal, ids[i]).Some?
    ensures var r := DeliverAll(f, s, ids, budget);
      if Starved(f, s, ids, budget) then r.out == Refused else r.out == Returned(()) && Handed(f, s, r.state, ids)
    decreases |ids|
  {
    hide Sane, DeliverOne, Handed, RowOf, NoneUnsettled, Unsettled;
    if ids == [] {
      NothingHanded(f, s);
    } else {
      var k := |ids| - 1;
      var front, id := ids[..k], ids[k];
      DeliverAllHands(f, s, front, budget);
      assert front + [id] == ids && id !in front;
      NoneOfMore(f, s, front, id);
      if !Starved(f, s, front, budget) {
        var prior := DeliverAll(f, s, front, budget);
        HandedIsSane(f, s, prior.state, front);
        HandedFaults(f, s, prior.state, front, id);
        OneHanded(f, prior.state, id, RowOf(prior.state.tables.journal, id).value, budget);
        if !Starved(f, s, ids, budget) {
          HandOneMore(f, s, prior.state, DeliverOne(f, prior.state, id, budget).state, front, id);
        }
      }
    }
  }

  // ---------------------------------------------------------------- the outcome

  ghost predicate RightEffect(t: Tables, id: EventId) {
    CountOf(t.effects, id) == 1 && forall e :: e in t.effects && e.sourceEvent == id ==> e.amount == EFFECT_AMOUNT
  }

  // One effect of the right amount afterwards is a tidy event before.
  lemma TidyExactly(f: Flow, t: Tables, u: Tables, id: EventId)
    requires SettledEvent(f, t, u, id) && !(f.IntentOutbox? && ClaimsMissing(t, id, SETTLEMENT))
    ensures 1 <= CountOf(u.effects, id) && EffectByKey(u.effects, id, SETTLEMENT).Some?
    ensures RightEffect(u, id) <==> Tidy(t, id)
    ensures Tidy(t, id) ==> Tidy(u, id)
  {
    hide CountOf, EffectByKey, LatestIntent;
    CountOfNone(t.effects, id);
    CountOfNone(u.effects, id);
    if EffectByKey(t.effects, id, SETTLEMENT).Some? {
      OneEffectIsTheFound(t.effects, id);
    }
  }

  lemma {:induction false} OneEffectIsTheFound(effects: seq<EffectRow>, id: EventId)
    requires EffectByKey(effects, id, SETTLEMENT).Some?
    ensures CountOf(effects, id) <= 1 ==>
      forall e :: e in effects && e.sourceEvent == id ==> e == EffectByKey(effects, id, SETTLEMENT).value
  {
    var front, last := effects[..|effects| - 1], effects[|effects| - 1];
    assert effects == front + [last];
    CountOfNone(front, id);
    if EffectByKey(front, id, SETTLEMENT).Some? {
      OneEffectIsTheFound(front, id);
    }
  }

  // ---------------------------------------------------------------- events of the listed commands

  // The listed commands have their rows, with these event ids.
  ghost predicate Rowed(t: Tables, commands: seq<Command>, ids: seq<EventId>) {
    && |ids| == |commands|
    && forall i :: 0 <= i < |commands| ==> RowFor(t, commands[i]).Some? && RowFor(t, commands[i]).value.eventId == ids[i]
  }

  lemma RowOfRowed(s: State, commands: seq<Command>, ids: seq<EventId>, i: nat)
    requires Consistent(s.tables.journal, s.tick) && Rowed(s.tables, commands, ids) && i < |commands|
    ensures RowOf(s.tables.journal, ids[i]) == RowFor(s.tables, commands[i])
  {
    hide FirstRow, RowOf;
    var row := RowFor(s.tables, commands[i]).value;
    var n :| 0 <= n < |s.tables.journal| && s.tables.journal[n] == row;
    RowOfAt(s.tables.journal, n);
  }

  lemma SameEventSamePair(s: State, c: Command, d: Command)
    requires Consistent(s.tables.journal, s.tick) && RowFor(s.tables, c).Some? && RowFor(s.tables, d).Some?
    requires RowFor(s.tables, c).value.eventId == RowFor(s.tables, d).value.eventId
    ensures c.Pair() == d.Pair()
  {
    hide FirstRow, RowOf;
    var x, y := RowFor(s.tables, c).value, RowFor(s.tables, d).value;
    var n :| 0 <= n < |s.tables.journal| && s.tables.journal[n] == x;
    var m :| 0 <= m < |s.tables.journal| && s.tables.journal[m] == y;
    assert n == m;
  }

  lemma IdsAreDistinct(s: State, commands: seq<Command>, ids: seq<EventId>)
    requires Consistent(s.tables.journal, s.tick) && Rowed(s.tables, commands, ids) && Distinct(Pairs(commands))
    ensures Distinct(ids)
  {
    hide FirstRow, Consistent;
    forall i, k | 0 <= i < k < |ids| ensures ids[i] != ids[k] {
      PairAt(commands, i);
      PairAt(commands, k);
      if ids[i] == ids[k] {
        SameEventSamePair(s, commands[i], commands[k]);
        assert false;
      }
    }
  }

  lemma FutureEventIsBlank(s: State, id: EventId)
    requires Sane(s) && id.EventId? && s.tick < id.tick
    ensures CountOf(s.tables.effects, id) == 0 && Tidy(s.tables, id)
    ensures EffectByKey(s.tables.effects, id, SETTLEMENT) == None && !ClaimsMissing(s.tables, id, SETTLEMENT)
  {
    hide EffectByKey, CountOf;
    CountOfNone(s.tables.effects, id);
  }

  // Intake leaves as sound, for each command, exactly what was sound before it.
  lemma SoundAfterIntake(s: State, commands: seq<Command>, r: Intake, i: nat)
    requires Sane(s) && TakenIn(s, commands, r) && i < |commands|
    ensures Sound(s.tables, commands[i]) <==>
      CountRows(r.state.tables.journal, commands[i].Pair()) == 1 && Tidy(r.state.tables, r.ids[i])
    ensures !Claimed(s.tables, commands[i]) ==> !ClaimsMissing(r.state.tables, r.ids[i], SETTLEMENT)
  {
    hide FirstRow, CountRows, CountOf, EffectByKey, LatestIntent, Sane;
    var c := commands[i];
    PairAt(commands, i);
    assert Has(s, r.state, c, r.ids[i]);
    CountRowsNone(s.tables.journal, c.Pair());
    SameTidy(s.tables, r.state.tables, r.ids[i]);
    if RowFor(s.tables, c) == None {
      FutureEventIsBlank(s, r.ids[i]);
    }
  }

  lemma SameTidy(t: Tables, u: Tables, id: EventId)
    requires u.effects == t.effects && u.intents == t.intents
    ensures Tidy(u, id) <==> Tidy(t, id)
    ensures ClaimsMissing(u, id, SETTLEMENT) <==> ClaimsMissing(t, id, SETTLEMENT)
  {
  }

  lemma TakenIsRowed(s: State, commands: seq<Command>, r: Intake)
    requires TakenIn(s, commands, r)
    ensures Rowed(r.state.tables, commands, r.ids)
  {
    hide FirstRow, Sane, RowsAfter, InOrder;
    forall i | 0 <= i < |commands|
      ensures RowFor(r.state.tables, commands[i]).Some? && RowFor(r.state.tables, commands[i]).value.eventId == r.ids[i]
    {
      assert Has(s, r.state, commands[i], r.ids[i]);
    }
  }

  // ---------------------------------------------------------------- what the check sees

  lemma {:induction false} OnlyRow(journal: seq<JournalRow>, pair: (string, string), row: JournalRow)
    requires CountRows(journal, pair) <= 1 && row in journal && row.Pair() == pair
    ensures FirstRow(journal, pair) == Some(row)
  {
    var front, last := journal[..|journal| - 1], journal[|journal| - 1];
    assert journal == front + [last];
    CountRowsNone(front, pair);
    if row in front {
      OnlyRow(front, pair, row);
    }
  }

  // One row for each command: the rows in scope are those of the commands.
  lemma ScopeIsRows(t: Tables, commands: seq<Command>, ids: seq<EventId>, row: JournalRow) returns (i: nat)
    requires Rowed(t, commands, ids) && (forall k :: 0 <= k < |commands| ==> CountRows(t.journal, commands[k].Pair()) == 1)
    requires InScope(row, t, Pairs(commands))
    ensures i < |commands| && RowFor(t, commands[i]) == Some(row)
  {
    hide FirstRow, CountRows;
    i :| 0 <= i < |Pairs(commands)| && Pairs(commands)[i] == row.Pair();
    PairAt(commands, i);
    OnlyRow(t.journal, commands[i].Pair(), row);
  }

  lemma RowsAreInScope(t: Tables, commands: seq<Command>, ids: seq<EventId>, i: nat)
    requires Rowed(t, commands, ids) && i < |commands|
    ensures InScope(RowFor(t, commands[i]).value, t, Pairs(commands))
  {
    hide FirstRow;
    PairAt(commands, i);
  }

  ghost predicate OneEach(t: Tables, ids: seq<EventId>) {
    forall i :: 0 <= i < |ids| ==> CountOf(t.effects, ids[i]) == 1
  }

  ghost predicate AmountsRight(t: Tables, ids: seq<EventId>) {
    forall i, e :: 0 <= i < |ids| && e in t.effects && e.sourceEvent == ids[i] ==> e.amount == EFFECT_AMOUNT
  }

  ghost predicate SeqsReached(t: Tables, commands: seq<Command>) {
    && 0 <= t.cursor
    && forall i :: 0 <= i < |commands| ==> RowFor(t, commands[i]).Some? && RowFor(t, commands[i]).value.seqNo <= t.cursor
  }

  lemma ScopeDecides(t: Tables, commands: seq<Command>, ids: seq<EventId>)
    requires Rowed(t, commands, ids) && (forall k :: 0 <= k < |commands| ==> CountRows(t.journal, commands[k].Pair()) == 1)
    ensures OneEffectEach(t, Pairs(commands)) <==> OneEach(t, ids)
    ensures ScopedAmountsOk(t, Pairs(commands)) <==> AmountsRight(t, ids)
    ensures CursorReached(t, Pairs(commands)) <==> SeqsReached(t, commands)
  {
    hide FirstRow, CountRows, CountOf, InScope;
    forall i | 0 <= i < |commands| ensures InScope(RowFor(t, commands[i]).value, t, Pairs(commands)) {
      RowsAreInScope(t, commands, ids, i);
    }
    forall row | InScope(row, t, Pairs(commands)) ensures exists i :: 0 <= i < |commands| && RowFor(t, commands[i]) == Some(row) {
      var i := ScopeIsRows(t, commands, ids, row);
    }
    EffectsInScope(t, commands, ids);
    AmountsInScope(t, commands, ids);
  }

  lemma EffectsInScope(t: Tables, commands: seq<Command>, ids: seq<EventId>)
    requires Rowed(t, commands, ids)
    requires forall i :: 0 <= i < |commands| ==> InScope(RowFor(t, commands[i]).value, t, Pairs(commands))
    requires forall row :: InScope(row, t, Pairs(commands)) ==>
      exists i :: 0 <= i < |commands| && RowFor(t, commands[i]) == Some(row)
    ensures OneEffectEach(t, Pairs(commands)) <==> OneEach(t, ids)
  {
    hide FirstRow, CountOf, InScope, Pairs;
    if OneEffectEach(t, Pairs(commands)) {
      forall i | 0 <= i < |ids| ensures CountOf(t.effects, ids[i]) == 1 {
        assert InScope(RowFor(t, commands[i]).value, t, Pairs(commands));
      }
    }
    if OneEach(t, ids) {
      forall row | InScope(row, t, Pairs(commands)) ensures CountOf(t.effects, row.eventId) == 1 {
        var i :| 0 <= i < |commands| && RowFor(t, commands[i]) == Some(row);
        assert ids[i] == row.eventId;
      }
    }
  }

  lemma AmountsInScope(t: Tables, commands: seq<Command>, ids: seq<EventId>)
    requires Rowed(t, commands, ids)
    requires forall i :: 0 <= i < |commands| ==> InScope(RowFor(t, commands[i]).value, t, Pairs(commands))
    requires forall row :: InScope(row, t, Pairs(commands)) ==>
      exists i :: 0 <= i < |commands| && RowFor(t, commands[i]) == Some(row)
    ensures ScopedAmountsOk(t, Pairs(commands)) <==> AmountsRight(t, ids)
  {
    hide FirstRow, InScope, Pairs;
    if ScopedAmountsOk(t, Pairs(commands)) {
      forall i, e | 0 <= i < |ids| && e in t.effects && e.sourceEvent == ids[i] ensures e.amount == EFFECT_AMOUNT {
        assert InScope(RowFor(t, commands[i]).value, t, Pairs(commands));
      }
    }
    if AmountsRight(t, ids) {
      forall row, e | InScope(row, t, Pairs(commands)) && e in t.effects && e.sourceEvent == row.eventId
        ensures e.amount == EFFECT_AMOUNT
      {
        var i :| 0 <= i < |commands| && RowFor(t, commands[i]) == Some(row);
        assert ids[i] == row.eventId;
      }
    }
  }

  lemma TooManyRowsFail(t: Tables, commands: seq<Command>, ids: seq<EventId>)
    requires Rowed(t, commands, ids) && Distinct(Pairs(commands))
    requires !forall k :: 0 <= k < |commands| ==> CountRows(t.journal, commands[k].Pair()) == 1
    ensures !DurableOutcome(t, Pairs(commands), |commands|)
  {
    hide FirstRow, CountRows, RowsFor, EffectsFor, MaxSeq, Amounts;
    forall p | p in Pairs(commands) ensures 1 <= CountRows(t.journal, p) {
      var i :| 0 <= i < |Pairs(commands)| && Pairs(commands)[i] == p;
      PairAt(commands, i);
      CountRowsNone(t.journal, p);
    }
    RowsCountExactly(t, Pairs(commands));
    var k :| 0 <= k < |commands| && CountRows(t.journal, commands[k].Pair()) != 1;
    PairAt(commands, k);
    assert Pairs(commands)[k] in Pairs(commands);
  }

  /**
   With an effect for every listed command, the outcome passes if and only if each has one row and one
   effect of the right amount, and the cursor has reached them all.
   */
  lemma OutcomeExactly(s: State, commands: seq<Command>, ids: seq<EventId>)
    requires Consistent(s.tables.journal, s.tick) && Rowed(s.tables, commands, ids) && Distinct(Pairs(commands))
    requires forall i :: 0 <= i < |ids| ==> 1 <= CountOf(s.tables.effects, ids[i])
    ensures DurableOutcome(s.tables, Pairs(commands), |commands|) <==>
      && (forall k :: 0 <= k < |commands| ==> CountRows(s.tables.journal, commands[k].Pair()) == 1)
      && OneEach(s.tables, ids) && AmountsRight(s.tables, ids) && SeqsReached(s.tables, commands)
  {
    hide FirstRow, CountRows, CountOf, DurableOutcome, InScope, OneEffectEach, ScopedAmountsOk, CursorReached, OneEach,
         AmountsRight, SeqsReached;
    if forall k :: 0 <= k < |commands| ==> CountRows(s.tables.journal, commands[k].Pair()) == 1 {
      forall p | p in Pairs(commands) ensures CountRows(s.tables.journal, p) == 1 {
        var i :| 0 <= i < |Pairs(commands)| && Pairs(commands)[i] == p;
        PairAt(commands, i);
      }
      assert OneRowEach(s.tables, Pairs(commands));
      forall row | InScope(row, s.tables, Pairs(commands)) ensures 1 <= CountOf(s.tables.effects, row.eventId) {
        var i := ScopeIsRows(s.tables, commands, ids, row);
      }
      PairAtAll(commands);
      PassMeansExactlyOneEach(s.tables, Pairs(commands));
      ScopeDecides(s.tables, commands, ids);
    } else {
      TooManyRowsFail(s.tables, commands, ids);
    }
  }

  lemma PairAtAll(commands: seq<Command>)
    ensures |Pairs(commands)| == |commands|
  {
  }

  // ---------------------------------------------------------------- the verdict

  // What a run leaves: its own commands settled in order, all others as they were.
  ghost predicate RunLeaves(s: State, u: State, commands: seq<Command>) {
    && Sane(u)
    && AllSound(u.tables, commands) && NoneClaimed(u.tables, commands)
    && (forall i :: 0 <= i < |commands| ==> SettledCommand(u.tables, commands[i]))
    && (forall i :: 0 <= i < |commands| ==>
          if RowFor(s.tables, commands[i]).Some? then RowFor(u.tables, commands[i]) == RowFor(s.tables, commands[i])
          else |s.tables.journal| < Place(u.tables, commands[i]))
    && InOrder(s, u, commands)
    && (forall d: Command :: d.Pair() !in Pairs(commands) ==> Undisturbed(s.tables, u.tables, d))
  }

  // One row, and one effect for its event.
  ghost predicate SettledCommand(t: Tables, c: Command) {
    && RowFor(t, c).Some? && CountRows(t.journal, c.Pair()) == 1
    && EffectByKey(t.effects, RowFor(t, c).value.eventId, SETTLEMENT).Some?
    && CountOf(t.effects, RowFor(t, c).value.eventId) == 1
  }

  ghost predicate Undisturbed(t: Tables, u: Tables, d: Command) {
    && RowFor(u, d) == RowFor(t, d)
    && (Sound(t, d) ==> Sound(u, d))
    && (Claimed(u, d) ==> Claimed(t, d))
  }

  lemma HandedCommand(f: Flow, p: State, u: State, commands: seq<Command>, ids: seq<EventId>, i: nat)
    requires Rowed(p.tables, commands, ids) && Handed(f, p, u, ids) && i < |commands|
    requires !(f.IntentOutbox? && ClaimsMissing(p.tables, ids[i], SETTLEMENT))
    ensures SettledEvent(f, p.tables, u.tables, ids[i])
    ensures 1 <= CountOf(u.tables.effects, ids[i]) && EffectByKey(u.tables.effects, ids[i], SETTLEMENT).Some?
    ensures RightEffect(u.tables, ids[i]) <==> Tidy(p.tables, ids[i])
    ensures Tidy(p.tables, ids[i]) ==> Tidy(u.tables, ids[i])
  {
    hide FirstRow, CountOf, EffectByKey, LatestIntent, Sane, SettledEvent, SameEvent, Tidy, Unsettled;
    assert ids[i] in ids;
    TidyExactly(f, p.tables, u.tables, ids[i]);
  }

  // The verdict on the tables between intake and delivery.
  ghost predicate RowsSound(t: Tables, commands: seq<Command>, ids: seq<EventId>)
    requires |ids| == |commands|
  {
    forall i :: 0 <= i < |commands| ==> CountRows(t.journal, commands[i].Pair()) == 1 && Tidy(t, ids[i])
  }

  ghost predicate LastReached(t: Tables, commands: seq<Command>)
    requires commands != []
  {
    forall i :: 0 <= i < |commands| ==> Place(t, commands[i]) <= Place(t, commands[|commands| - 1])
  }

  lemma DeliveredOutcome(f: Flow, p: State, u: State, commands: seq<Command>, ids: seq<EventId>)
    requires Sane(p) && commands != [] && Distinct(Pairs(commands)) && Rowed(p.tables, commands, ids) && Handed(f, p, u, ids)
    requires forall i :: 0 <= i < |ids| ==> !(f.IntentOutbox? && ClaimsMissing(p.tables, ids[i], SETTLEMENT))
    ensures DurableOutcome(u.tables, Pairs(commands), |commands|) <==>
      RowsSound(p.tables, commands, ids) && LastReached(p.tables, commands)
  {
    hide FirstRow, CountRows, CountOf, EffectByKey, LatestIntent, DurableOutcome, Tidy, SettledEvent, SameEvent, Unsettled, RowOf;
    HandedIsSane(f, p, u, ids);
    SaneParts(u);
    SaneParts(p);
    hide Sane, Consistent;
    assert Rowed(u.tables, commands, ids);
    forall i | 0 <= i < |ids|
      ensures 1 <= CountOf(u.tables.effects, ids[i])
      ensures RightEffect(u.tables, ids[i]) <==> Tidy(p.tables, ids[i])
    {
      HandedCommand(f, p, u, commands, ids, i);
    }
    OutcomeExactly(u, commands, ids);
    RowOfRowed(p, commands, ids, |commands| - 1);
    assert SeqsReached(u.tables, commands) <==> LastReached(p.tables, commands);
    TidyTogether(p.tables, u.tables, ids);
  }

  lemma TidyTogether(t: Tables, u: Tables, ids: seq<EventId>)
    requires forall i :: 0 <= i < |ids| ==> (RightEffect(u, ids[i]) <==> Tidy(t, ids[i]))
    ensures OneEach(u, ids) && AmountsRight(u, ids) <==> forall i :: 0 <= i < |ids| ==> Tidy(t, ids[i])
  {
    hide CountOf, Tidy;
  }

  // The order of the rows after intake is decided by what was there before it.
  lemma OrderDecides(s: State, commands: seq<Command>, r: Intake)
    requires Sane(s) && TakenIn(s, commands, r) && commands != []
    ensures LastReached(r.state.tables, commands) <==> LastIsLatest(s.tables, commands)
  {
    hide FirstRow, CountRows, Sane, RowsAfter;
    SaneParts(s);
    var last := |commands| - 1;
    forall i | 0 <= i < |commands|
      ensures RowFor(s.tables, commands[i]).Some? ==>
        Place(r.state.tables, commands[i]) == Place(s.tables, commands[i]) <= |s.tables.journal|
      ensures RowFor(s.tables, commands[i]) == None ==> |s.tables.journal| < Place(r.state.tables, commands[i])
    {
      assert Has(s, r.state, commands[i], r.ids[i]);
      if RowFor(s.tables, commands[i]).Some? { SeqWithin(s.tables.journal, s.tick, commands[i].Pair()); }
    }
    hide Consistent;
  }

  lemma OthersUndisturbed(f: Flow, s: State, commands: seq<Command>, r: Intake, u: State, d: Command)
    requires Sane(s) && TakenIn(s, commands, r) && Handed(f, r.state, u, r.ids) && d.Pair() !in Pairs(commands)
    ensures Undisturbed(s.tables, u.tables, d)
  {
    hide FirstRow, CountRows, CountOf, EffectByKey, LatestIntent, Sane, Consistent, RowOf;
    TakenIsSane(s, commands, r);
    TakenIsRowed(s, commands, r);
    UntouchedRow(s, r.state, commands, d);
    SameCount(s, r.state, commands, d.Pair());
    if RowFor(s.tables, d).Some? {
      var id := RowFor(s.tables, d).value.eventId;
      if id in r.ids {
        var i :| 0 <= i < |r.ids| && r.ids[i] == id;
        SameEventSamePair(r.state, commands[i], d);
        PairAt(commands, i);
        assert false;
      }
      assert SameEvent(r.state.tables, u.tables, id);
    }
  }

  lemma SameCount(s: State, t: State, commands: seq<Command>, pair: (string, string))
    requires RowsAfter(s, t, commands) && pair !in Pairs(commands)
    ensures CountRows(t.tables.journal, pair) == CountRows(s.tables.journal, pair)
  {
    hide CountRows, FirstRow;
  }

  lemma OwnCommandSettled(f: Flow, s: State, commands: seq<Command>, r: Intake, u: State, i: nat)
    requires Sane(s) && TakenIn(s, commands, r) && Handed(f, r.state, u, r.ids) && i < |commands|
    requires Sound(s.tables, commands[i]) && !(f.IntentOutbox? && Claimed(s.tables, commands[i]))
    ensures Sound(u.tables, commands[i]) && !Claimed(u.tables, commands[i]) && SettledCommand(u.tables, commands[i])
    ensures RowFor(u.tables, commands[i]) == RowFor(r.state.tables, commands[i])
    ensures Has(s, r.state, commands[i], r.ids[i])
  {
    hide FirstRow, CountRows, CountOf, EffectByKey, LatestIntent, Sane, SettledEvent, SameEvent, Tidy, RowOf;
    TakenIsRowed(s, commands, r);
    SoundAfterIntake(s, commands, r, i);
    HandedCommand(f, r.state, u, commands, r.ids, i);
    TidyCounts(u.tables, r.ids[i]);
  }

  lemma TidyCounts(t: Tables, id: EventId)
    requires Tidy(t, id)
    ensures CountOf(t.effects, id) <= 1
  {
  }

  lemma RunLeavesSettled(f: Flow, s: State, commands: seq<Command>, r: Intake, u: State)
    requires Sane(s) && TakenIn(s, commands, r) && Handed(f, r.state, u, r.ids)
    requires AllSound(s.tables, commands) && (f.IntentOutbox? ==> NoneClaimed(s.tables, commands))
    ensures RunLeaves(s, u, commands)
  {
    hide FirstRow, CountRows, CountOf, EffectByKey, LatestIntent, Sane, Sound, Claimed, SettledCommand, Undisturbed,
         SettledEvent, SameEvent, RowOf, RowsAfter;
    HandedIsSane(f, r.state, u, r.ids);
    forall i | 0 <= i < |commands|
      ensures Sound(u.tables, commands[i]) && !Claimed(u.tables, commands[i]) && SettledCommand(u.tables, commands[i])
      ensures RowFor(u.tables, commands[i]) == RowFor(r.state.tables, commands[i])
      ensures Has(s, r.state, commands[i], r.ids[i])
    {
      OwnCommandSettled(f, s, commands, r, u, i);
    }
    forall d: Command | d.Pair() !in Pairs(commands) ensures Undisturbed(s.tables, u.tables, d) {
      OthersUndisturbed(f, s, commands, r, u, d);
    }
  }

  // The command needs an effect: its event is new, or has none under the settlement key.
  predicate Pending(t: Tables, c: Command) {
    RowFor(t, c).Some? ==> EffectByKey(t.effects, RowFor(t, c).value.eventId, SETTLEMENT) == None
  }

  // There is no attempt at all, or a single one that the transient fault takes.
  predicate OutOfBudget(s: State, commands: seq<Command>, budget: int) {
    budget < 1 || (budget < 2 && s.faults.transient && exists i :: 0 <= i < |commands| && Pending(s.tables, commands[i]))
  }

  // Pending commands are those whose delivery commits an effect, and so those the fault can hit.
  lemma PendingIsUnsettled(f: Flow, s: State, commands: seq<Command>, r: Intake, i: nat)
    requires Sane(s) && TakenIn(s, commands, r) && i < |commands| && !(f.IntentOutbox? && Claimed(s.tables, commands[i]))
    ensures Unsettled(f, r.state.tables, r.ids[i], SETTLEMENT) <==> Pending(s.tables, commands[i])
  {
    hide FirstRow, EffectByKey, LatestIntent, CountOf, CountRows, Sane;
    assert Has(s, r.state, commands[i], r.ids[i]);
    if RowFor(s.tables, commands[i]) == None {
      FutureEventIsBlank(s, r.ids[i]);
    }
  }

  lemma StarvedIsOutOfBudget(f: Flow, s: State, commands: seq<Command>, r: Intake, budget: int)
    requires Sane(s) && TakenIn(s, commands, r) && commands != [] && (f.IntentOutbox? ==> NoneClaimed(s.tables, commands))
    ensures Starved(f, r.state, r.ids, budget) <==> OutOfBudget(s, commands, budget)
    ensures budget == 1 && r.state.faults.transient && s.attempts == map[] ==> r.state.attempts == map[]
    ensures r.state.faults.transient == s.faults.transient
  {
    hide Sane, Has, Pending, Unsettled, RowsAfter, InOrder, Claimed;
    forall i | 0 <= i < |commands|
      ensures Unsettled(f, r.state.tables, r.ids[i], SETTLEMENT) <==> Pending(s.tables, commands[i])
    {
      PendingIsUnsettled(f, s, commands, r, i);
    }
    if i :| 0 <= i < |commands| && Pending(s.tables, commands[i]) {
      assert r.ids[i] in r.ids;
    }
  }

  /**
   The verdict on a workload, over any sane store. It is refused if and only if a listed command is known
   with another payload, or the attempts do not suffice. Otherwise it passes if and only if what the tables
   already hold of each listed command is sound (one row with its own payload, at most one effect for it, the
   right one) and the last command listed is journalled last. And if it is sound, every command ends with one
   row and one effect, and all else is left alone. The outbox must not be told that a listed command is
   settled when it is not.
   */
  lemma WorkloadVerdict(f: Flow, s: State, commands: seq<Command>, budget: int)
    requires Repaired(f) && Sane(s) && (budget == 1 && s.faults.transient ==> s.attempts == map[])
    requires commands != [] && Distinct(Pairs(commands)) && (f.IntentOutbox? ==> NoneClaimed(s.tables, commands))
    ensures var r := RunWorkload(f, s, commands, budget);
      && r.out == (if AllFit(s.tables, commands) && !OutOfBudget(s, commands, budget)
                   then Returned(AllSound(s.tables, commands) && LastIsLatest(s.tables, commands)) else Refused)
      && (AllSound(s.tables, commands) ==> AllFit(s.tables, commands))
      && (AllSound(s.tables, commands) && !OutOfBudget(s, commands, budget) ==> RunLeaves(s, r.state, commands))
  {
    hide FirstRow, Sane, AcceptAll, DeliverAll, DurableOutcome, RunLeaves, TakenIn, Handed, Starved, LastIsLatest,
         RowOf, Pairs, AllSound, NoneClaimed, OutOfBudget;
    IntakeDecides(f, s, commands);
    SoundFits(s.tables, commands);
    if AllFit(s.tables, commands) {
      var intake := AcceptAll(f, s, commands);
      var p := intake.state;
      TakenIsSane(s, commands, intake);
      TakenIsRowed(s, commands, intake);
      IdsAreDistinct(p, commands, intake.ids);
      forall i | 0 <= i < |intake.ids| ensures RowOf(p.tables.journal, intake.ids[i]).Some? {
        RowOfRowed(p, commands, intake.ids, i);
      }
      StarvedIsOutOfBudget(f, s, commands, intake, budget);
      DeliverAllHands(f, p, intake.ids, budget);
      if !OutOfBudget(s, commands, budget) {
        HandedVerdict(f, s, commands, intake, DeliverAll(f, p, intake.ids, budget).state);
      }
    }
  }

  lemma HandedVerdict(f: Flow, s: State, commands: seq<Command>, r: Intake, u: State)
    requires Sane(s) && TakenIn(s, commands, r) && Handed(f, r.state, u, r.ids)
    requires commands != [] && Distinct(Pairs(commands)) && (f.IntentOutbox? ==> NoneClaimed(s.tables, commands))
    ensures DurableOutcome(u.tables, Pairs(commands), |commands|) <==>
      AllSound(s.tables, commands) && LastIsLatest(s.tables, commands)
    ensures AllSound(s.tables, commands) ==> RunLeaves(s, u, commands)
  {
    hide FirstRow, CountRows, CountOf, EffectByKey, LatestIntent, Sane, DurableOutcome, RunLeaves, TakenIn, Handed,
         LastIsLatest, LastReached, RowOf, Tidy, Pairs;
    TakenIsSane(s, commands, r);
    TakenIsRowed(s, commands, r);
    forall i | 0 <= i < |commands|
      ensures Sound(s.tables, commands[i]) <==>
        CountRows(r.state.tables.journal, commands[i].Pair()) == 1 && Tidy(r.state.tables, r.ids[i])
      ensures !(f.IntentOutbox? && ClaimsMissing(r.state.tables, r.ids[i], SETTLEMENT))
    {
      SoundAfterIntake(s, commands, r, i);
    }
    DeliveredOutcome(f, r.state, u, commands, r.ids);
    OrderDecides(s, commands, r);
    if AllSound(s.tables, commands) { RunLeavesSettled(f, s, commands, r, u); }
  }

  lemma SoundFits(t: Tables, commands: seq<Command>)
    ensures AllSound(t, commands) ==> AllFit(t, commands)
  {
    hide FirstRow, CountRows;
    if AllSound(t, commands) {
      forall i | 0 <= i < |commands| ensures Fits(t, commands[i]) {
        assert Sound(t, commands[i]);
      }
    }
  }

  // ---------------------------------------------------------------- new commands, and reruns

  predicate Enough(budget: int, faults: Faults) {
    1 <= budget && (faults.transient ==> 2 <= budget)
  }

  predicate AllNew(t: Tables, commands: seq<Command>) {
    forall i :: 0 <= i < |commands| ==> RowFor(t, commands[i]) == None
  }

  // A list is new, or stands in its own order; either way what the tables hold of it is sound.
  ghost predicate Orderly(t: Tables, commands: seq<Command>) {
    && AllSound(t, commands) && NoneClaimed(t, commands)
    && (AllNew(t, commands) ||
        ((forall i :: 0 <= i < |commands| ==> RowFor(t, commands[i]).Some?) &&
         (forall i, k :: 0 <= i < k < |commands| ==> Place(t, commands[i]) < Place(t, commands[k]))))
  }

  lemma NewIsOrderly(t: Tables, commands: seq<Command>)
    requires AllNew(t, commands)
    ensures Orderly(t, commands)
  {
    hide FirstRow, CountRows;
    forall i | 0 <= i < |commands| ensures Sound(t, commands[i]) && !Claimed(t, commands[i]) {
      CountRowsNone(t.journal, commands[i].Pair());
    }
  }

  lemma OrderlyEndsLatest(t: Tables, commands: seq<Command>)
    requires Orderly(t, commands) && commands != []
    ensures LastIsLatest(t, commands)
  {
    hide FirstRow, Sound, Claimed;
  }

  lemma OwnListStaysOrderly(s: State, u: State, commands: seq<Command>)
    requires Orderly(s.tables, commands) && RunLeaves(s, u, commands)
    ensures Orderly(u.tables, commands) && forall i :: 0 <= i < |commands| ==> RowFor(u.tables, commands[i]).Some?
  {
    hide FirstRow, CountRows, CountOf, EffectByKey, Sound, Claimed, Undisturbed, Sane;
  }

  lemma OtherListStaysOrderly(s: State, u: State, commands: seq<Command>, other: seq<Command>)
    requires Orderly(s.tables, other) && RunLeaves(s, u, commands)
    requires forall d :: d in other ==> d.Pair() !in Pairs(commands)
    ensures Orderly(u.tables, other)
  {
    hide FirstRow, CountRows, CountOf, EffectByKey, Sound, Claimed, SettledCommand, Sane, Pairs;
    forall i | 0 <= i < |other| ensures Undisturbed(s.tables, u.tables, other[i]) {
      assert other[i] in other;
    }
  }

  lemma RunIsSane(s: State, workloadId: string, faults: Faults)
    requires Sane(s)
    ensures Sane(NewRun(s, workloadId, faults)) && NewRun(s, workloadId, faults).tables == s.tables
  {
    LaterIsSane(s, NewRun(s, workloadId, faults));
  }

  /** An orderly list passes and stays orderly. */
  lemma OrderlyPasses(f: Flow, s: State, commands: seq<Command>, budget: int)
    requires Repaired(f) && Sane(s) && Enough(budget, s.faults)
    requires commands != [] && Distinct(Pairs(commands)) && Orderly(s.tables, commands)
    ensures var r := RunWorkload(f, s, commands, budget);
      && r.out == Returned(true) && Sane(r.state) && RunLeaves(s, r.state, commands)
      && Orderly(r.state.tables, commands)
      && forall i :: 0 <= i < |commands| ==> RowFor(r.state.tables, commands[i]).Some?
  {
    hide Sane, RunWorkload, LastIsLatest, Sound, Claimed, RowFor, InOrder, Undisturbed, SettledCommand;
    OrderlyEndsLatest(s.tables, commands);
    WorkloadVerdict(f, s, commands, budget);
    OwnListStaysOrderly(s, RunWorkload(f, s, commands, budget).state, commands);
  }

  /** A list of new commands passes, and so does the same list rerun, under either repair and any faults. */
  lemma FreshWorkloadPassesTwice(f: Flow, g: Flow, s: State, commands: seq<Command>, budget: int, rerun: string, faults: Faults)
    requires Repaired(f) && Repaired(g) && Sane(s) && Enough(budget, s.faults) && Enough(budget, faults)
    requires commands != [] && Distinct(Pairs(commands)) && AllNew(s.tables, commands)
    ensures var r := RunWorkload(f, s, commands, budget);
      && r.out == Returned(true)
      && RunWorkload(g, NewRun(r.state, rerun, faults), commands, budget).out == Returned(true)
  {
    hide Sane, RunWorkload, Orderly, RunLeaves, AllNew;
    NewIsOrderly(s.tables, commands);
    OrderlyPasses(f, s, commands, budget);
    var t := RunWorkload(f, s, commands, budget).state;
    RunIsSane(t, rerun, faults);
    OrderlyPasses(g, NewRun(t, rerun, faults), commands, budget);
  }

  /**
   Running new commands and then the same ones in another order: the second run passes if and only if it
   ends with the command the first one ended with, although either way every command keeps its one row and
   its one effect.
   */
  lemma ReorderedRerunPassesExactly(f: Flow, g: Flow, s: State, commands: seq<Command>, other: seq<Command>,
                                    budget: int, rerun: string, faults: Faults)
    requires Repaired(f) && Repaired(g) && Sane(s) && Enough(budget, s.faults) && Enough(budget, faults)
    requires commands != [] && Distinct(Pairs(commands)) && other != [] && Distinct(Pairs(other))
    requires AllNew(s.tables, commands) && forall c :: c in other <==> c in commands
    ensures var r := RunWorkload(g, NewRun(RunWorkload(f, s, commands, budget).state, rerun, faults), other, budget);
      && r.out == Returned(other[|other| - 1] == commands[|commands| - 1])
      && forall c :: c in commands ==> SettledCommand(r.state.tables, c)
  {
    hide Sane, RunWorkload, Sound, Claimed, SettledCommand, Undisturbed, InOrder, FirstRow, LastIsLatest;
    NewIsOrderly(s.tables, commands);
    OrderlyPasses(f, s, commands, budget);
    var u := RunWorkload(f, s, commands, budget).state;
    RunIsSane(u, rerun, faults);
    var t := NewRun(u, rerun, faults);
    SameListSound(t.tables, commands, other);
    WorkloadVerdict(g, t, other, budget);
    LastDecides(t.tables, commands, other);
    forall c | c in commands ensures SettledCommand(RunWorkload(g, t, other, budget).state.tables, c) {
      assert c in other;
      var i :| 0 <= i < |other| && other[i] == c;
    }
  }

  lemma SameListSound(t: Tables, commands: seq<Command>, other: seq<Command>)
    requires AllSound(t, commands) && NoneClaimed(t, commands) && forall c :: c in other ==> c in commands
    ensures AllSound(t, other) && NoneClaimed(t, other)
  {
    hide Sound, Claimed;
    forall k | 0 <= k < |other| ensures Sound(t, other[k]) && !Claimed(t, other[k]) {
      assert other[k] in commands;
      var i :| 0 <= i < |commands| && commands[i] == other[k];
    }
  }

  lemma LastDecides(t: Tables, commands: seq<Command>, other: seq<Command>)
    requires commands != [] && other != [] && forall c :: c in other <==> c in commands
    requires Orderly(t, commands) && forall i :: 0 <= i < |commands| ==> RowFor(t, commands[i]).Some?
    ensures LastIsLatest(t, other) <==> other[|other| - 1] == commands[|commands| - 1]
  {
    hide FirstRow, Sound, Claimed;
    var latest, last := commands[|commands| - 1], other[|other| - 1];
    assert latest in commands && last in other;
    var n :| 0 <= n < |other| && other[n] == latest;
    var i :| 0 <= i < |commands| && commands[i] == last;
    if last == latest {
      forall k | 0 <= k < |other| ensures Place(t, other[k]) <= Place(t, last) {
        assert other[k] in commands;
        var j :| 0 <= j < |commands| && commands[j] == other[k];
      }
    } else {
      assert i < |commands| - 1;
      assert Place(t, other[n]) > Place(t, last);
    }
  }

  /** For instance: two commands pass, and run the other way round they fail. */
  lemma ReversedRerunFails(f: Flow, s: State, c: Command, d: Command, budget: int, rerun: string, faults: Faults)
    requires Repaired(f) && Sane(s) && Enough(budget, s.faults) && Enough(budget, faults)
    requires c.Pair() != d.Pair() && AllNew(s.tables, [c, d])
    ensures var r := RunWorkload(f, s, [c, d], budget);
      && r.out == Returned(true)
      && RunWorkload(f, NewRun(r.state, rerun, faults), [d, c], budget).out == Returned(false)
  {
    hide Sane, RunWorkload, Orderly, RunLeaves, AllNew, SettledCommand;
    assert Pairs([c, d]) == [c.Pair(), d.Pair()] && Pairs([d, c]) == [d.Pair(), c.Pair()];
    NewIsOrderly(s.tables, [c, d]);
    OrderlyPasses(f, s, [c, d], budget);
    ReorderedRerunPassesExactly(f, f, s, [c, d], [d, c], budget, rerun, faults);
  }

  /**
   A state in which a list of the fixed order fails: some other program has journalled the last command of
   the list ahead of the rest, with the right payload. A repaired flow keeps that row, adds the others after
   it, settles each once, and ends with the cursor short of them.
   */
  lemma LastJournalledAheadFails(f: Flow, s: State, commands: seq<Command>, budget: int)
    requires Repaired(f) && Sane(s) && Enough(budget, s.faults) && 2 <= |commands| && Distinct(Pairs(commands))
    requires AllNew(s.tables, commands)
    ensures var t := ApplyAll(s, [AppendOp(commands[|commands| - 1])]);
      && RunWorkload(f, t, commands, budget).out == Returned(false)
      && forall i :: 0 <= i < |commands| ==> SettledCommand(RunWorkload(f, t, commands, budget).state.tables, commands[i])
  {
    hide RunWorkload, FirstRow, Append, CountRows, CountOf, EffectByKey, LatestIntent, SettledCommand, Undisturbed, Consistent;
    var last := commands[|commands| - 1];
    var t := Append(s, last).state;
    assert ApplyAll(s, [AppendOp(last)]) == t;
    AnyProgramKeepsSane(s, [AppendOp(last)]);
    SaneParts(s);
    AppendFresh(s, last);
    var id := NewRow(s, last).eventId;
    AdmittedIsFound(s, t, last, id);
    FutureEventIsBlank(s, id);
    SameTidy(s.tables, t.tables, id);
    CountRowsNone(s.tables.journal, last.Pair());
    CountRowsAppend(s.tables.journal, t.tables.journal[|s.tables.journal|], last.Pair());
    forall i | 0 <= i < |commands| - 1
      ensures RowFor(t.tables, commands[i]) == None && CountRows(t.tables.journal, commands[i].Pair()) == 0
    {
      PairAt(commands, i);
      PairAt(commands, |commands| - 1);
      FirstRowAppend(s.tables.journal, t.tables.journal[|s.tables.journal|], commands[i].Pair());
      CountRowsNone(t.tables.journal, commands[i].Pair());
    }
    assert AllSound(t.tables, commands);
    assert NoneClaimed(t.tables, commands);
    assert Place(t.tables, commands[0]) > Place(t.tables, last);
    assert !LastIsLatest(t.tables, commands);
    hide Sane;
    WorkloadVerdict(f, t, commands, budget);
  }

  // ---------------------------------------------------------------- fixed lists

  // One run of one of some fixed lists, under some repair, faults and budget.
  datatype Rerun = Rerun(flow: Flow, list: nat, budget: int, workloadId: string, faults: Faults)

  ghost predicate AllAdmissible(lists: seq<seq<Command>>, runs: seq<Rerun>) {
    forall i :: 0 <= i < |runs| ==> Repaired(runs[i].flow) && runs[i].list < |lists| && Enough(runs[i].budget, runs[i].faults)
  }

  // Lists without repeats, no command in two of them.
  ghost predicate Apart(lists: seq<seq<Command>>) {
    && (forall j :: 0 <= j < |lists| ==> lists[j] != [] && Distinct(Pairs(lists[j])))
    && (forall j, k :: 0 <= j < |lists| && 0 <= k < |lists| && j != k ==>
          forall d :: d in lists[k] ==> d.Pair() !in Pairs(lists[j]))
  }

  ghost predicate AllOrderly(t: Tables, lists: seq<seq<Command>>) {
    forall j :: 0 <= j < |lists| ==> Orderly(t, lists[j])
  }

  function RunOne(s: State, lists: seq<seq<Command>>, run: Rerun): Result<bool>
    requires run.list < |lists|
  {
    RunWorkload(run.flow, NewRun(s, run.workloadId, run.faults), lists[run.list], run.budget)
  }

  function RunLists(s: State, lists: seq<seq<Command>>, runs: seq<Rerun>): State
    requires forall i :: 0 <= i < |runs| ==> runs[i].list < |lists|
  {
    if runs == [] then s
    else RunOne(RunLists(s, lists, runs[..|runs| - 1]), lists, runs[|runs| - 1]).state
  }

  lemma RunKeepsListsOrderly(s: State, lists: seq<seq<Command>>, run: Rerun)
    requires Sane(s) && Apart(lists) && AllOrderly(s.tables, lists)
    requires Repaired(run.flow) && run.list < |lists| && Enough(run.budget, run.faults)
    ensures var r := RunOne(s, lists, run); r.out == Returned(true) && Sane(r.state) && AllOrderly(r.state.tables, lists)
  {
    hide Sane, RunWorkload, Orderly, RunLeaves, Pairs;
    RunIsSane(s, run.workloadId, run.faults);
    var t := NewRun(s, run.workloadId, run.faults);
    OrderlyPasses(run.flow, t, lists[run.list], run.budget);
    var u := RunOne(s, lists, run).state;
    forall j | 0 <= j < |lists| && j != run.list ensures Orderly(u.tables, lists[j]) {
      OtherListStaysOrderly(t, u, lists[run.list], lists[j]);
    }
  }

  lemma {:induction false} ListsStayOrderly(s: State, lists: seq<seq<Command>>, runs: seq<Rerun>)
    requires Sane(s) && Apart(lists) && AllAdmissible(lists, runs) && AllOrderly(s.tables, lists)
    ensures Sane(RunLists(s, lists, runs)) && AllOrderly(RunLists(s, lists, runs).tables, lists)
  {
    hide Sane, RunOne, Apart, AllOrderly;
    if runs != [] {
      var front := runs[..|runs| - 1];
      ListsStayOrderly(s, lists, front);
      RunKeepsListsOrderly(RunLists(s, lists, front), lists, runs[|runs| - 1]);
    }
  }

  /**
   Lists with a fixed order each and no command in two of them, new at the start or standing in their order:
   run in any order, any number of times, under either repair and any faults, every single run passes.
   */
  lemma FixedListsAlwaysPass(s: State, lists: seq<seq<Command>>, runs: seq<Rerun>)
    requires Sane(s) && Apart(lists) && AllAdmissible(lists, runs) && AllOrderly(s.tables, lists)
    ensures forall i :: 0 <= i < |runs| ==> RunOne(RunLists(s, lists, runs[..i]), lists, runs[i]).out == Returned(true)
  {
    hide Sane, RunOne, Apart, AllOrderly;
    forall i | 0 <= i < |runs| ensures RunOne(RunLists(s, lists, runs[..i]), lists, runs[i]).out == Returned(true) {
      ListsStayOrderly(s, lists, runs[..i]);
      RunKeepsListsOrderly(RunLists(s, lists, runs[..i]), lists, runs[i]);
    }
  }
}

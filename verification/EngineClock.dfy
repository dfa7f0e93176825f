/**
 How far the engine moves the fake clock under the logical identity: stage by stage, with the line that each
 interruption logs, and so over whole public runs.
 */
module EngineClock {
  import opened Wrappers
  import opened Settlement
  import opened Journal
  import opened Flows
  import opened RepairInvariant
  import opened Counting
  import opened FromAnyStore
  import opened SaneStore
  import opened Verdict
  import H = SeededHistories

  // ---------------------------------------------------------------- one delivery

  // Load, settle and advance, or only load and advance when the effect is there.
  function Pass(settled: bool): nat { if settled then 2 else 3 }

  // An attempt that is cut costs its load and settle and the restart, one that is deferred a log line instead.
  function DeliveryTicks(s: State, id: EventId, budget: int, retry: bool): nat {
    if budget < 1 then 0
    else if !Unsettled(LogicalIdentity, s.tables, id, SETTLEMENT) then Pass(true)
    else
      var settling := if s.faults.s5Cutpoint then 3 + Pass(true) else Pass(false);
      if !FaultFires(LogicalIdentity, s, id, SETTLEMENT) then settling
      else if retry && 2 <= budget then 3 + settling
      else 3
  }

  lemma AttemptTicks(s: State, id: EventId, sequence: int)
    requires IdsOld(s) && RowOf(s.tables.journal, id).Some?
    ensures var r := Deliver(LogicalIdentity, s, id, sequence);
      r.state.tick == s.tick + if r.out.Returned? then Pass(!Unsettled(LogicalIdentity, s.tables, id, SETTLEMENT)) else 2
  {
    hide RowOf, LatestIntent, IdsOld;
    DeliverTried(LogicalIdentity, s, id, sequence);
  }

  lemma UnfiredTicks(s: State, id: EventId, sequence: int, attempts: nat, budget: int, retry: bool)
    requires IdsOld(s) && RowOf(s.tables.journal, id).Some? && attempts < budget
    requires !FaultFires(LogicalIdentity, s, id, SETTLEMENT)
    ensures DeliverFrom(LogicalIdentity, s, id, sequence, attempts, budget, retry).state.tick ==
      s.tick + if !Unsettled(LogicalIdentity, s.tables, id, SETTLEMENT) then Pass(true)
               else if s.faults.s5Cutpoint then 3 + Pass(true) else Pass(false)
  {
    hide Deliver, Unsettled, RowOf, IdsOld, Adds;
    DeliverTried(LogicalIdentity, s, id, sequence);
    AttemptTicks(s, id, sequence);
    var r := Deliver(LogicalIdentity, s, id, sequence);
    if r.out.CutAt? {
      AddedIsSettled(LogicalIdentity, s.tables, r.state.tables, id, SETTLEMENT);
      LaterIds(r.state, Restart(r.state));
      DeliverTried(LogicalIdentity, Restart(r.state), id, sequence);
      AttemptTicks(Restart(r.state), id, sequence);
    }
  }

  lemma LaterIds(s: State, t: State)
    requires IdsOld(s) && t.tables == s.tables && s.tick <= t.tick
    ensures IdsOld(t)
  {
  }

  /** The ticks of a delivery of a journalled event, answered or refused, through deferral, cut and restart. */
  lemma DeliveryTakes(s: State, id: EventId, sequence: int, budget: int, retry: bool)
    requires IdsOld(s) && RowOf(s.tables.journal, id).Some?
    ensures DeliverEvent(LogicalIdentity, s, id, sequence, budget, retry).state.tick == s.tick + DeliveryTicks(s, id, budget, retry)
  {
    hide Deliver, Unsettled, RowOf, IdsOld, Adds;
    if budget < 1 {
    } else if !FaultFires(LogicalIdentity, s, id, SETTLEMENT) {
      UnfiredTicks(s, id, sequence, 0, budget, retry);
    } else {
      DeliverTried(LogicalIdentity, s, id, sequence);
      AttemptTicks(s, id, sequence);
      var r := Deliver(LogicalIdentity, s, id, sequence);
      if retry && 2 <= budget {
        LaterIds(r.state, Tick(r.state));
        UnfiredTicks(Tick(r.state), id, sequence, 1, budget, retry);
      }
    }
  }

  // ---------------------------------------------------------------- whole runs

  lemma AcceptTakes(s: State, c: Command)
    requires Consistent(s.tables.journal, s.tick) && FirstRow(s.tables.journal, c.Pair()) == None && !s.faults.s2Cutpoint
    ensures var r := AcceptCommand(LogicalIdentity, s, c, true); r.state.tick == s.tick + 3 && r.state.faults == s.faults
  {
    hide FirstRow, RowOf, Consistent, MaxSeq;
    var s1 := Tick(s);
    LaterClockKeepsConsistent(s.tables.journal, s.tick, s1.tick);
    AppendFresh(s1, c);
    hide Append;
    AdmittedIsFound(s1, Append(s1, c).state, c, NewRow(s1, c).eventId);
    AppendKeepsFaults(s1, c);
  }

  lemma AppendKeepsFaults(s: State, c: Command)
    requires !s.faults.s2Cutpoint
    ensures Append(s, c).state.faults == s.faults && Append(s, c).state.tick == s.tick + 1
  {
    hide FirstRow, RowOf, MaxSeq;
  }

  // A run whose only armed fault, if any, is the transient one.
  predicate NoCutpoints(s: State) {
    !s.faults.s2Cutpoint && !s.faults.s5Cutpoint
  }

  lemma {:induction false} IntakeTakes(s: State, commands: seq<Command>)
    requires Sane(s) && Distinct(Pairs(commands)) && AllNew(s.tables, commands) && NoCutpoints(s)
    ensures var r := AcceptAll(LogicalIdentity, s, commands);
      r.out.Returned? && r.state.tick == s.tick + 4 * |commands| && r.state.faults == s.faults
  {
    hide Sane, AcceptCommand, FirstRow, Pairs, TakenIn;
    if commands != [] {
      var front, c := commands[..|commands| - 1], commands[|commands| - 1];
      DistinctFront(commands);
      IntakeTakes(s, front);
      IntakeDecides(LogicalIdentity, s, front);
      var prior := AcceptAll(LogicalIdentity, s, front);
      TakenIsSane(s, front, prior);
      NewAfter(s, front, prior, c);
      AcceptTakes(prior.state, c);
      AcceptExactly(LogicalIdentity, prior.state, c);
    }
  }

  lemma NewAfter(s: State, front: seq<Command>, prior: Intake, c: Command)
    requires TakenIn(s, front, prior) && c.Pair() !in Pairs(front) && RowFor(s.tables, c) == None
    ensures FirstRow(prior.state.tables.journal, c.Pair()) == None
  {
    hide FirstRow, Sane, InOrder;
    UntouchedRow(s, prior.state, front, c);
  }

  ghost predicate AllUnsettled(s: State, ids: seq<EventId>) {
    forall i :: 0 <= i < |ids| ==> RowOf(s.tables.journal, ids[i]).Some? && Unsettled(LogicalIdentity, s.tables, ids[i], SETTLEMENT)
  }

  lemma OneTakes(s: State, id: EventId, budget: int)
    requires Sane(s) && RowOf(s.tables.journal, id).Some? && Unsettled(LogicalIdentity, s.tables, id, SETTLEMENT)
    requires NoCutpoints(s) && Enough(budget, s.faults) && (s.faults.transient ==> s.attempts == map[])
    ensures var r := DeliverOne(LogicalIdentity, s, id, budget);
      && r.out == Returned(()) && r.state.tick == s.tick + 5 + (if s.faults.transient then 3 else 0)
      && NoCutpoints(r.state) && !r.state.faults.transient
  {
    hide DeliverFrom, RowOf, Sane, Unsettled, Adds, IdsOld;
    LaterIsSane(s, Tick(s));
    SaneParts(Tick(s));
    var row := RowOf(s.tables.journal, id).value;
    SameFault(LogicalIdentity, s, id);
    DeliveryReturnsExactlyWhen(LogicalIdentity, Tick(s), id, row.seqNo, budget, true);
    DeliveryTakes(Tick(s), id, row.seqNo, budget, true);
    DeliveryKeepsS2(Tick(s), id, row.seqNo, 0, budget, true);
  }

  lemma {:induction false} DeliveryKeepsS2(s: State, id: EventId, sequence: int, attempts: nat, budget: int, retry: bool)
    ensures DeliverFrom(LogicalIdentity, s, id, sequence, attempts, budget, retry).state.faults.s2Cutpoint == s.faults.s2Cutpoint
    decreases PendingCutpoints(s), budget - attempts
  {
    hide Load, S5;
    if attempts < budget {
      var r := Deliver(LogicalIdentity, s, id, sequence);
      if r.out.TransientFault? && retry && attempts + 1 < budget {
        DeliveryKeepsS2(Tick(r.state), id, sequence, attempts + 1, budget, retry);
      } else if r.out.CutAt? {
        DeliveryKeepsS2(Restart(r.state), id, sequence, 0, budget, retry);
      }
    }
  }

  lemma {:induction false} DeliveriesTake(s: State, ids: seq<EventId>, budget: int)
    requires Sane(s) && Distinct(ids) && AllUnsettled(s, ids)
    requires NoCutpoints(s) && Enough(budget, s.faults) && s.attempts == map[]
    ensures var r := DeliverAll(LogicalIdentity, s, ids, budget);
      && r.out == Returned(()) && NoCutpoints(r.state)
      && r.state.tick == s.tick + 5 * |ids| + (if s.faults.transient && ids != [] then 3 else 0)
      && (ids != [] ==> !r.state.faults.transient)
    decreases |ids|
  {
    hide Sane, DeliverOne, RowOf, Unsettled, Handed, Starved;
    if ids != [] {
      var k := |ids| - 1;
      var front, id := ids[..k], ids[k];
      forall i | 0 <= i < |front| ensures front[i] == ids[i] {
      }
      DeliveriesTake(s, front, budget);
      DeliverAllHands(LogicalIdentity, s, front, budget);
      assert !Starved(LogicalIdentity, s, front, budget) by { EnoughIsNotStarved(s, front, budget); }
      var prior := DeliverAll(LogicalIdentity, s, front, budget);
      HandedIsSane(LogicalIdentity, s, prior.state, front);
      assert id !in front;
      HandedFaults(LogicalIdentity, s, prior.state, front, id);
      OneTakes(prior.state, id, budget);
    }
  }

  lemma EnoughIsNotStarved(s: State, ids: seq<EventId>, budget: int)
    requires Enough(budget, s.faults)
    ensures !Starved(LogicalIdentity, s, ids, budget)
  {
    hide Unsettled;
  }

  /**
   A run of new commands without cutpoints takes nine ticks for each: three stages and a log line to accept, a
   line before and after the delivery and its three stages; and three more when the transient fault defers one.
   */
  lemma RunTakes(s: State, commands: seq<Command>, budget: int)
    requires Sane(s) && Distinct(Pairs(commands)) && AllNew(s.tables, commands) && commands != []
    requires NoCutpoints(s) && Enough(budget, s.faults) && s.attempts == map[]
    ensures var r := RunWorkload(LogicalIdentity, s, commands, budget);
      && r.out == Returned(true)
      && r.state.tick == s.tick + 9 * |commands| + if s.faults.transient then 3 else 0
  {
    hide Sane, FirstRow, Pairs, AcceptAll, DeliverAll, RowOf, TakenIn, Orderly, RunLeaves, Unsettled, AllNew;
    NewIsOrderly(s.tables, commands);
    OrderlyPasses(LogicalIdentity, s, commands, budget);
    IntakeTakes(s, commands);
    IntakeDecides(LogicalIdentity, s, commands);
    var intake := AcceptAll(LogicalIdentity, s, commands);
    NewFits(s.tables, commands);
    TakenIsSane(s, commands, intake);
    TakenIsRowed(s, commands, intake);
    IdsAreDistinct(intake.state, commands, intake.ids);
    assert AllUnsettled(intake.state, intake.ids) by { NewIsUnsettled(s, commands, intake); }
    assert intake.state.attempts == map[] && |intake.ids| == |commands| by { TakenAttempts(s, commands, intake); }
    DeliveriesTake(intake.state, intake.ids, budget);
  }

  lemma NewFits(t: Tables, commands: seq<Command>)
    requires AllNew(t, commands)
    ensures AllFit(t, commands)
  {
    hide FirstRow;
  }

  lemma TakenAttempts(s: State, commands: seq<Command>, r: Intake)
    requires TakenIn(s, commands, r)
    ensures r.state.attempts == s.attempts && |r.ids| == |commands|
  {
    hide Sane, Has, RowsAfter, InOrder;
  }

  lemma NewIsUnsettled(s: State, commands: seq<Command>, r: Intake)
    requires Sane(s) && TakenIn(s, commands, r) && AllNew(s.tables, commands) && Sane(r.state)
    ensures AllUnsettled(r.state, r.ids)
  {
    hide FirstRow, Sane, RowOf, Unsettled, TakenIn, EffectByKey, Claimed, Rowed;
    TakenIsRowed(s, commands, r);
    TakenIsSane(s, commands, r);
    TakenAttempts(s, commands, r);
    forall i | 0 <= i < |r.ids|
      ensures RowOf(r.state.tables.journal, r.ids[i]).Some? && Unsettled(LogicalIdentity, r.state.tables, r.ids[i], SETTLEMENT)
    {
      RowOfRowed(r.state, commands, r.ids, i);
      RowedHasRow(r.state.tables, commands, r.ids, i);
      PendingIsUnsettled(LogicalIdentity, s, commands, r, i);
    }
  }

  lemma RowedHasRow(t: Tables, commands: seq<Command>, ids: seq<EventId>, i: nat)
    requires Rowed(t, commands, ids) && i < |commands|
    ensures RowFor(t, commands[i]).Some?
  {
  }

  /** So over any sane store without a row of theirs P1 and P2 take twelve ticks with two attempts, and P3 27. */
  lemma PublicRunTakes(s: State, list: nat, workloadId: string)
    requires Sane(s) && H.NoPublicRows(s.tables) && list < 3
    ensures var t := NewRun(s, workloadId, H.PublicFaults(list));
      RunWorkload(LogicalIdentity, t, H.PublicLists[list], 2).state.tick == s.tick + if list < 2 then 12 else 27
  {
    hide Sane, RunWorkload, AllNew;
    H.PublicListsAreApart();
    RunIsSane(s, workloadId, H.PublicFaults(list));
    RunTakes(NewRun(s, workloadId, H.PublicFaults(list)), H.PublicLists[list], 2);
  }
}

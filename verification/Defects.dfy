/**
 What the other two flows get wrong and when they do not, for every state: the public baseline duplicates
 exactly at the cutpoints and on every repeat, and deduplicating by event alone loses a legitimate second
 effect exactly when the event has one under another key.
 */
module Defects {
  import opened Wrappers
  import opened Settlement
  import opened Journal
  import opened Flows
  import opened RepairInvariant
  import opened ExactlyOnce
  import opened Counting
  import opened FromAnyStore

  lemma CountEffectsAppend(effects: seq<EffectRow>, row: EffectRow, id: EventId, key: string)
    ensures CountEffects(effects + [row], id, key) ==
      CountEffects(effects, id, key) + (if row.sourceEvent == id && row.logicalKey == key then 1 else 0)
  {
    assert (effects + [row])[..|effects|] == effects;
  }

  /** The baseline gives every accepted command one row more than it had, however often it is retried. */
  lemma BaselineAddsARow(s: State, c: Command)
    requires Consistent(s.tables.journal, s.tick) && !Conflicts(s.tables, c)
    ensures var r := Accept(Baseline, s, c);
      && Consistent(r.state.tables.journal, r.state.tick)
      && !Conflicts(r.state.tables, c)
      && CountRows(r.state.tables.journal, c.Pair()) == CountRows(s.tables.journal, c.Pair()) + 1
      && (if s.faults.s2Cutpoint then r.out.CutAt? else r.out.Returned?)
      && !r.state.faults.s2Cutpoint
  {
    hide FirstRow, RowOf, MaxSeq, Append, CountRows, Consistent;
    var s1 := Tick(s);
    assert Consistent(s1.tables.journal, s1.tick) by { RestoreKeepsConsistent(s, s1); }
    AppendAddsNextRow(s1, c);
    NewRowKeepsConsistent(s1, c);
    var s2 := Append(s1, c).state;
    CountRowsAppend(s.tables.journal, NewRow(s1, c), c.Pair());
    FirstRowAppend(s.tables.journal, NewRow(s1, c), c.Pair());
    assert Consistent(Tick(s2).tables.journal, Tick(s2).tick) by { RestoreKeepsConsistent(s2, Tick(s2)); }
  }

  lemma ConflictIsRefused(s: State, c: Command, retry: bool)
    requires Conflicts(s.tables, c)
    ensures AcceptCommand(Baseline, s, c, retry) == Result(Tick(Tick(s)), Refused)
  {
    hide FirstRow, RowOf, MaxSeq;
  }

  /** What an intake under the baseline adds, exactly: a row, and another one for a cut that is retried. */
  lemma BaselineAcceptsExactly(s: State, c: Command, retry: bool)
    requires Consistent(s.tables.journal, s.tick)
    ensures var r := AcceptCommand(Baseline, s, c, retry);
      var rows, rows' := CountRows(s.tables.journal, c.Pair()), CountRows(r.state.tables.journal, c.Pair());
      if Conflicts(s.tables, c) then r.out == Refused && rows' == rows
      else r.out.Returned? && rows' == rows + if s.faults.s2Cutpoint && retry then 2 else 1
  {
    hide Accept, CountRows, Conflicts, Consistent;
    if Conflicts(s.tables, c) {
      ConflictIsRefused(s, c, retry);
    } else {
      BaselineAddsARow(s, c);
      if s.faults.s2Cutpoint && retry {
        BaselineAddsARow(Accept(Baseline, s, c).state, c);
      }
    }
  }

  /**
   When the baseline keeps at most one row for an occurrence: when it refuses another payload, and
   otherwise exactly if the occurrence is new and its intake is not cut and then retried.
   */
  lemma BaselineKeepsOneRowExactly(s: State, c: Command, retry: bool)
    requires Consistent(s.tables.journal, s.tick)
    requires CountRows(s.tables.journal, c.Pair()) <= 1
    ensures CountRows(AcceptCommand(Baseline, s, c, retry).state.tables.journal, c.Pair()) <= 1 <==>
      || Conflicts(s.tables, c)
      || (FirstRow(s.tables.journal, c.Pair()) == None && !(s.faults.s2Cutpoint && retry))
  {
    hide AcceptCommand, CountRows, Conflicts, Consistent, FirstRow;
    BaselineAcceptsExactly(s, c, retry);
    CountRowsNone(s.tables.journal, c.Pair());
  }

  /** A new occurrence gets exactly one row if and only if its intake is not cut and then retried. */
  lemma BaselineGivesNewOneRowExactly(s: State, c: Command, retry: bool)
    requires Consistent(s.tables.journal, s.tick) && FirstRow(s.tables.journal, c.Pair()) == None
    ensures AcceptCommand(Baseline, s, c, retry).out.Returned?
    ensures CountRows(AcceptCommand(Baseline, s, c, retry).state.tables.journal, c.Pair()) == 1 <==>
      !(s.faults.s2Cutpoint && retry)
  {
    hide AcceptCommand, CountRows, Consistent, FirstRow;
    BaselineAcceptsExactly(s, c, retry);
    CountRowsNone(s.tables.journal, c.Pair());
  }

  /** So a cut intake and its one client retry leave a new occurrence with two rows. */
  lemma BaselineDuplicatesOnRetry(s: State, c: Command)
    requires Consistent(s.tables.journal, s.tick) && FirstRow(s.tables.journal, c.Pair()) == None && s.faults.s2Cutpoint
    ensures AcceptCommand(Baseline, s, c, true).out.Returned?
    ensures CountRows(AcceptCommand(Baseline, s, c, true).state.tables.journal, c.Pair()) == 2
  {
    hide AcceptCommand, CountRows, Consistent, FirstRow;
    BaselineAcceptsExactly(s, c, true);
    CountRowsNone(s.tables.journal, c.Pair());
  }

  ghost predicate EffectIdsOld(s: State) {
    forall i :: 0 <= i < |s.tables.effects| && s.tables.effects[i].effectId.EffectId? ==>
      s.tables.effects[i].effectId.tick <= s.tick
  }

  // The transient fault hits the first attempt at an event, whatever is settled already.
  predicate HitsFirst(s: State, id: EventId) {
    s.faults.transient && Attempts(s, id) == 0
  }

  // It hits after the restart of a cut delivery, when the first attempt was made in an earlier one.
  predicate HitsAfterRestart(s: State, id: EventId) {
    s.faults.transient && Attempts(s, id) > 0 && s.faults.s5Cutpoint
  }

  lemma BaselineDefers(s: State, id: EventId, sequence: int)
    requires RowOf(s.tables.journal, id).Some? && HitsFirst(s, id)
    ensures var r := Deliver(Baseline, s, id, sequence);
      && r.out == TransientFault && r.state.tables == s.tables && r.state.tick >= s.tick
      && r.state.faults == s.faults.(transient := false)
  {
    hide RowOf;
  }

  /** The baseline gives a delivered event one settlement effect more than it had. */
  lemma BaselineAddsAnEffect(s: State, id: EventId, sequence: int)
    requires EffectIdsOld(s) && RowOf(s.tables.journal, id).Some? && !HitsFirst(s, id)
    ensures var r := Deliver(Baseline, s, id, sequence);
      && CountEffects(r.state.tables.effects, id, SETTLEMENT) == CountEffects(s.tables.effects, id, SETTLEMENT) + 1
      && (if s.faults.s5Cutpoint then r.out.CutAt? else r.out.Returned?)
      && r.state.faults == s.faults.(s5Cutpoint := false)
      && r.state.tables.journal == s.tables.journal
      && EffectIdsOld(r.state)
  {
    hide CountEffects, RowOf;
    var s4 := Load(s, id).state;
    var e := Load(s, id).out.value;
    var effectId := EffectId(id, e.occurrenceId, SETTLEMENT, s4.tick + 1, s4.workloadId);
    NewIdIsNew(s.tables.effects, s4.tick, effectId);
    CountEffectsAppend(s.tables.effects,
      EffectRow(effectId, e.occurrenceId, EFFECT_AMOUNT, SETTLEMENT, id, s4.tick + 1), id, SETTLEMENT);
  }

  // A delivery loop that no armed transient fault can reach settles once, and once more after a cut.
  lemma UndeferredDelivery(s: State, id: EventId, sequence: int, attempts: nat, budget: int, retry: bool)
    requires EffectIdsOld(s) && RowOf(s.tables.journal, id).Some? && !s.faults.transient && attempts < budget
    ensures var r := DeliverFrom(Baseline, s, id, sequence, attempts, budget, retry);
      && r.out.Returned?
      && CountEffects(r.state.tables.effects, id, SETTLEMENT) ==
           CountEffects(s.tables.effects, id, SETTLEMENT) + if s.faults.s5Cutpoint then 2 else 1
  {
    hide CountEffects, RowOf, Deliver;
    BaselineAddsAnEffect(s, id, sequence);
    if s.faults.s5Cutpoint {
      BaselineAddsAnEffect(Restart(Deliver(Baseline, s, id, sequence).state), id, sequence);
    }
  }

  // A delivery loop whose first attempt is deferred goes on without the fault, if it may go on.
  lemma DeferredDelivery(s: State, id: EventId, sequence: int, budget: int, retry: bool)
    requires EffectIdsOld(s) && RowOf(s.tables.journal, id).Some? && HitsFirst(s, id) && 1 <= budget
    ensures var r := DeliverFrom(Baseline, s, id, sequence, 0, budget, retry);
      && (r.out.Returned? <==> retry && 2 <= budget)
      && CountEffects(r.state.tables.effects, id, SETTLEMENT) ==
           CountEffects(s.tables.effects, id, SETTLEMENT) +
             if !(retry && 2 <= budget) then 0 else if s.faults.s5Cutpoint then 2 else 1
  {
    hide CountEffects, RowOf, Deliver, HitsFirst;
    BaselineDefers(s, id, sequence);
    if retry && 2 <= budget {
      UndeferredDelivery(Tick(Deliver(Baseline, s, id, sequence).state), id, sequence, 1, budget, retry);
    }
  }

  /** What a delivery under the baseline adds, exactly, whatever faults are armed. */
  lemma BaselineDeliversExactly(s: State, id: EventId, sequence: int, budget: int, retry: bool)
    requires EffectIdsOld(s) && RowOf(s.tables.journal, id).Some? && 1 <= budget
    ensures var r := DeliverEvent(Baseline, s, id, sequence, budget, retry);
      var again := retry && 2 <= budget;
      && (r.out.Returned? <==> (HitsFirst(s, id) || HitsAfterRestart(s, id) ==> again))
      && CountEffects(r.state.tables.effects, id, SETTLEMENT) ==
           CountEffects(s.tables.effects, id, SETTLEMENT) +
             (if HitsFirst(s, id) && !again then 0
              else if s.faults.s5Cutpoint && (HitsAfterRestart(s, id) ==> again) then 2 else 1)
  {
    hide CountEffects, RowOf, Deliver;
    if HitsFirst(s, id) {
      DeferredDelivery(s, id, sequence, budget, retry);
    } else if !s.faults.transient {
      UndeferredDelivery(s, id, sequence, 0, budget, retry);
    } else {
      BaselineAddsAnEffect(s, id, sequence);
      if s.faults.s5Cutpoint {
        DeferredDelivery(Restart(Deliver(Baseline, s, id, sequence).state), id, sequence, budget, retry);
      }
    }
  }

  /**
   When a returning delivery under the baseline leaves exactly one settlement effect: if and only if the
   event had none and the worker is not cut after the insert, whatever the transient fault does.
   */
  lemma BaselineKeepsOneEffectExactly(s: State, id: EventId, sequence: int, budget: int, retry: bool)
    requires EffectIdsOld(s) && RowOf(s.tables.journal, id).Some? && 1 <= budget
    requires DeliverEvent(Baseline, s, id, sequence, budget, retry).out.Returned?
    ensures CountEffects(DeliverEvent(Baseline, s, id, sequence, budget, retry).state.tables.effects, id, SETTLEMENT) == 1 <==>
      CountEffects(s.tables.effects, id, SETTLEMENT) == 0 && !s.faults.s5Cutpoint
  {
    hide CountEffects, RowOf, DeliverEvent;
    BaselineDeliversExactly(s, id, sequence, budget, retry);
  }

  /** So a worker cut after the effect insert and restarted settles an unsettled event twice. */
  lemma BaselineDuplicatesOnRestart(s: State, id: EventId, sequence: int, budget: int, retry: bool)
    requires EffectIdsOld(s) && RowOf(s.tables.journal, id).Some? && s.faults.s5Cutpoint && !s.faults.transient
    requires 1 <= budget && CountEffects(s.tables.effects, id, SETTLEMENT) == 0
    ensures var r := DeliverEvent(Baseline, s, id, sequence, budget, retry);
      r.out.Returned? && CountEffects(r.state.tables.effects, id, SETTLEMENT) == 2
  {
    hide CountEffects, RowOf, DeliverEvent;
    BaselineDeliversExactly(s, id, sequence, budget, retry);
  }

  /**
   When deduplicating by event keeps a logical effect: a call that returns leaves an effect under its key
   if and only if there was one or the event had no effect at all.
   */
  lemma BroadDedupKeepsKeyExactly(s: State, e: Event)
    requires S5(BroadEventDedup, s, e).out.Returned?
    ensures EffectByKey(S5(BroadEventDedup, s, e).state.tables.effects, e.eventId, e.logicalKey).Some? <==>
      EffectByKey(s.tables.effects, e.eventId, e.logicalKey).Some? || EffectOf(s.tables.effects, e.eventId).None?
  {
    hide EffectByKey, EffectOf, HasEffectId;
    var r := S5(BroadEventDedup, s, e);
    if EffectOf(s.tables.effects, e.eventId).None? {
      EffectByKeyAppend(s.tables.effects, r.state.tables.effects[|s.tables.effects|], e.eventId, e.logicalKey);
    }
  }

  /** So once the event has any effect, another key is answered, without its effect. */
  lemma BroadDedupLosesSecondKey(s: State, e: Event)
    requires EffectOf(s.tables.effects, e.eventId).Some?
    requires EffectByKey(s.tables.effects, e.eventId, e.logicalKey) == None
    ensures S5(BroadEventDedup, s, e).out.Returned? && S5(BroadEventDedup, s, e).state == s
    ensures EffectByKey(S5(BroadEventDedup, s, e).state.tables.effects, e.eventId, e.logicalKey) == None
  {
  }
}

/**
 The durable-outcome check of the public workloads, and the counting argument behind its verdict.
 Nothing here depends on the flow that filled the tables.
 */
module Counting {
  import opened Wrappers
  import opened Settlement
  import opened Journal

  function RowsFor(journal: seq<JournalRow>, pairs: seq<(string, string)>): seq<JournalRow> {
    if journal == [] then []
    else
      var last := journal[|journal| - 1];
      RowsFor(journal[..|journal| - 1], pairs) + (if last.Pair() in pairs then [last] else [])
  }

  function CountRows(journal: seq<JournalRow>, pair: (string, string)): nat {
    if journal == [] then 0
    else CountRows(journal[..|journal| - 1], pair) + (if journal[|journal| - 1].Pair() == pair then 1 else 0)
  }

  function EventIds(rows: seq<JournalRow>): seq<EventId> {
    seq(|rows|, i requires 0 <= i < |rows| => rows[i].eventId)
  }

  function EffectsFor(effects: seq<EffectRow>, ids: seq<EventId>): seq<EffectRow> {
    if effects == [] then []
    else
      var last := effects[|effects| - 1];
      EffectsFor(effects[..|effects| - 1], ids) + (if last.sourceEvent in ids then [last] else [])
  }

  function CountOf(effects: seq<EffectRow>, id: EventId): nat {
    if effects == [] then 0
    else CountOf(effects[..|effects| - 1], id) + (if effects[|effects| - 1].sourceEvent == id then 1 else 0)
  }

  function Amounts(effects: seq<EffectRow>): int {
    if effects == [] then 0 else Amounts(effects[..|effects| - 1]) + effects[|effects| - 1].amount
  }

  predicate AmountsOk(effects: seq<EffectRow>) {
    forall i :: 0 <= i < |effects| ==> effects[i].amount == EFFECT_AMOUNT
  }

  /** The verdict: counts, amounts, their sum, and a cursor that has reached the largest seq in scope. */
  predicate DurableOutcome(t: Tables, pairs: seq<(string, string)>, expected: nat) {
    var rows := RowsFor(t.journal, pairs);
    var effects := EffectsFor(t.effects, EventIds(rows));
    && |rows| == expected
    && |effects| == expected
    && AmountsOk(effects)
    && Amounts(effects) == expected * EFFECT_AMOUNT
    && t.cursor >= MaxSeq(rows)
  }

  lemma {:induction false} CountRowsNone(journal: seq<JournalRow>, pair: (string, string))
    ensures FirstRow(journal, pair) == None <==> CountRows(journal, pair) == 0
  {
    if journal != [] {
      CountRowsNone(journal[..|journal| - 1], pair);
    }
  }

  lemma CountRowsAppend(journal: seq<JournalRow>, row: JournalRow, pair: (string, string))
    ensures CountRows(journal + [row], pair) == CountRows(journal, pair) + (if row.Pair() == pair then 1 else 0)
  {
    assert (journal + [row])[..|journal|] == journal;
  }

  lemma {:induction false} CountOfNone(effects: seq<EffectRow>, id: EventId)
    ensures CountOf(effects, id) == 0 <==> forall e :: e in effects ==> e.sourceEvent != id
  {
    if effects != [] {
      var front, last := effects[..|effects| - 1], effects[|effects| - 1];
      CountOfNone(front, id);
      assert effects == front + [last];
    }
  }

  lemma CountOfAppend(effects: seq<EffectRow>, row: EffectRow, id: EventId)
    ensures CountOf(effects + [row], id) == CountOf(effects, id) + (if row.sourceEvent == id then 1 else 0)
  {
    assert (effects + [row])[..|effects|] == effects;
  }

  // ---------------------------------------------------------------- sums

  function Sum(xs: seq<nat>): nat {
    if xs == [] then 0 else Sum(xs[..|xs| - 1]) + xs[|xs| - 1]
  }

  /** Positive counts sum to at least their number, and to exactly their number only if each is one. */
  lemma {:induction false} SumOfPositives(xs: seq<nat>)
    requires forall i :: 0 <= i < |xs| ==> 1 <= xs[i]
    ensures |xs| <= Sum(xs)
    ensures Sum(xs) == |xs| <==> forall i :: 0 <= i < |xs| ==> xs[i] == 1
  {
    if xs != [] {
      SumOfPositives(xs[..|xs| - 1]);
    }
  }

  function RowCounts(journal: seq<JournalRow>, pairs: seq<(string, string)>): seq<nat> {
    seq(|pairs|, i requires 0 <= i < |pairs| => CountRows(journal, pairs[i]))
  }

  function EffectCounts(effects: seq<EffectRow>, ids: seq<EventId>): seq<nat> {
    seq(|ids|, i requires 0 <= i < |ids| => CountOf(effects, ids[i]))
  }

  ghost predicate Distinct<T>(xs: seq<T>) {
    forall i, k :: 0 <= i < k < |xs| ==> xs[i] != xs[k]
  }

  lemma {:induction false} RowsForNone(journal: seq<JournalRow>)
    ensures RowsFor(journal, []) == []
  {
    if journal != [] { RowsForNone(journal[..|journal| - 1]); }
  }

  lemma {:induction false} RowsForOneMore(journal: seq<JournalRow>, pairs: seq<(string, string)>, pair: (string, string))
    requires pair !in pairs
    ensures |RowsFor(journal, pairs + [pair])| == |RowsFor(journal, pairs)| + CountRows(journal, pair)
  {
    if journal != [] { RowsForOneMore(journal[..|journal| - 1], pairs, pair); }
  }

  lemma {:induction false} RowsForCount(journal: seq<JournalRow>, pairs: seq<(string, string)>)
    requires Distinct(pairs)
    ensures |RowsFor(journal, pairs)| == Sum(RowCounts(journal, pairs))
    decreases |pairs|
  {
    if pairs == [] {
      RowsForNone(journal);
    } else {
      var front := pairs[..|pairs| - 1];
      RowsForCount(journal, front);
      RowsForOneMore(journal, front, pairs[|pairs| - 1]);
      assert front + [pairs[|pairs| - 1]] == pairs;
      assert RowCounts(journal, pairs)[..|pairs| - 1] == RowCounts(journal, front);
    }
  }

  lemma {:induction false} EffectsForNone(effects: seq<EffectRow>)
    ensures EffectsFor(effects, []) == []
  {
    if effects != [] { EffectsForNone(effects[..|effects| - 1]); }
  }

  lemma {:induction false} EffectsForOneMore(effects: seq<EffectRow>, ids: seq<EventId>, id: EventId)
    requires id !in ids
    ensures |EffectsFor(effects, ids + [id])| == |EffectsFor(effects, ids)| + CountOf(effects, id)
  {
    if effects != [] { EffectsForOneMore(effects[..|effects| - 1], ids, id); }
  }

  lemma {:induction false} EffectsForCount(effects: seq<EffectRow>, ids: seq<EventId>)
    requires Distinct(ids)
    ensures |EffectsFor(effects, ids)| == Sum(EffectCounts(effects, ids))
    decreases |ids|
  {
    if ids == [] {
      EffectsForNone(effects);
    } else {
      var front := ids[..|ids| - 1];
      EffectsForCount(effects, front);
      EffectsForOneMore(effects, front, ids[|ids| - 1]);
      assert front + [ids[|ids| - 1]] == ids;
      assert EffectCounts(effects, ids)[..|ids| - 1] == EffectCounts(effects, front);
    }
  }

  lemma {:induction false} AmountsSum(effects: seq<EffectRow>)
    requires AmountsOk(effects)
    ensures Amounts(effects) == |effects| * EFFECT_AMOUNT
  {
    if effects != [] { AmountsSum(effects[..|effects| - 1]); }
  }

  lemma {:induction false} RowsForMembers(journal: seq<JournalRow>, pairs: seq<(string, string)>, row: JournalRow)
    ensures row in RowsFor(journal, pairs) <==> row in journal && row.Pair() in pairs
  {
    if journal != [] {
      RowsForMembers(journal[..|journal| - 1], pairs, row);
      assert journal == journal[..|journal| - 1] + [journal[|journal| - 1]];
    }
  }

  lemma {:induction false} EffectsForMembers(effects: seq<EffectRow>, ids: seq<EventId>, e: EffectRow)
    ensures e in EffectsFor(effects, ids) <==> e in effects && e.sourceEvent in ids
  {
    if effects != [] {
      EffectsForMembers(effects[..|effects| - 1], ids, e);
      assert effects == effects[..|effects| - 1] + [effects[|effects| - 1]];
    }
  }

  lemma {:induction false} RowsForIdsDistinct(journal: seq<JournalRow>, pairs: seq<(string, string)>)
    requires IdsDistinct(journal)
    ensures Distinct(EventIds(RowsFor(journal, pairs)))
  {
    if journal != [] {
      var front := journal[..|journal| - 1];
      RowsForIdsDistinct(front, pairs);
      forall k | 0 <= k < |RowsFor(front, pairs)|
        ensures RowsFor(front, pairs)[k].eventId != journal[|journal| - 1].eventId
      {
        RowsForMembers(front, pairs, RowsFor(front, pairs)[k]);
        var n :| 0 <= n < |front| && front[n] == RowsFor(front, pairs)[k];
      }
      assert forall k :: 0 <= k < |RowsFor(front, pairs)| ==> EventIds(RowsFor(front, pairs))[k] == RowsFor(front, pairs)[k].eventId;
    }
  }

  lemma {:induction false} MaxSeqBounds(rows: seq<JournalRow>, n: int)
    ensures MaxSeq(rows) <= n <==> 0 <= n && forall i :: 0 <= i < |rows| ==> rows[i].seqNo <= n
  {
    if rows != [] { MaxSeqBounds(rows[..|rows| - 1], n); }
  }

  // ---------------------------------------------------------------- the verdict

  ghost predicate InScope(row: JournalRow, t: Tables, pairs: seq<(string, string)>) {
    row in t.journal && row.Pair() in pairs
  }

  ghost predicate OneRowEach(t: Tables, pairs: seq<(string, string)>) {
    forall p :: p in pairs ==> CountRows(t.journal, p) == 1
  }

  ghost predicate OneEffectEach(t: Tables, pairs: seq<(string, string)>) {
    forall row :: InScope(row, t, pairs) ==> CountOf(t.effects, row.eventId) == 1
  }

  ghost predicate ScopedAmountsOk(t: Tables, pairs: seq<(string, string)>) {
    forall row, e :: InScope(row, t, pairs) && e in t.effects && e.sourceEvent == row.eventId ==> e.amount == EFFECT_AMOUNT
  }

  ghost predicate CursorReached(t: Tables, pairs: seq<(string, string)>) {
    0 <= t.cursor && forall row :: InScope(row, t, pairs) ==> row.seqNo <= t.cursor
  }

  lemma RowsCountExactly(t: Tables, pairs: seq<(string, string)>)
    requires Distinct(pairs)
    requires forall p :: p in pairs ==> 1 <= CountRows(t.journal, p)
    ensures |RowsFor(t.journal, pairs)| == |pairs| <==> OneRowEach(t, pairs)
  {
    RowsForCount(t.journal, pairs);
    SumOfPositives(RowCounts(t.journal, pairs));
    forall p | p in pairs ensures exists i :: 0 <= i < |pairs| && RowCounts(t.journal, pairs)[i] == CountRows(t.journal, p) {
      var i :| 0 <= i < |pairs| && pairs[i] == p;
      assert RowCounts(t.journal, pairs)[i] == CountRows(t.journal, p);
    }
  }

  lemma EffectsCountExactly(t: Tables, pairs: seq<(string, string)>)
    requires IdsDistinct(t.journal)
    requires forall row :: InScope(row, t, pairs) ==> 1 <= CountOf(t.effects, row.eventId)
    ensures var rows := RowsFor(t.journal, pairs);
      |EffectsFor(t.effects, EventIds(rows))| == |rows| <==> OneEffectEach(t, pairs)
  {
    var rows := RowsFor(t.journal, pairs);
    RowsForIdsDistinct(t.journal, pairs);
    EffectsForCount(t.effects, EventIds(rows));
    forall k | 0 <= k < |rows| ensures InScope(rows[k], t, pairs) {
      RowsForMembers(t.journal, pairs, rows[k]);
    }
    var counts := EffectCounts(t.effects, EventIds(rows));
    SumOfPositives(counts);
    forall row | InScope(row, t, pairs) ensures exists k :: 0 <= k < |rows| && counts[k] == CountOf(t.effects, row.eventId) {
      RowsForMembers(t.journal, pairs, row);
      var k :| 0 <= k < |rows| && rows[k] == row;
      assert counts[k] == CountOf(t.effects, row.eventId);
    }
  }

  lemma AmountsExactly(t: Tables, pairs: seq<(string, string)>)
    ensures AmountsOk(EffectsFor(t.effects, EventIds(RowsFor(t.journal, pairs)))) <==> ScopedAmountsOk(t, pairs)
  {
    var rows := RowsFor(t.journal, pairs);
    var ids := EventIds(rows);
    var scoped := EffectsFor(t.effects, ids);
    forall e ensures e in scoped <==> e in t.effects && exists row :: InScope(row, t, pairs) && e.sourceEvent == row.eventId {
      EffectsForMembers(t.effects, ids, e);
      if e.sourceEvent in ids {
        var k :| 0 <= k < |ids| && ids[k] == e.sourceEvent;
        RowsForMembers(t.journal, pairs, rows[k]);
        assert InScope(rows[k], t, pairs);
      }
      if row :| InScope(row, t, pairs) && e.sourceEvent == row.eventId {
        RowsForMembers(t.journal, pairs, row);
        var k :| 0 <= k < |rows| && rows[k] == row;
        assert ids[k] == e.sourceEvent;
      }
    }
    if AmountsOk(scoped) {
      forall row, e | InScope(row, t, pairs) && e in t.effects && e.sourceEvent == row.eventId
        ensures e.amount == EFFECT_AMOUNT
      {
        assert e in scoped;
      }
    }
    if ScopedAmountsOk(t, pairs) {
      forall i | 0 <= i < |scoped| ensures scoped[i].amount == EFFECT_AMOUNT {
        assert scoped[i] in scoped;
      }
    }
  }

  lemma CursorExactly(t: Tables, pairs: seq<(string, string)>)
    ensures t.cursor >= MaxSeq(RowsFor(t.journal, pairs)) <==> CursorReached(t, pairs)
  {
    var rows := RowsFor(t.journal, pairs);
    MaxSeqBounds(rows, t.cursor);
    forall row ensures row in rows <==> InScope(row, t, pairs) {
      RowsForMembers(t.journal, pairs, row);
    }
  }

  /**
   When every command has at least one row and every such event at least one effect, the totals leave no
   slack: the verdict is "pass" exactly when each command has one row, each event one effect, each
   effect the amount 100, and the cursor has reached every seq in scope.
   */
  lemma PassMeansExactlyOneEach(t: Tables, pairs: seq<(string, string)>)
    requires Distinct(pairs) && IdsDistinct(t.journal)
    requires forall p :: p in pairs ==> 1 <= CountRows(t.journal, p)
    requires forall row :: InScope(row, t, pairs) ==> 1 <= CountOf(t.effects, row.eventId)
    ensures DurableOutcome(t, pairs, |pairs|) <==>
      OneRowEach(t, pairs) && OneEffectEach(t, pairs) && ScopedAmountsOk(t, pairs) && CursorReached(t, pairs)
  {
    hide RowsFor, EffectsFor, MaxSeq, Amounts, OneRowEach, OneEffectEach, ScopedAmountsOk, CursorReached, AmountsOk;
    RowsCountExactly(t, pairs);
    EffectsCountExactly(t, pairs);
    AmountsExactly(t, pairs);
    CursorExactly(t, pairs);
    var scoped := EffectsFor(t.effects, EventIds(RowsFor(t.journal, pairs)));
    if AmountsOk(scoped) {
      AmountsSum(scoped);
    }
  }
}

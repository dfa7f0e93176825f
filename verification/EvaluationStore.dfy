/**
 The evaluation store as an object: a table of runs and a bounded event log, updated in place. Each
 method moves the runs as `RunRecords.Step` and the log as `EventLog.Apply` say.
 */
module EvaluationStore {
  import opened Wrappers
  import opened R = RunRecords
  import L = EventLog
  import H = RecordHistory

  // The active runs that are no longer left have been interrupted; the others are as they were.
  ghost predicate PartlyInterrupted(before: Runs, runs: Runs, active: set<string>, left: set<string>, now: string) {
    && runs.Keys == before.Keys
    && forall id :: id in runs ==> runs[id] == if id in active - left then InterruptedRow(before[id], now) else before[id]
  }

  lemma NoneInterrupted(runs: Runs, active: set<string>, now: string)
    ensures PartlyInterrupted(runs, runs, active, active, now)
  {
  }

  lemma OneInterrupted(before: Runs, runs: Runs, active: set<string>, left: set<string>, now: string, id: string)
    requires PartlyInterrupted(before, runs, active, left, now) && left <= active && id in left
    requires id in before && (before[id].status == Queued || before[id].status == Running)
    ensures id in runs && runs[id] == before[id]
    ensures var payload := InterruptedPayload(before[id].payload, now);
      PartlyInterrupted(before,
        runs[id := before[id].(status := Interrupted, updatedAt := now,
                               payload := payload[RecordDigest := DigestOfRecord(payload)],
                               digest := Some(DigestOfRecord(payload)))],
        active, left - {id}, now)
  {
    hide InterruptedPayload, DigestOfRecord;
  }

  lemma AllInterrupted(before: Runs, runs: Runs, active: set<string>, now: string)
    requires PartlyInterrupted(before, runs, active, {}, now)
    requires active == set id | id in before && (before[id].status == Queued || before[id].status == Running)
    ensures runs == MarkInterrupted(before, now)
  {
    hide InterruptedPayload, DigestOfRecord;
  }

  // Exactly the ids of the events whose data names the run.
  ghost predicate AreIdsNaming(ids: set<nat>, events: seq<L.Event>, runId: string) {
    forall n :: n in ids <==> exists i :: 0 <= i < |events| && events[i].id == n && events[i].mentions == Some(runId)
  }

  lemma OneMoreNamed(ids: set<nat>, events: seq<L.Event>, runId: string, e: L.Event)
    requires AreIdsNaming(ids, events, runId)
    ensures AreIdsNaming(if e.mentions == Some(runId) then ids + {e.id} else ids, events + [e], runId)
  {
    var all := events + [e];
    forall n ensures (exists i :: 0 <= i < |all| && all[i].id == n && all[i].mentions == Some(runId)) <==>
      n in ids || (e.id == n && e.mentions == Some(runId))
    {
      if i :| 0 <= i < |events| && events[i].id == n && events[i].mentions == Some(runId) {
        assert all[i] == events[i];
      }
      if e.id == n && e.mentions == Some(runId) {
        assert all[|events|] == e;
      }
    }
  }

  class EvaluationStore {
    const replayLimit: nat
    var runs: Runs
    var events: seq<L.Event>
    var lastEventId: nat

    function Log(): L.Log
      reads this
    {
      L.Log.Log(events, lastEventId)
    }

    ghost predicate Valid()
      reads this
    {
      SealedRuns(runs) && L.Numbered(Log())
    }

    constructor (replayLimit: nat)
      ensures Valid() && runs == map[] && Log() == L.EMPTY && this.replayLimit == replayLimit
    {
      this.replayLimit := replayLimit;
      runs, events, lastEventId := map[], [], 0;
    }

    method CreateRun(runId: string, batchId: string, seed: int, attempt: int, payload: Payload, now: string)
      returns (done: bool)
      requires Valid()
      modifies this`runs
      ensures Valid() && runs == Step(old(runs), Create(runId, batchId, seed, attempt, payload, now))
      ensures done <==> runId !in old(runs) && !SlotTaken(old(runs), batchId, seed, attempt)
    {
      hide SealedRuns, L.Numbered, SlotTaken;
      StepKeepsSeals(runs, Create(runId, batchId, seed, attempt, payload, now));
      if runId in runs || SlotTaken(runs, batchId, seed, attempt) { return false; }
      var stored := payload[RunId := Text(runId)][BatchId := Text(batchId)][CreatedAt := Text(now)];
      runs := runs[runId := Row(runId, batchId, now, now, Queued, seed, attempt, Null, stored, None)];
      done := true;
    }

    method UpdateRunProgress(runId: string, status: RunStatus, updates: Payload, now: string) returns (result: Result<()>)
      requires Valid()
      modifies this`runs
      ensures Valid() && runs == Step(old(runs), Progress(runId, status, updates, now))
      ensures result.KeyError? <==> runId !in old(runs)
      ensures result.ImmutableRecord? <==> runId in old(runs) && IsTerminal(old(runs)[runId].status)
      ensures result.Done? ==>
        && runId in runs && runId in old(runs) && H.OthersStay(old(runs), runs, runId)
        && H.Merged(old(runs)[runId], runs[runId], updates)
        && runs[runId].status == status && runs[runId].updatedAt == now
      ensures result.Done? || runs == old(runs)
    {
      hide SealedRuns, L.Numbered, IsTerminal;
      StepKeepsSeals(runs, Progress(runId, status, updates, now));
      H.ProgressMerges(runs, runId, status, updates, now);
      if runId !in runs { return KeyError; }
      var row := runs[runId];
      if IsTerminal(row.status) { return ImmutableRecord; }
      var instanceId := Kept(row.instanceId, R.Get(updates, InstanceId));
      runs := runs[runId := row.(status := status, updatedAt := now, instanceId := instanceId, payload := row.payload + updates)];
      result := Done(());
    }

    /** Ends a run: its payload gets its status, its end and its digest, and the row becomes final. */
    method FinalizeRun(runId: string, status: RunStatus, outcome: Payload, artifact: Option<Artifact>, now: string)
      returns (result: Result<Value>)
      requires Valid()
      modifies this`runs
      ensures Valid() && runs == Step(old(runs), Finish(runId, status, outcome, artifact, now))
      ensures result.Done? ==> runId in runs && IsTerminal(runs[runId].status) && runs[runId].digest == Some(result.value)
      ensures result.Done? || runs == old(runs)
      ensures result.Done? <==>
        && IsTerminal(status) && runId in old(runs) && !IsTerminal(old(runs)[runId].status)
        && (artifact.Some? ==> artifact.value.digestIsRight)
    {
      hide SealedRuns, L.Numbered, DigestOfRecord, IsTerminal;
      StepKeepsSeals(runs, Finish(runId, status, outcome, artifact, now));
      if !IsTerminal(status) { return ValueError; }
      if runId !in runs { return KeyError; }
      var row := runs[runId];
      if IsTerminal(row.status) { return ImmutableRecord; }
      var payload := row.payload + outcome;
      if artifact.Some? {
        if !artifact.value.digestIsRight { return ValueError; }
        payload := payload[DiffSummary := artifact.value.summary];
      } else {
        payload := WithoutArtifact(payload);
      }
      payload := payload[StatusField := StatusName(status)];
      payload := payload[EndedAt := if Truthy(R.Get(payload, EndedAt)) then payload[EndedAt] else Text(now)];
      var digest := DigestOfRecord(payload);
      var instanceId := Kept(row.instanceId, R.Get(payload, InstanceId));
      payload := payload[RecordDigest := digest];
      runs := runs[runId := row.(status := status, updatedAt := now, instanceId := instanceId, payload := payload,
                                 digest := Some(digest))];
      result := Done(digest);
    }

    /** Walks over the runs and ends those still queued or running. */
    method MarkActiveInterrupted(now: string) returns (count: nat)
      requires Valid()
      modifies this`runs
      ensures Valid() && runs == Step(old(runs), InterruptActive(now))
      ensures count == |set id | id in old(runs) && (old(runs)[id].status == Queued || old(runs)[id].status == Running)|
    {
      hide SealedRuns, L.Numbered, InterruptedRow, PartlyInterrupted;
      StepKeepsSeals(runs, InterruptActive(now));
      var active := set id | id in runs && (runs[id].status == Queued || runs[id].status == Running);
      var left := active;
      NoneInterrupted(runs, active, now);
      while left != {}
        invariant left <= active && PartlyInterrupted(old(runs), runs, active, left, now)
        decreases |left|
      {
        var id :| id in left;
        OneInterrupted(old(runs), runs, active, left, now, id);
        var row := runs[id];
        var payload := InterruptedPayload(row.payload, now);
        var digest := DigestOfRecord(payload);
        payload := payload[RecordDigest := digest];
        runs := runs[id := row.(status := Interrupted, updatedAt := now, payload := payload, digest := Some(digest))];
        left := left - {id};
      }
      AllInterrupted(old(runs), runs, active, now);
      count := |active|;
    }

    /** Inserts under a new id, then drops everything of the scope from the replay limit backwards. */
    method AppendEvent(scope: L.Scope, mentions: Option<string>, data: string) returns (id: nat)
      requires Valid()
      modifies this`events, this`lastEventId
      ensures Valid() && Log() == L.Apply(old(Log()), replayLimit, L.Append(scope, mentions, data))
      ensures id == lastEventId == old(lastEventId) + 1
    {
      hide SealedRuns, L.Numbered, L.Filter;
      L.ApplyKeepsNumbers(Log(), replayLimit, L.Append(scope, mentions, data));
      id := lastEventId + 1;
      lastEventId := id;
      events := events + [L.Event.Event(id, scope, mentions, data)];
      var scoped := L.Filter(events, L.Of(scope));
      if |scoped| > replayLimit {
        var cutoff := scoped[|scoped| - 1 - replayLimit].id;
        events := L.Filter(events, L.Newer(scope, cutoff));
      }
    }

    /**
     The next page: at most `limit` events of the scope past the cursor, in id order, and none of the
     scope passed over between the cursor and the end of the page.
     */
    method EventsAfter(scope: L.Scope, cursor: nat, limit: nat) returns (page: seq<L.Event>)
      requires Valid()
      ensures L.IsPage(page, Log(), scope, cursor, limit)
    {
      hide SealedRuns, L.Numbered, L.IsPage, L.Filter;
      L.EventsAfterIsPage(Log(), scope, cursor, limit);
      page := L.Filter(L.Filter(events, L.Of(scope)), L.After(cursor));
      if |page| > limit { page := page[..limit]; }
    }

    /** The ids of the events of a batch whose data names the run. */
    method EventsNaming(batchEvents: seq<L.Event>, runId: string) returns (ids: set<nat>)
      ensures AreIdsNaming(ids, batchEvents, runId)
    {
      ids := {};
      for i := 0 to |batchEvents|
        invariant AreIdsNaming(ids, batchEvents[..i], runId)
      {
        assert batchEvents[..i + 1] == batchEvents[..i] + [batchEvents[i]];
        OneMoreNamed(ids, batchEvents[..i], runId, batchEvents[i]);
        if batchEvents[i].mentions == Some(runId) { ids := ids + {batchEvents[i].id}; }
      }
      assert batchEvents[..|batchEvents|] == batchEvents;
    }

    predicate OtherRunOfBatch(runId: string)
      reads this
      requires runId in runs
    {
      exists id :: id in runs && id != runId && runs[id].batchId == runs[runId].batchId
    }

    /**
     Deletes a terminal run with its events, the events of its batch that name it and, when it was the
     last run of the batch, all events of the batch.
     */
    method DeleteRun(runId: string) returns (result: Result<()>)
      requires Valid()
      modifies this`runs, this`events
      ensures Valid() && runs == Step(old(runs), Delete(runId))
      ensures result.Done? <==> runId in old(runs) && IsTerminal(old(runs)[runId].status)
      ensures !result.Done? ==> Log() == old(Log())
      ensures result.Done? ==>
        Log() == L.Apply(old(Log()), replayLimit, L.DeleteRun(runId, old(runs)[runId].batchId, !old(OtherRunOfBatch(runId))))
    {
      hide SealedRuns, L.Numbered, L.Filter, IsTerminal;
      if runId !in runs { return KeyError; }
      if !IsTerminal(runs[runId].status) { return ActiveRun; }
      StepKeepsSeals(runs, Delete(runId));
      var batchId := runs[runId].batchId;
      var lastOfBatch := !OtherRunOfBatch(runId);
      ghost var before := Log();
      L.ApplyKeepsNumbers(before, replayLimit, L.DeleteRun(runId, batchId, lastOfBatch));
      events := L.Filter(events, NotOfRun(runId));
      var batchEvents := L.Filter(events, L.Of(L.BatchScope(batchId)));
      var ids := EventsNaming(batchEvents, runId);
      assert batchEvents == L.Filter(L.Filter(before.events, NotOfRun(runId)), L.Of(L.BatchScope(batchId)));
      DeletionInSteps(before, runId, batchId, lastOfBatch, ids);
      events := L.Filter(events, NotAmong(ids));
      runs := runs - {runId};
      var remaining := set id | id in runs && runs[id].batchId == batchId;
      assert remaining == {} <==> lastOfBatch by {
        RemainingRuns(old(runs), runId, remaining);
      }
      if remaining == {} {
        events := L.Filter(events, NotOfBatch(batchId));
      }
      result := Done(());
    }
  }

  lemma RemainingRuns(runs: Runs, runId: string, remaining: set<string>)
    requires runId in runs
    requires remaining == set id | id in runs && id != runId && runs[id].batchId == runs[runId].batchId
    ensures remaining == {} <==> !exists id :: id in runs && id != runId && runs[id].batchId == runs[runId].batchId
  {
    if id :| id in runs && id != runId && runs[id].batchId == runs[runId].batchId {
      assert id in remaining;
    }
  }

  function NotOfRun(runId: string): L.Event -> bool {
    (e: L.Event) => e.scope != L.RunScope(runId)
  }

  function NotOfBatch(batchId: string): L.Event -> bool {
    (e: L.Event) => e.scope != L.BatchScope(batchId)
  }

  function NotAmong(ids: set<nat>): L.Event -> bool {
    (e: L.Event) => e.id !in ids
  }

  lemma {:induction false} FiltersCompose(s: seq<L.Event>, p: L.Event -> bool, q: L.Event -> bool, both: L.Event -> bool)
    requires forall e :: e in s ==> (both(e) <==> p(e) && q(e))
    ensures L.Filter(L.Filter(s, p), q) == L.Filter(s, both)
  {
    if s != [] {
      var front, last := s[..|s| - 1], s[|s| - 1];
      FiltersCompose(front, p, q, both);
      L.FilterAppend(L.Filter(front, p), last, q);
    }
  }

  // Ids are unique, so deleting the collected ids deletes exactly the events that named the run.
  lemma NamedEventsGo(log: L.Log, kept: seq<L.Event>, runId: string, batchId: string, ids: set<nat>)
    requires L.Numbered(log) && kept == L.Filter(log.events, NotOfRun(runId))
    requires var batchEvents := L.Filter(kept, L.Of(L.BatchScope(batchId)));
      AreIdsNaming(ids, batchEvents, runId)
    ensures forall e :: e in kept ==> (e.id in ids <==> e.scope == L.BatchScope(batchId) && e.mentions == Some(runId))
  {
    hide L.Filter, NotOfRun, L.Of;
    L.FilterMembers(log.events, NotOfRun(runId));
    var batchEvents := L.Filter(kept, L.Of(L.BatchScope(batchId)));
    L.FilterMembers(kept, L.Of(L.BatchScope(batchId)));
    forall e ensures L.Of(L.BatchScope(batchId))(e) <==> e.scope == L.BatchScope(batchId) {
      L.OfScope(L.BatchScope(batchId), e);
    }
    forall e | e in kept ensures e.id in ids <==> e.scope == L.BatchScope(batchId) && e.mentions == Some(runId) {
      if e.id in ids {
        var i :| 0 <= i < |batchEvents| && batchEvents[i].id == e.id && batchEvents[i].mentions == Some(runId);
        assert batchEvents[i] in batchEvents;
        SameIdSameEvent(log, e, batchEvents[i]);
      }
      if e.scope == L.BatchScope(batchId) && e.mentions == Some(runId) {
        assert e in batchEvents;
        var i :| 0 <= i < |batchEvents| && batchEvents[i] == e;
      }
    }
  }

  lemma SameIdSameEvent(log: L.Log, e: L.Event, f: L.Event)
    requires L.Numbered(log) && e in log.events && f in log.events && e.id == f.id
    ensures e == f
  {
    var i :| 0 <= i < |log.events| && log.events[i] == e;
    var j :| 0 <= j < |log.events| && log.events[j] == f;
    assert i == j;
  }

  /** The three deletions, one after the other, leave exactly the surviving events. */
  lemma DeletionInSteps(log: L.Log, runId: string, batchId: string, lastOfBatch: bool, ids: set<nat>)
    requires L.Numbered(log)
    requires var batchEvents := L.Filter(L.Filter(log.events, NotOfRun(runId)), L.Of(L.BatchScope(batchId)));
      AreIdsNaming(ids, batchEvents, runId)
    ensures var kept := L.Filter(L.Filter(log.events, NotOfRun(runId)), NotAmong(ids));
      L.Filter(log.events, L.Surviving(runId, batchId, lastOfBatch)) ==
        if lastOfBatch then L.Filter(kept, NotOfBatch(batchId)) else kept
  {
    hide L.Filter, L.Numbered;
    var first := L.Filter(log.events, NotOfRun(runId));
    NamedEventsGo(log, first, runId, batchId, ids);
    L.FilterMembers(log.events, NotOfRun(runId));
    var some := L.Surviving(runId, batchId, false);
    forall e | e in log.events ensures some(e) <==> NotOfRun(runId)(e) && NotAmong(ids)(e) {
      if NotOfRun(runId)(e) { assert e in first; }
    }
    FiltersCompose(log.events, NotOfRun(runId), NotAmong(ids), some);
    if lastOfBatch {
      var all := L.Surviving(runId, batchId, true);
      forall e | e in log.events ensures all(e) <==> some(e) && NotOfBatch(batchId)(e) {
      }
      FiltersCompose(log.events, some, NotOfBatch(batchId), all);
    }
  }
}

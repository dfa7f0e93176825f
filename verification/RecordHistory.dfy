/**
 What a run record says about the calls that made it: each field of its payload is that of the last write to
 it, the columns are those of its creation, and no two runs share a slot of a batch.
 */
module RecordHistory {
  import opened Wrappers
  import opened RunRecords

  // ---------------------------------------------------------------- values and digests

  /** A value counts as not given exactly if it is null, false, zero, or an empty text, list or object. */
  lemma FalsyExactly(v: Value)
    ensures !Truthy(v) <==>
      v == Null || v == Flag(false) || v == Number(0) || v == Text("") || v == Items([]) || v == Object(map[])
  {
  }

  ghost predicate SameDigested(p: Payload, q: Payload) {
    forall f :: f != RecordDigest && f != ExportedAt && f != UpdatedAt ==> (f in p <==> f in q) && Get(p, f) == Get(q, f)
  }

  /** Two payloads have one digest exactly if they differ at most in their digest, export time and update time. */
  lemma SameDigestExactly(p: Payload, q: Payload)
    ensures DigestOfRecord(p) == DigestOfRecord(q) <==> SameDigested(p, q)
  {
    var a, b := p - UNDIGESTED, q - UNDIGESTED;
    if SameDigested(p, q) {
      forall f | f in a || f in b ensures f in a && f in b && a[f] == b[f] {
        assert Get(p, f) == Get(q, f);
      }
      assert a == b;
    }
    if a == b {
      forall f | f != RecordDigest && f != ExportedAt && f != UpdatedAt ensures (f in p <==> f in q) && Get(p, f) == Get(q, f) {
        assert (f in a <==> f in p) && (f in b <==> f in q);
      }
    }
  }

  // ---------------------------------------------------------------- one call

  /** Every status but queued, running and such as no run is given is final. */
  lemma OnlyLiveStatusesGoOn(s: RunStatus)
    ensures IsTerminal(s) <==> !s.Queued? && !s.Running? && !s.OtherStatus?
  {
  }

  // The columns a run has from its creation.
  predicate SameIdentity(row: Row, other: Row) {
    && other.runId == row.runId && other.batchId == row.batchId && other.createdAt == row.createdAt
    && other.seed == row.seed && other.attempt == row.attempt
  }

  ghost predicate OthersStay(runs: Runs, after: Runs, id: string) {
    forall other :: other != id ==> (other in after <==> other in runs) && (other in runs ==> after[other] == runs[other])
  }

  /**
   A progress update gives a live run its status and every field it names, the last word being the update's;
   all other fields, columns and runs stay, and the instance id follows a given one.
   */
  lemma ProgressMerges(runs: Runs, id: string, status: RunStatus, updates: Payload, now: string)
    ensures var r := UpdateProgress(runs, id, status, updates, now);
      && (r.Done? <==> id in runs && !IsTerminal(runs[id].status))
      && (r.KeyError? <==> id !in runs)
      && (r.Done? ==>
            && id in r.value && OthersStay(runs, r.value, id) && Merged(runs[id], r.value[id], updates)
            && r.value[id].status == status && r.value[id].updatedAt == now)
  {
    hide IsTerminal;
  }

  ghost predicate Merged(row: Row, after: Row, updates: Payload) {
    && (forall f :: f in updates ==> Get(after.payload, f) == updates[f])
    && (forall f :: f !in updates ==> Get(after.payload, f) == Get(row.payload, f))
    && (InstanceId in updates && updates[InstanceId] != Null ==> after.instanceId == updates[InstanceId])
    && (InstanceId !in updates || updates[InstanceId] == Null ==> after.instanceId == row.instanceId)
    && SameIdentity(row, after) && after.digest == row.digest
  }

  /** Finishing gives the row its status and digest; the instance id follows that of the payload. */
  lemma FinishingMoves(runs: Runs, id: string, status: RunStatus, result: Payload, artifact: Option<Artifact>, now: string)
    ensures var r := FinalizeRun(runs, id, status, result, artifact, now);
      r.Done? ==>
        && id in runs && id in r.value && OthersStay(runs, r.value, id) && SameIdentity(runs[id], r.value[id])
        && r.value[id].status == status && r.value[id].updatedAt == now
        && r.value[id].instanceId ==
             (var given := if InstanceId in result then result[InstanceId] else Get(runs[id].payload, InstanceId);
              if given != Null then given else runs[id].instanceId)
  {
    hide IsTerminal, DigestOfRecord, Sealed;
    if id in runs {
      hide FinishedRow;
      FinishedInstance(runs[id], status, result, artifact, now);
    }
  }

  lemma FinishedInstance(row: Row, status: RunStatus, result: Payload, artifact: Option<Artifact>, now: string)
    ensures var given := if InstanceId in result then result[InstanceId] else Get(row.payload, InstanceId);
      var done := FinishedRow(row, status, result, artifact, now);
      && done.instanceId == (if given != Null then given else row.instanceId)
      && SameIdentity(row, done) && done.status == status && done.updatedAt == now
  {
    hide DigestOfRecord, Sealed;
  }

  // An interrupted run: its status, end and error category are the store's own, all else stays.
  lemma InterruptedKeeps(row: Row, now: string, f: Field)
    ensures var after := InterruptedRow(row, now);
      if row.status == Queued || row.status == Running then
        && after.status == Interrupted && after.updatedAt == now && SameIdentity(row, after)
        && after.instanceId == row.instanceId
        && (f == StatusField ==> Get(after.payload, f) == StatusName(Interrupted))
        && (f == EndedAt ==> Get(after.payload, f) == Text(now))
        && (f == ErrorCategory ==> Get(after.payload, f) == Text("api_restart"))
        && (f != StatusField && f != EndedAt && f != ErrorCategory && f != RecordDigest ==>
              Get(after.payload, f) == Get(row.payload, f))
      else after == row
  {
    hide DigestOfRecord, Sealed;
    SealingIsIgnored(InterruptedPayload(row.payload, now));
  }

  // What the store returns: the columns over the payload.
  lemma GetRunShows(row: Row, f: Field)
    ensures var p := GetRun(row);
      && Get(p, RunId) == Text(row.runId) && Get(p, BatchId) == Text(row.batchId)
      && Get(p, StatusField) == StatusName(row.status)
      && Get(p, CreatedAt) == Text(row.createdAt) && Get(p, UpdatedAt) == Text(row.updatedAt)
      && (f != RunId && f != BatchId && f != StatusField && f != CreatedAt && f != UpdatedAt ==> Get(p, f) == Get(row.payload, f))
  {
  }

  // ---------------------------------------------------------------- the last write of a field

  function Given(row: Row, result: Payload, f: Field): Value {
    if f in result then result[f] else Get(row.payload, f)
  }

  // The summary of a run that has no artifact: what was given, marked as not captured.
  function Uncaptured(given: Value): Value {
    Object((if given.Object? then given.fields
            else map[OtherField("changed_paths") := Items([]), OtherField("file_count") := Number(0)])[Retention := Object(map[
      OtherField("captured") := Flag(false), OtherField("artifact_digest") := Null, OtherField("stored_bytes") := Number(0),
      OtherField("redaction_count") := Number(0), OtherField("truncated") := Flag(false)])])
  }

  // What a call writes into a field of a run, if it does: creating writes them all.
  function Writes(runs: Runs, op: Op, id: string, f: Field): Option<Value> {
    match op
    case Create(run, batch, seed, attempt, payload, now) =>
      if run != id || id in runs || SlotTaken(runs, batch, seed, attempt) then None
      else if f == RunId then Some(Text(id))
      else if f == BatchId then Some(Text(batch))
      else if f == CreatedAt then Some(Text(now))
      else Some(Get(payload, f))
    case Progress(run, _, updates, _) =>
      if run == id && id in runs && !IsTerminal(runs[id].status) && f in updates then Some(updates[f]) else None
    case Finish(run, status, result, artifact, now) =>
      if run != id || id !in runs || IsTerminal(runs[id].status) || !IsTerminal(status) then None
      else if artifact.Some? && !artifact.value.digestIsRight then None
      else if f == StatusField then Some(StatusName(status))
      else if f == EndedAt then Some(if Truthy(Given(runs[id], result, f)) then Given(runs[id], result, f) else Text(now))
      else if f == DiffSummary then
        Some(if artifact.Some? then artifact.value.summary else Uncaptured(Given(runs[id], result, f)))
      else if f in result then Some(result[f])
      else None
    case InterruptActive(now) =>
      if id !in runs || !(runs[id].status == Queued || runs[id].status == Running) then None
      else if f == StatusField then Some(StatusName(Interrupted))
      else if f == EndedAt then Some(Text(now))
      else if f == ErrorCategory then Some(Text("api_restart"))
      else None
    case Delete(_) => None
  }

  lemma FinishWrites(runs: Runs, op: Op, id: string, f: Field)
    requires op.Finish? && f != RecordDigest && id in Step(runs, op)
    ensures Writes(runs, op, id, f) == None ==> id in runs
    ensures Get(Step(runs, op)[id].payload, f) ==
      if Writes(runs, op, id, f).Some? then Writes(runs, op, id, f).value else Get(runs[id].payload, f)
  {
    hide DigestOfRecord, Sealed, IsTerminal, Truthy, FinishedPayload, Uncaptured;
    if op.runId == id && id in runs {
      SealingIsIgnored(FinishedPayload(runs[id].payload, op.status, op.result, op.artifact, op.now));
      FinishedField(runs[id].payload, op.status, op.result, op.artifact, op.now, f);
    }
  }

  lemma FinishedField(p: Payload, status: RunStatus, result: Payload, artifact: Option<Artifact>, now: string, f: Field)
    ensures var given := if f in result then result[f] else Get(p, f);
      Get(FinishedPayload(p, status, result, artifact, now), f) ==
        if f == StatusField then StatusName(status)
        else if f == EndedAt then (if Truthy(given) then given else Text(now))
        else if f == DiffSummary then (if artifact.Some? then artifact.value.summary else Uncaptured(given))
        else given
  {
    hide Truthy, WithoutArtifact;
    var merged := p + result;
    var summarised := if artifact.Some? then merged[DiffSummary := artifact.value.summary] else WithoutArtifact(merged);
    SummaryOnly(merged, f);
    if f == EndedAt {
      NothingIsFalsy();
      assert Get(summarised[StatusField := StatusName(status)], f) == Get(merged, f);
    }
  }

  lemma NothingIsFalsy()
    ensures !Truthy(Null)
  {
  }

  lemma SummaryOnly(p: Payload, f: Field)
    ensures Get(WithoutArtifact(p), f) == if f == DiffSummary then Uncaptured(Get(p, f)) else Get(p, f)
  {
    assert NOT_CAPTURED == Object(map[
      OtherField("captured") := Flag(false), OtherField("artifact_digest") := Null, OtherField("stored_bytes") := Number(0),
      OtherField("redaction_count") := Number(0), OtherField("truncated") := Flag(false)]);
    assert NO_SUMMARY == map[OtherField("changed_paths") := Items([]), OtherField("file_count") := Number(0)];
  }

  lemma CallWrites(runs: Runs, op: Op, id: string, f: Field)
    requires f != RecordDigest && id in Step(runs, op)
    ensures Writes(runs, op, id, f) == None ==> id in runs
    ensures Get(Step(runs, op)[id].payload, f) ==
      if Writes(runs, op, id, f).Some? then Writes(runs, op, id, f).value else Get(runs[id].payload, f)
  {
    hide DigestOfRecord, Sealed, IsTerminal, FinishedRow, SlotTaken, Truthy;
    match op
    case Create(_, _, _, _, _, _) =>
    case Progress(_, _, _, _) =>
    case Finish(_, _, _, _, _) => FinishWrites(runs, op, id, f);
    case InterruptActive(now) =>
      hide InterruptedRow;
      InterruptedKeeps(runs[id], now, f);
    case Delete(_) =>
  }

  predicate WritesAt(runs: Runs, ops: seq<Op>, i: nat, id: string, f: Field) {
    i < |ops| && Writes(RunAll(runs, ops[..i]), ops[i], id, f).Some?
  }

  ghost predicate IsLastWrite(runs: Runs, ops: seq<Op>, i: nat, id: string, f: Field) {
    WritesAt(runs, ops, i, id, f) && forall k :: i < k < |ops| ==> !WritesAt(runs, ops, k, id, f)
  }

  lemma LastUnwritten(runs: Runs, ops: seq<Op>, i: nat, id: string, f: Field)
    requires IsLastWrite(runs, ops, i, id, f) && i < |ops| - 1
    ensures IsLastWrite(runs, ops[..|ops| - 1], i, id, f)
    ensures Writes(RunAll(runs, ops[..|ops| - 1]), ops[|ops| - 1], id, f) == None
  {
    hide Writes, RunAll;
    var front := ops[..|ops| - 1];
    forall k | i <= k < |front| ensures WritesAt(runs, front, k, id, f) <==> WritesAt(runs, ops, k, id, f) {
      assert front[..k] == ops[..k];
    }
    assert !WritesAt(runs, ops, |ops| - 1, id, f);
  }

  /**
   The last write of a field stands: whatever the calls, the payload of a run holds in each field what the last
   call that wrote there gave. A finished record therefore holds the last progress of every field its result
   does not name. The digest field alone is left to the seals.
   */
  lemma {:induction false} LastWriteStands(runs: Runs, ops: seq<Op>, i: nat, id: string, f: Field)
    requires f != RecordDigest && id in RunAll(runs, ops) && IsLastWrite(runs, ops, i, id, f)
    ensures i < |ops| && Some(Get(RunAll(runs, ops)[id].payload, f)) == Writes(RunAll(runs, ops[..i]), ops[i], id, f)
    decreases |ops|
  {
    hide Step, Writes, Get;
    var n := |ops| - 1;
    CallWrites(RunAll(runs, ops[..n]), ops[n], id, f);
    if i < n {
      LastUnwritten(runs, ops, i, id, f);
      LastWriteStands(runs, ops[..n], i, id, f);
      assert ops[..n][..i] == ops[..i];
    }
  }

  /** A field that no call wrote into is as it was, in a run that was there. */
  lemma {:induction false} UnwrittenStands(runs: Runs, ops: seq<Op>, id: string, f: Field)
    requires f != RecordDigest && id in RunAll(runs, ops) && forall i :: 0 <= i < |ops| ==> !WritesAt(runs, ops, i, id, f)
    ensures id in runs && Get(RunAll(runs, ops)[id].payload, f) == Get(runs[id].payload, f)
    decreases |ops|
  {
    hide Step, Writes, Get;
    if ops != [] {
      var n := |ops| - 1;
      var front := ops[..n];
      assert !WritesAt(runs, ops, n, id, f);
      CallWrites(RunAll(runs, front), ops[n], id, f);
      forall k | 0 <= k < n ensures !WritesAt(runs, front, k, id, f) {
        assert front[..k] == ops[..k] && !WritesAt(runs, ops, k, id, f);
      }
      UnwrittenStands(runs, front, id, f);
    }
  }

  // ---------------------------------------------------------------- columns and slots

  // Call i creates the run.
  predicate CreatesAt(ops: seq<Op>, i: nat, id: string) {
    && i < |ops| && ops[i].Create? && ops[i].runId == id && id !in RunAll(map[], ops[..i])
    && !SlotTaken(RunAll(map[], ops[..i]), ops[i].batchId, ops[i].seed, ops[i].attempt)
  }

  lemma StepKeepsIdentity(runs: Runs, op: Op, id: string)
    requires id in runs && id in Step(runs, op)
    ensures SameIdentity(runs[id], Step(runs, op)[id])
  {
    hide DigestOfRecord, Sealed, IsTerminal, FinishedRow, SlotTaken, InterruptedRow;
    match op
    case Finish(_, status, result, artifact, now) => FinishedInstance(runs[id], status, result, artifact, now);
    case InterruptActive(now) => InterruptedKeeps(runs[id], now, RunId);
    case _ =>
  }

  lemma OnlyCreationAdds(runs: Runs, op: Op, id: string)
    requires id !in runs && id in Step(runs, op)
    ensures op.Create? && op.runId == id && !SlotTaken(runs, op.batchId, op.seed, op.attempt)
    ensures var row := Step(runs, op)[id];
      && row.runId == id && row.batchId == op.batchId && row.seed == op.seed && row.attempt == op.attempt
      && row.createdAt == row.updatedAt == op.now && row.status == Queued && row.instanceId == Null && row.digest == None
  {
    hide DigestOfRecord, Sealed, IsTerminal, FinishedRow, SlotTaken, InterruptedRow;
  }

  /** The run, batch, seed, attempt and creation time of a record are those of the call that created it. */
  lemma {:induction false} ColumnsAreOfCreation(ops: seq<Op>, id: string) returns (i: nat)
    requires id in RunAll(map[], ops)
    ensures CreatesAt(ops, i, id)
    ensures var row := RunAll(map[], ops)[id];
      && row.runId == id && row.batchId == ops[i].batchId && row.seed == ops[i].seed && row.attempt == ops[i].attempt
      && row.createdAt == ops[i].now
    decreases |ops|
  {
    hide Step, SlotTaken;
    var n := |ops| - 1;
    var front := ops[..n];
    if id in RunAll(map[], front) {
      i := ColumnsAreOfCreation(front, id);
      assert front[..i] == ops[..i];
      StepKeepsIdentity(RunAll(map[], front), ops[n], id);
    } else {
      i := n;
      OnlyCreationAdds(RunAll(map[], front), ops[n], id);
    }
  }

  predicate SameSlot(row: Row, other: Row) {
    row.batchId == other.batchId && row.seed == other.seed && row.attempt == other.attempt
  }

  ghost predicate SlotsDiffer(runs: Runs) {
    forall id, other :: id in runs && other in runs && id != other ==> !SameSlot(runs[id], runs[other])
  }

  /** After any calls no two runs have the same batch, seed and attempt. */
  lemma {:induction false} NoSlotTwice(ops: seq<Op>)
    ensures SlotsDiffer(RunAll(map[], ops))
  {
    hide Step;
    if ops != [] {
      var before, op := RunAll(map[], ops[..|ops| - 1]), ops[|ops| - 1];
      NoSlotTwice(ops[..|ops| - 1]);
      var after := Step(before, op);
      forall id | id in after && id in before ensures SameSlot(before[id], after[id]) {
        StepKeepsIdentity(before, op, id);
      }
      forall id, other | id in after && other in after && id != other ensures !SameSlot(after[id], after[other]) {
        if id !in before { OnlyCreationAdds(before, op, id); }
        if other !in before { OnlyCreationAdds(before, op, other); }
        assert !(id !in before && other !in before);
      }
    }
  }

  /** A run is gone exactly when it was deleted, which only a terminal one can be. */
  lemma DeletionIsExact(runs: Runs, id: string, op: Op)
    requires id in runs
    ensures id !in Step(runs, op) <==> op == Delete(id) && IsTerminal(runs[id].status)
  {
    hide DigestOfRecord, Sealed, FinishedRow, SlotTaken, InterruptedRow, IsTerminal;
  }
}

/**
 Run records: what each store operation does to the table of runs, why a terminal record never changes,
 and when recomputing the digest of what the store returns gives the stored digest.

 The digest is symbolic: it is equal for two payloads exactly when the digested fields are. Canonical
 JSON is read back as it was written, so a payload is stored as itself. The clock is a parameter.
 */
module RunRecords {
  import opened Wrappers

  datatype RunStatus = Queued | Running | Completed | Failed | Cancelled | Interrupted | OtherStatus(name: string)

  datatype Field =
    | RunId | BatchId | CreatedAt | UpdatedAt | StatusField | EndedAt | ErrorCategory | InstanceId
    | RecordDigest | ExportedAt | DiffSummary | Retention | OtherField(name: string)

  type Payload = map<Field, Value>

  datatype Value =
    | Null
    | Flag(b: bool)
    | Number(n: int)
    | Text(s: string)
    | StatusName(status: RunStatus)
    | Items(items: seq<Value>)
    | Object(fields: map<Field, Value>)
    | DigestOf(digested: map<Field, Value>)

  datatype Row = Row(
    runId: string, batchId: string, createdAt: string, updatedAt: string, status: RunStatus,
    seed: int, attempt: int, instanceId: Value, payload: Payload, digest: Option<Value>)

  type Runs = map<string, Row>

  // A candidate artifact offered with a result: whether its digest is right, and its summary.
  datatype Artifact = Artifact(digestIsRight: bool, summary: Value)

  datatype Result<+T> = Done(value: T) | KeyError | ImmutableRecord | ValueError | IntegrityError | ActiveRun

  datatype Op =
    | Create(runId: string, batchId: string, seed: int, attempt: int, payload: Payload, now: string)
    | Progress(runId: string, status: RunStatus, updates: Payload, now: string)
    | Finish(runId: string, status: RunStatus, result: Payload, artifact: Option<Artifact>, now: string)
    | InterruptActive(now: string)
    | Delete(runId: string)

  const UNDIGESTED: set<Field> := {RecordDigest, ExportedAt, UpdatedAt}

  const NOT_CAPTURED := Object(map[
    OtherField("captured") := Flag(false), OtherField("artifact_digest") := Null, OtherField("stored_bytes") := Number(0),
    OtherField("redaction_count") := Number(0), OtherField("truncated") := Flag(false)])

  const NO_SUMMARY: Payload := map[OtherField("changed_paths") := Items([]), OtherField("file_count") := Number(0)]

  predicate IsTerminal(s: RunStatus) {
    s == Completed || s == Failed || s == Cancelled || s == Interrupted
  }

  // ---------------------------------------------------------------- payloads

  function DigestOfRecord(p: Payload): Value {
    DigestOf(p - UNDIGESTED)
  }

  function Get(p: Payload, f: Field): Value {
    if f in p then p[f] else Null
  }

  predicate Truthy(v: Value) {
    match v
    case Null => false
    case Flag(b) => b
    case Number(n) => n != 0
    case Text(s) => s != ""
    case Items(items) => items != []
    case Object(fields) => fields != map[]
    case _ => true
  }

  function WithoutArtifact(p: Payload): Payload {
    var summary := Get(p, DiffSummary);
    var fields := if summary.Object? then summary.fields else NO_SUMMARY;
    p[DiffSummary := Object(fields[Retention := NOT_CAPTURED])]
  }

  function Sealed(p: Payload): Payload {
    p[RecordDigest := DigestOfRecord(p)]
  }

  // The payload of a finished run, before its digest is put in.
  function FinishedPayload(p: Payload, status: RunStatus, result: Payload, artifact: Option<Artifact>, now: string): Payload {
    var merged := p + result;
    var summarised := if artifact.Some? then merged[DiffSummary := artifact.value.summary] else WithoutArtifact(merged);
    var named := summarised[StatusField := StatusName(status)];
    named[EndedAt := if Truthy(Get(named, EndedAt)) then named[EndedAt] else Text(now)]
  }

  function InterruptedPayload(p: Payload, now: string): Payload {
    p[StatusField := StatusName(Interrupted)][EndedAt := Text(now)][ErrorCategory := Text("api_restart")]
  }

  // ---------------------------------------------------------------- operations

  predicate SlotTaken(runs: Runs, batchId: string, seed: int, attempt: int) {
    exists id :: id in runs && runs[id].batchId == batchId && runs[id].seed == seed && runs[id].attempt == attempt
  }

  function CreateRun(runs: Runs, runId: string, batchId: string, seed: int, attempt: int, payload: Payload, now: string)
    : Result<Runs>
  {
    if runId in runs || SlotTaken(runs, batchId, seed, attempt) then IntegrityError
    else
      var stored := payload[RunId := Text(runId)][BatchId := Text(batchId)][CreatedAt := Text(now)];
      Done(runs[runId := Row(runId, batchId, now, now, Queued, seed, attempt, Null, stored, None)])
  }

  function Kept(current: Value, offered: Value): Value {
    if offered == Null then current else offered
  }

  function UpdateProgress(runs: Runs, runId: string, status: RunStatus, updates: Payload, now: string): Result<Runs> {
    if runId !in runs then KeyError
    else if IsTerminal(runs[runId].status) then ImmutableRecord
    else
      var row := runs[runId];
      Done(runs[runId := row.(status := status, updatedAt := now, payload := row.payload + updates,
                              instanceId := Kept(row.instanceId, Get(updates, InstanceId)))])
  }

  function FinishedRow(row: Row, status: RunStatus, result: Payload, artifact: Option<Artifact>, now: string): Row {
    var payload := FinishedPayload(row.payload, status, result, artifact, now);
    row.(status := status, updatedAt := now, payload := Sealed(payload), digest := Some(DigestOfRecord(payload)),
         instanceId := Kept(row.instanceId, Get(payload, InstanceId)))
  }

  function FinalizeRun(runs: Runs, runId: string, status: RunStatus, result: Payload, artifact: Option<Artifact>, now: string)
    : Result<Runs>
  {
    if !IsTerminal(status) then ValueError
    else if runId !in runs then KeyError
    else if IsTerminal(runs[runId].status) then ImmutableRecord
    else if artifact.Some? && !artifact.value.digestIsRight then ValueError
    else Done(runs[runId := FinishedRow(runs[runId], status, result, artifact, now)])
  }

  function InterruptedRow(row: Row, now: string): Row {
    if row.status == Queued || row.status == Running then
      var payload := InterruptedPayload(row.payload, now);
      row.(status := Interrupted, updatedAt := now, payload := Sealed(payload), digest := Some(DigestOfRecord(payload)))
    else row
  }

  function MarkInterrupted(runs: Runs, now: string): Runs {
    map id | id in runs :: InterruptedRow(runs[id], now)
  }

  function DeleteRun(runs: Runs, runId: string): Result<Runs> {
    if runId !in runs then KeyError
    else if !IsTerminal(runs[runId].status) then ActiveRun
    else Done(runs - {runId})
  }

  // What the store returns for a run: the payload under the columns of its row.
  function GetRun(row: Row): Payload {
    row.payload[RunId := Text(row.runId)][BatchId := Text(row.batchId)][StatusField := StatusName(row.status)]
      [CreatedAt := Text(row.createdAt)][UpdatedAt := Text(row.updatedAt)]
  }

  function Settled(r: Result<Runs>, otherwise: Runs): Runs {
    if r.Done? then r.value else otherwise
  }

  function Step(runs: Runs, op: Op): Runs {
    match op
    case Create(id, batch, seed, attempt, payload, now) => Settled(CreateRun(runs, id, batch, seed, attempt, payload, now), runs)
    case Progress(id, status, updates, now) => Settled(UpdateProgress(runs, id, status, updates, now), runs)
    case Finish(id, status, result, artifact, now) => Settled(FinalizeRun(runs, id, status, result, artifact, now), runs)
    case InterruptActive(now) => MarkInterrupted(runs, now)
    case Delete(id) => Settled(DeleteRun(runs, id), runs)
  }

  function RunAll(runs: Runs, ops: seq<Op>): Runs {
    if ops == [] then runs else Step(RunAll(runs, ops[..|ops| - 1]), ops[|ops| - 1])
  }

  // ---------------------------------------------------------------- terminal records are immutable

  lemma TerminalRowStaysOnce(runs: Runs, id: string, op: Op)
    requires id in runs && IsTerminal(runs[id].status) && op != Delete(id)
    ensures id in Step(runs, op) && Step(runs, op)[id] == runs[id]
  {
    hide CreateRun, FinishedRow;
    match op
    case Create(other, batch, seed, attempt, payload, now) => CreateKeepsOthers(runs, op);
    case _ =>
  }

  lemma CreateKeepsOthers(runs: Runs, op: Op)
    requires op.Create?
    ensures forall id :: id in runs ==> id in Step(runs, op) && Step(runs, op)[id] == runs[id]
  {
  }

  /** Whatever the store is asked to do, a terminal record stays exactly as it is until it is deleted. */
  lemma {:induction false} TerminalRowStays(runs: Runs, id: string, ops: seq<Op>)
    requires id in runs && IsTerminal(runs[id].status)
    requires forall i :: 0 <= i < |ops| ==> ops[i] != Delete(id)
    ensures id in RunAll(runs, ops) && RunAll(runs, ops)[id] == runs[id]
  {
    hide Step;
    if ops != [] {
      TerminalRowStays(runs, id, ops[..|ops| - 1]);
      TerminalRowStaysOnce(RunAll(runs, ops[..|ops| - 1]), id, ops[|ops| - 1]);
    }
  }

  // ---------------------------------------------------------------- digests

  // The columns that `get_run` puts over digested payload fields, besides the status.
  predicate Agrees(row: Row) {
    && Get(row.payload, RunId) == Text(row.runId)
    && Get(row.payload, BatchId) == Text(row.batchId)
    && Get(row.payload, CreatedAt) == Text(row.createdAt)
  }

  // A digest is there only on a terminal record, and is that of the stored payload.
  ghost predicate SealedRow(row: Row) {
    row.digest.Some? ==>
      && IsTerminal(row.status)
      && row.digest.value == DigestOfRecord(row.payload) == Get(row.payload, RecordDigest)
      && Get(row.payload, StatusField) == StatusName(row.status)
  }

  ghost predicate SealedRuns(runs: Runs) {
    forall id :: id in runs ==> runs[id].runId == id && SealedRow(runs[id])
  }

  lemma SealingIsIgnored(p: Payload)
    ensures DigestOfRecord(Sealed(p)) == DigestOfRecord(p)
    ensures Get(Sealed(p), RecordDigest) == DigestOfRecord(p)
    ensures forall f :: f != RecordDigest ==> Get(Sealed(p), f) == Get(p, f)
  {
    assert Sealed(p) - UNDIGESTED == p - UNDIGESTED;
  }

  lemma FinishedRowIsSealed(row: Row, status: RunStatus, result: Payload, artifact: Option<Artifact>, now: string)
    requires IsTerminal(status)
    ensures SealedRow(FinishedRow(row, status, result, artifact, now))
  {
    hide DigestOfRecord, Sealed, WithoutArtifact;
    SealingIsIgnored(FinishedPayload(row.payload, status, result, artifact, now));
  }

  lemma InterruptedRowIsSealed(row: Row, now: string)
    requires SealedRow(row)
    ensures SealedRow(InterruptedRow(row, now)) && InterruptedRow(row, now).runId == row.runId
  {
    hide DigestOfRecord, Sealed;
    SealingIsIgnored(InterruptedPayload(row.payload, now));
  }

  lemma ProgressKeepsSeals(runs: Runs, op: Op)
    requires SealedRuns(runs) && op.Progress?
    ensures SealedRuns(Step(runs, op))
  {
    hide DigestOfRecord;
    forall id | id in Step(runs, op) ensures Step(runs, op)[id].runId == id && SealedRow(Step(runs, op)[id]) {
      assert id in runs && SealedRow(runs[id]);
    }
  }

  lemma StepKeepsSeals(runs: Runs, op: Op)
    requires SealedRuns(runs)
    ensures SealedRuns(Step(runs, op))
  {
    hide DigestOfRecord, Sealed, FinishedPayload, InterruptedPayload, SealedRow, InterruptedRow;
    match op
    case Create(id, _, _, _, _, _) =>
      var r := Step(runs, op);
      if r != runs { assert SealedRow(r[id]) by { NewRowIsSealed(r[id]); } }
    case Progress(_, _, _, _) => ProgressKeepsSeals(runs, op);
    case Finish(id, status, result, artifact, now) =>
      if id in runs && IsTerminal(status) { FinishedRowIsSealed(runs[id], status, result, artifact, now); }
    case InterruptActive(now) =>
      forall id | id in runs ensures SealedRow(InterruptedRow(runs[id], now)) && InterruptedRow(runs[id], now).runId == id {
        InterruptedRowIsSealed(runs[id], now);
      }
    case Delete(_) =>
  }

  lemma NewRowIsSealed(row: Row)
    requires row.digest.None?
    ensures SealedRow(row)
  {
  }

  lemma {:induction false} RunKeepsSeals(ops: seq<Op>)
    ensures SealedRuns(RunAll(map[], ops))
  {
    hide Step;
    if ops != [] {
      RunKeepsSeals(ops[..|ops| - 1]);
      StepKeepsSeals(RunAll(map[], ops[..|ops| - 1]), ops[|ops| - 1]);
    }
  }

  /**
   On a sealed record, recomputing the digest of what the store returns gives the stored digest exactly
   if the stored payload names the run, batch and creation time of its row.
   */
  lemma RecomputedExactly(row: Row)
    requires SealedRow(row) && row.digest.Some?
    ensures DigestOfRecord(GetRun(row)) == row.digest.value <==> Agrees(row)
  {
    hide IsTerminal;
    var p, q := GetRun(row), row.payload;
    assert q[StatusField] == StatusName(row.status);
    var kept := p - UNDIGESTED;
    assert RunId in kept && BatchId in kept && CreatedAt in kept;
    assert kept[RunId] == p[RunId] && kept[BatchId] == p[BatchId] && kept[CreatedAt] == p[CreatedAt];
    if Agrees(row) {
      assert kept == q - UNDIGESTED;
    }
  }

  // What a caller can check of a payload beforehand: it does not rename the run, batch or creation time.
  predicate Honest(result: Payload, row: Row) {
    && (RunId in result ==> result[RunId] == Text(row.runId))
    && (BatchId in result ==> result[BatchId] == Text(row.batchId))
    && (CreatedAt in result ==> result[CreatedAt] == Text(row.createdAt))
  }

  lemma FinishingAgrees(row: Row, status: RunStatus, result: Payload, artifact: Option<Artifact>, now: string)
    requires Agrees(row)
    ensures Agrees(FinishedRow(row, status, result, artifact, now)) <==> Honest(result, row)
  {
    hide DigestOfRecord, Sealed;
    SealingIsIgnored(FinishedPayload(row.payload, status, result, artifact, now));
  }

  /**
   For a run whose payload agrees with its row, finishing it leaves a record whose digest can be
   recomputed exactly if the result payload gives no other run, batch or creation time.
   */
  lemma FinishedExactly(row: Row, status: RunStatus, result: Payload, artifact: Option<Artifact>, now: string)
    requires Agrees(row) && IsTerminal(status)
    ensures var done := FinishedRow(row, status, result, artifact, now);
      && done.digest.Some?
      && (DigestOfRecord(GetRun(done)) == done.digest.value <==> Honest(result, row))
  {
    hide SealedRow, Agrees, DigestOfRecord, GetRun;
    var done := FinishedRow(row, status, result, artifact, now);
    FinishedRowIsSealed(row, status, result, artifact, now);
    FinishingAgrees(row, status, result, artifact, now);
    RecomputedExactly(done);
  }

  /**
   What a finished record says: every field the result gives, every other field as it was, and beside the
   digest only the artifact summary, the status and, where none was given, the end are the store's own.
   */
  lemma FinishedKeepsResult(row: Row, status: RunStatus, result: Payload, artifact: Option<Artifact>, now: string, f: Field)
    ensures var p := FinishedRow(row, status, result, artifact, now).payload;
      var given := if f in result then result[f] else Get(row.payload, f);
      && (f != DiffSummary && f != StatusField && f != EndedAt && f != RecordDigest ==> Get(p, f) == given)
      && (f == StatusField ==> Get(p, f) == StatusName(status))
      && (f == EndedAt ==> Get(p, f) == if Truthy(given) then given else Text(now))
  {
    hide DigestOfRecord, Sealed;
    SealingIsIgnored(FinishedPayload(row.payload, status, result, artifact, now));
  }

  // No payload of the operation names the run, the batch or the creation time.
  predicate LeavesIdentity(op: Op) {
    match op
    case Progress(_, _, updates, _) => RunId !in updates && BatchId !in updates && CreatedAt !in updates
    case Finish(_, _, result, _, _) => RunId !in result && BatchId !in result && CreatedAt !in result
    case _ => true
  }

  ghost predicate AllAgree(runs: Runs) {
    forall id :: id in runs ==> Agrees(runs[id])
  }

  lemma ProgressAgrees(row: Row, status: RunStatus, updates: Payload, now: string, instanceId: Value)
    requires Agrees(row) && RunId !in updates && BatchId !in updates && CreatedAt !in updates
    ensures Agrees(row.(status := status, updatedAt := now, payload := row.payload + updates, instanceId := instanceId))
  {
  }

  lemma CreatedAgrees(row: Row, payload: Payload)
    requires row.payload == payload[RunId := Text(row.runId)][BatchId := Text(row.batchId)][CreatedAt := Text(row.createdAt)]
    ensures Agrees(row)
  {
  }

  lemma StepKeepsAgreement(runs: Runs, op: Op)
    requires AllAgree(runs) && LeavesIdentity(op)
    ensures AllAgree(Step(runs, op))
  {
    hide FinishedRow, InterruptedRow, Agrees, IsTerminal, SlotTaken, Get;
    match op
    case Create(id, _, _, _, payload, _) =>
      var r := Step(runs, op);
      if r != runs { CreatedAgrees(r[id], payload); }
    case Progress(id, status, updates, now) =>
      if id in runs { ProgressAgrees(runs[id], status, updates, now, Kept(runs[id].instanceId, Get(updates, InstanceId))); }
    case Finish(id, status, result, artifact, now) =>
      if id in runs { LeavingIsHonest(result, runs[id]); FinishingAgrees(runs[id], status, result, artifact, now); }
    case InterruptActive(now) =>
      forall id | id in runs ensures Agrees(InterruptedRow(runs[id], now)) {
        InterruptingAgrees(runs[id], now);
      }
    case Delete(_) =>
  }

  lemma LeavingIsHonest(result: Payload, row: Row)
    requires RunId !in result && BatchId !in result && CreatedAt !in result
    ensures Honest(result, row)
  {
  }

  lemma InterruptingAgrees(row: Row, now: string)
    requires Agrees(row)
    ensures Agrees(InterruptedRow(row, now))
  {
    hide DigestOfRecord, Sealed;
    SealingIsIgnored(InterruptedPayload(row.payload, now));
  }

  lemma {:induction false} RunKeepsAgreement(ops: seq<Op>)
    requires forall i :: 0 <= i < |ops| ==> LeavesIdentity(ops[i])
    ensures AllAgree(RunAll(map[], ops))
  {
    hide Step, LeavesIdentity;
    if ops != [] {
      RunKeepsAgreement(ops[..|ops| - 1]);
      StepKeepsAgreement(RunAll(map[], ops[..|ops| - 1]), ops[|ops| - 1]);
    }
  }

  /**
   After any operations whose payloads leave the identity fields alone, every record that has a digest is
   terminal, and recomputing the digest of what the store returns for it gives the stored digest.
   */
  lemma StoredDigestsRecompute(ops: seq<Op>, id: string)
    requires forall i :: 0 <= i < |ops| ==> LeavesIdentity(ops[i])
    requires id in RunAll(map[], ops) && RunAll(map[], ops)[id].digest.Some?
    ensures var row := RunAll(map[], ops)[id];
      IsTerminal(row.status) && DigestOfRecord(GetRun(row)) == row.digest.value
  {
    hide RunAll, LeavesIdentity, GetRun, DigestOfRecord;
    RunKeepsSeals(ops);
    RunKeepsAgreement(ops);
    RecomputedExactly(RunAll(map[], ops)[id]);
  }

  /** Without that, a result payload that carries a creation time of its own makes the two digests differ. */
  lemma OwnCreationTimeBreaksDigest(runs: Runs, id: string)
    requires id !in runs && !SlotTaken(runs, "b", 0, 0)
    ensures var ops := [Create(id, "b", 0, 0, map[], "monday"),
                        Finish(id, Completed, map[CreatedAt := Text("tuesday")], None, "tuesday")];
      var r := RunAll(runs, ops);
      id in r && r[id].digest.Some? && DigestOfRecord(GetRun(r[id])) != r[id].digest.value
  {
    hide FinishedRow, GetRun, DigestOfRecord, SlotTaken;
    var create := Create(id, "b", 0, 0, map[], "monday");
    var result: Payload := map[CreatedAt := Text("tuesday")];
    var finish := Finish(id, Completed, result, None, "tuesday");
    var ops := [create, finish];
    assert ops[..1] == [create] && [create][..0] == [];
    assert RunAll(runs, [create]) == Step(runs, create);
    assert RunAll(runs, ops) == Step(RunAll(runs, ops[..1]), finish);
    var row := Step(runs, create)[id];
    assert Agrees(row);
    assert "monday"[0] != "tuesday"[0];
    assert !Honest(result, row);
    FinishedExactly(row, Completed, result, None, "tuesday");
  }

  // ---------------------------------------------------------------- terminal records without a digest

  ghost predicate Undigested(runs: Runs, id: string) {
    id in runs && IsTerminal(runs[id].status) && runs[id].digest.None?
  }

  // A progress update that ends a live run.
  ghost predicate EndsByProgress(runs: Runs, id: string, op: Op) {
    && op.Progress? && op.runId == id && IsTerminal(op.status)
    && id in runs && !IsTerminal(runs[id].status)
  }

  // Operation i of the run ended the record by a progress update, and no later one deleted it.
  ghost predicate FrozenAt(ops: seq<Op>, id: string, i: nat) {
    && i < |ops| && EndsByProgress(RunAll(map[], ops[..i]), id, ops[i])
    && forall k :: i < k < |ops| ==> ops[k] != Delete(id)
  }

  lemma StepMayUndigest(runs: Runs, id: string, op: Op)
    requires SealedRuns(runs)
    ensures Undigested(Step(runs, op), id) <==> (Undigested(runs, id) && op != Delete(id)) || EndsByProgress(runs, id, op)
  {
    hide FinishedPayload, InterruptedPayload, Sealed, DigestOfRecord, SlotTaken, Kept;
    if id in runs {
      assert SealedRow(runs[id]);
    }
  }

  /**
   Which terminal records have no digest: over every run of operations, exactly those that a progress
   update to a terminal status ended and that were not deleted since.
   */
  lemma {:induction false} UndigestedExactly(ops: seq<Op>, id: string)
    ensures Undigested(RunAll(map[], ops), id) <==> exists i :: FrozenAt(ops, id, i)
  {
    hide Step, Undigested, EndsByProgress;
    if ops == [] {
      assert !Undigested(map[], id) by { NothingUndigested(id); }
    } else {
      var n := |ops| - 1;
      var front := ops[..n];
      UndigestedExactly(front, id);
      RunKeepsSeals(front);
      StepMayUndigest(RunAll(map[], front), id, ops[n]);
      forall i | 0 <= i < n ensures FrozenAt(ops, id, i) <==> FrozenAt(front, id, i) && ops[n] != Delete(id) {
        assert ops[..i] == front[..i];
      }
      assert FrozenAt(ops, id, n) <==> EndsByProgress(RunAll(map[], front), id, ops[n]);
    }
  }

  lemma NothingUndigested(id: string)
    ensures !Undigested(map[], id)
  {
  }

  // No progress update of the operations has a terminal status, as no caller in the repository gives one.
  ghost predicate ProgressIsLive(ops: seq<Op>) {
    forall i :: 0 <= i < |ops| && ops[i].Progress? ==> !IsTerminal(ops[i].status)
  }

  /** So when progress updates only report progress, a record is terminal exactly if it has a digest. */
  lemma TerminalMeansDigested(ops: seq<Op>, id: string)
    requires ProgressIsLive(ops) && id in RunAll(map[], ops)
    ensures IsTerminal(RunAll(map[], ops)[id].status) <==> RunAll(map[], ops)[id].digest.Some?
  {
    hide RunAll, IsTerminal;
    UndigestedExactly(ops, id);
    RunKeepsSeals(ops);
    assert SealedRow(RunAll(map[], ops)[id]);
  }

  /**
   And when payloads leave the identity fields alone as well, every terminal record has a digest, which is
   the one that recomputing it from what the store returns gives.
   */
  lemma EveryTerminalRecordRecomputes(ops: seq<Op>, id: string)
    requires ProgressIsLive(ops) && forall i :: 0 <= i < |ops| ==> LeavesIdentity(ops[i])
    requires id in RunAll(map[], ops) && IsTerminal(RunAll(map[], ops)[id].status)
    ensures RunAll(map[], ops)[id].digest == Some(DigestOfRecord(GetRun(RunAll(map[], ops)[id])))
  {
    hide RunAll, IsTerminal, LeavesIdentity, GetRun, DigestOfRecord, ProgressIsLive;
    TerminalMeansDigested(ops, id);
    StoredDigestsRecompute(ops, id);
  }

  /** A progress update may itself end a run; the record is then frozen for good without a digest. */
  lemma ProgressMayFreezeWithoutDigest(runs: Runs, id: string, status: RunStatus, updates: Payload, now: string, ops: seq<Op>)
    requires id in runs && !IsTerminal(runs[id].status) && runs[id].digest.None? && IsTerminal(status)
    requires forall i :: 0 <= i < |ops| ==> ops[i] != Delete(id)
    ensures var r := RunAll(Step(runs, Progress(id, status, updates, now)), ops);
      id in r && IsTerminal(r[id].status) && r[id].digest.None?
  {
    hide RunAll, IsTerminal;
    TerminalRowStays(Step(runs, Progress(id, status, updates, now)), id, ops);
  }
}

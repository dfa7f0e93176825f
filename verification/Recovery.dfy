/**
 The recovery substrate: the audit hash chain, authenticated snapshots, restoring, and the signed
 proof a restore leaves behind.

 Digests and authentication tags are symbolic terms: a hash is the constructor of its domain applied
 to what was hashed, so equal hashes have equal content and different domains never collide.
 */
module Recovery {

  datatype Value = IntValue(n: int) | TextValue(text: string) | NullValue

  type Row = seq<Value>

  datatype TableName = Journal | Cursor | Effects | Intents | EventMarks | CommandKeys

  datatype TableDoc = TableDoc(name: TableName, rows: seq<Row>)

  type Document = seq<TableDoc>

  datatype Revision = R0 | R1 | Candidate

  datatype Status = Active | Available | Placeholder

  datatype Deployment = Deployment(
    codeRoot: Digest, configRoot: Digest, configBytes: string, activatedTick: nat, status: Status)

  datatype Digest =
    | AuditGenesis
    | EntryHash(seqNo: int, actionKind: string, priorRoot: Digest, resultingRoot: Digest, actor: string, atTick: nat)
    | ServiceRoot(document: Document)
    | AuditRoot(rows: seq<AuditEntry>)
    | TreeRoot(files: seq<(string, string)>)
    | ConfigRoot(bytes: string)
    | DeploymentRoot(deployments: map<Revision, Deployment>)
    | NoRoot

  datatype AuditEntry = AuditEntry(
    seqNo: int, actionKind: string, priorRoot: Digest, resultingRoot: Digest, actor: string, entryHash: Digest, atTick: nat)

  datatype ProofFields = ProofFields(
    proofId: int, snapshotId: string, preStateRoot: Digest, postStateRoot: Digest, priorAuditRoot: Digest,
    actionKind: string, actionTick: nat, actorScope: string, auditSeq: int, auditEntryHash: Digest)

  // The two tag domains of the recovery authority.
  datatype Tag =
    | SnapshotTag(key: string, scope: string, snapshotId: string, stateRoot: Digest, payload: Document, createdTick: nat)
    | RecoveryTag(key: string, scope: string, fields: ProofFields)

  datatype Authority = Authority(key: string, scope: string, actorScope: string)

  datatype Snapshot = Snapshot(stateRoot: Digest, payload: Document, authTag: Tag, createdTick: nat)

  datatype Proof = Proof(fields: ProofFields, authTag: Tag)

  datatype Intake = Open | Paused

  type Service = map<TableName, seq<Row>>

  datatype Store = Store(
    service: Service, tick: nat, intake: Intake, snapshots: map<string, Snapshot>, proofs: seq<Proof>, audit: seq<AuditEntry>)

  datatype Result<+T> = Done(value: T) | RuntimeFailure | ValueFailure | IntegrityFailure

  const SERVICE_TABLES: seq<TableName> := [Journal, Cursor, Effects, Intents, EventMarks, CommandKeys]

  const RESTORE_KIND := "snapshot_restore"

  // A new database: the settlement stream has its cursor at 0, and no table has any other row.
  const NewTables: Service :=
    map name: TableName | name in SERVICE_TABLES :: if name == Cursor then [[TextValue("settlement"), IntValue(0)]] else []

  predicate HasTables(service: Service) {
    forall name: TableName :: name in service
  }

  lemma EveryTableListed(name: TableName)
    ensures exists i :: 0 <= i < |SERVICE_TABLES| && SERVICE_TABLES[i] == name
  {
    assert SERVICE_TABLES[0] == Journal && SERVICE_TABLES[1] == Cursor && SERVICE_TABLES[2] == Effects;
    assert SERVICE_TABLES[3] == Intents && SERVICE_TABLES[4] == EventMarks && SERVICE_TABLES[5] == CommandKeys;
  }

  lemma NewTablesAreAll()
    ensures HasTables(NewTables)
  {
    forall name: TableName ensures name in NewTables {
      EveryTableListed(name);
    }
  }

  // ---------------------------------------------------------------- documents

  function DocumentOf(service: Service): Document
    requires HasTables(service)
  {
    seq(|SERVICE_TABLES|, i requires 0 <= i < |SERVICE_TABLES| =>
      TableDoc(SERVICE_TABLES[i], service[SERVICE_TABLES[i]]))
  }

  function StateRoot(s: Store): Digest
    requires HasTables(s.service)
  {
    ServiceRoot(DocumentOf(s.service))
  }

  function Cleared(service: Service): Service {
    map name | name in service :: []
  }

  // Inserting the rows of each table that has any, in document order.
  function Insert(service: Service, document: Document): (r: Service)
    ensures HasTables(service) ==> HasTables(r)
  {
    if document == [] then service
    else
      var before := Insert(service, document[..|document| - 1]);
      var table := document[|document| - 1];
      if table.rows == [] then before
      else before[table.name := (if table.name in before then before[table.name] else []) + table.rows]
  }

  lemma {:induction false} InsertPrefix(service: Service, target: Service, n: nat)
    requires HasTables(service) && HasTables(target) && n <= |SERVICE_TABLES|
    ensures var r := Insert(Cleared(service), DocumentOf(target)[..n]);
      && HasTables(r)
      && (forall i :: 0 <= i < n ==> r[SERVICE_TABLES[i]] == target[SERVICE_TABLES[i]])
      && (forall i :: n <= i < |SERVICE_TABLES| ==> r[SERVICE_TABLES[i]] == [])
  {
    if n > 0 {
      InsertPrefix(service, target, n - 1);
      assert DocumentOf(target)[..n][..n - 1] == DocumentOf(target)[..n - 1];
    }
  }

  /** Deleting every service row and inserting a document gives back exactly the tables it was taken from. */
  lemma RebuildGivesBack(service: Service, target: Service)
    requires HasTables(service) && HasTables(target)
    ensures Insert(Cleared(service), DocumentOf(target)) == target
  {
    var n := |SERVICE_TABLES|;
    InsertPrefix(service, target, n);
    assert DocumentOf(target)[..n] == DocumentOf(target);
    var r := Insert(Cleared(service), DocumentOf(target));
    forall name: TableName ensures r[name] == target[name] {
      EveryTableListed(name);
    }
  }

  /** The document determines the tables. */
  lemma DocumentIsInjective(t: Service, u: Service)
    requires HasTables(t) && HasTables(u) && DocumentOf(t) == DocumentOf(u)
    ensures t == u
  {
    RebuildGivesBack(t, t);
    RebuildGivesBack(t, u);
  }

  // ---------------------------------------------------------------- the audit chain

  function HashOf(e: AuditEntry): Digest {
    EntryHash(e.seqNo, e.actionKind, e.priorRoot, e.resultingRoot, e.actor, e.atTick)
  }

  function Head(audit: seq<AuditEntry>): Digest {
    if audit == [] then AuditGenesis else audit[|audit| - 1].entryHash
  }

  function NextSeq(audit: seq<AuditEntry>): int {
    if audit == [] then 1 else audit[|audit| - 1].seqNo + 1
  }

  function NewEntry(audit: seq<AuditEntry>, kind: string, root: Digest, actor: string, tick: nat): AuditEntry {
    var seqNo := NextSeq(audit);
    AuditEntry(seqNo, kind, Head(audit), root, actor, EntryHash(seqNo, kind, Head(audit), root, actor, tick), tick)
  }

  function AppendAudit(s: Store, kind: string, root: Digest, actor: string, tick: nat): Store {
    s.(audit := s.audit + [NewEntry(s.audit, kind, root, actor, tick)])
  }

  predicate ChainValid(audit: seq<AuditEntry>) {
    audit == [] ||
    var front, last := audit[..|audit| - 1], audit[|audit| - 1];
    ChainValid(front) && last.priorRoot == Head(front) && last.entryHash == HashOf(last)
  }

  /** Every entry that `AppendAudit` adds extends a valid chain to a valid chain. */
  lemma AppendKeepsChain(s: Store, kind: string, root: Digest, actor: string, tick: nat)
    requires ChainValid(s.audit)
    ensures ChainValid(AppendAudit(s, kind, root, actor, tick).audit)
  {
    assert AppendAudit(s, kind, root, actor, tick).audit[..|s.audit|] == s.audit;
  }

  /** Dropping the tail of a chain goes unnoticed: what the chain protects is relative to its head. */
  lemma {:induction false} TruncationStaysValid(audit: seq<AuditEntry>, n: nat)
    requires ChainValid(audit) && n <= |audit|
    ensures ChainValid(audit[..n])
  {
    if n == |audit| {
      assert audit[..n] == audit;
    } else {
      TruncationStaysValid(audit[..|audit| - 1], n);
      assert audit[..|audit| - 1][..n] == audit[..n];
    }
  }

  /**
   Relative to the head, nothing can change: two valid chains with the same head hash are equal row by
   row. Going backwards, each hash fixes its entry and the hash before it, and the genesis value, which
   is in a domain of its own, ends both chains at once.
   */
  lemma {:induction false} SameHeadSameChain(a: seq<AuditEntry>, b: seq<AuditEntry>)
    requires ChainValid(a) && ChainValid(b) && Head(a) == Head(b)
    ensures a == b
    decreases |a|
  {
    if a != [] && b != [] {
      SameHeadSameChain(a[..|a| - 1], b[..|b| - 1]);
      assert a == a[..|a| - 1] + [a[|a| - 1]] && b == b[..|b| - 1] + [b[|b| - 1]];
    }
  }

  // The rows with seq at most n, as the recovery checks select them.
  function Through(audit: seq<AuditEntry>, n: int): seq<AuditEntry> {
    if audit == [] then []
    else Through(audit[..|audit| - 1], n) + (if audit[|audit| - 1].seqNo <= n then [audit[|audit| - 1]] else [])
  }

  function EntryAt(audit: seq<AuditEntry>, n: int): (r: Result<AuditEntry>)
    ensures r.Done? ==> r.value in audit && r.value.seqNo == n
  {
    if audit == [] then ValueFailure
    else if audit[|audit| - 1].seqNo == n then Done(audit[|audit| - 1])
    else EntryAt(audit[..|audit| - 1], n)
  }

  // ---------------------------------------------------------------- operations

  predicate SnapshotValid(a: Authority, s: Store, id: string) {
    && id in s.snapshots
    && s.snapshots[id].stateRoot == ServiceRoot(s.snapshots[id].payload)
    && s.snapshots[id].authTag ==
         SnapshotTag(a.key, a.scope, id, s.snapshots[id].stateRoot, s.snapshots[id].payload, s.snapshots[id].createdTick)
  }

  function CreateSnapshot(a: Authority, s: Store, id: string): Result<Store>
    requires HasTables(s.service)
  {
    if id in s.snapshots then IntegrityFailure
    else
      var payload := DocumentOf(s.service);
      var root := ServiceRoot(payload);
      var snapshot := Snapshot(root, payload, SnapshotTag(a.key, a.scope, id, root, payload, s.tick), s.tick);
      Done(AppendAudit(s.(snapshots := s.snapshots[id := snapshot]), "snapshot_create", root, "controller", s.tick))
  }

  function PauseIntake(s: Store): Result<Store>
    requires HasTables(s.service)
  {
    if s.intake != Open then RuntimeFailure
    else Done(AppendAudit(s.(tick := s.tick + 1, intake := Paused), "intake_pause", StateRoot(s), "operator", s.tick + 1))
  }

  function ResumeIntake(s: Store): Store
    requires HasTables(s.service)
  {
    AppendAudit(s.(tick := s.tick + 1, intake := Open), "intake_resume", StateRoot(s), "operator", s.tick + 1)
  }

  // The proof record of a restore: the roots before and after, and the audit entry it signs for.
  function RestoreFields(a: Authority, s: Store, id: string, pre: Digest, post: Digest, tick: nat): ProofFields {
    var entry := NewEntry(s.audit, RESTORE_KIND, post, a.actorScope, tick);
    ProofFields(entry.seqNo, id, pre, post, AuditRoot(s.audit), RESTORE_KIND, tick, a.actorScope, entry.seqNo, entry.entryHash)
  }

  function RestoreSnapshot(a: Authority, s: Store, id: string): Result<Store>
    requires HasTables(s.service)
  {
    if s.intake != Paused then RuntimeFailure
    else if !ChainValid(s.audit) then RuntimeFailure
    else if !SnapshotValid(a, s, id) then ValueFailure
    else
      var service := Insert(Cleared(s.service), s.snapshots[id].payload);
      var tick := s.tick + 1;
      if ServiceRoot(DocumentOf(service)) != s.snapshots[id].stateRoot then RuntimeFailure
      else
        var post := ServiceRoot(DocumentOf(service));
        var fields := RestoreFields(a, s, id, StateRoot(s), post, tick);
        var s1 := AppendAudit(s.(service := service, tick := tick), RESTORE_KIND, post, a.actorScope, tick);
        Done(s1.(proofs := s1.proofs + [Proof(fields, RecoveryTag(a.key, a.scope, fields))]))
  }

  // The part both recovery checks share: the last proof, its tag, its snapshot and its audit entry.
  predicate ProofChecks(a: Authority, s: Store, p: Proof) {
    var f := p.fields;
    && SnapshotValid(a, s, f.snapshotId)
    && s.snapshots[f.snapshotId].stateRoot == f.postStateRoot
    && p.authTag == RecoveryTag(a.key, a.scope, f)
    && EntryAt(s.audit, f.auditSeq).Done?
    && (var e := EntryAt(s.audit, f.auditSeq).value;
        && e.actionKind == f.actionKind && e.resultingRoot == f.postStateRoot && e.actor == f.actorScope
        && e.entryHash == f.auditEntryHash && e.atTick == f.actionTick)
    && AuditRoot(Through(s.audit, f.auditSeq - 1)) == f.priorAuditRoot
  }

  predicate ProvenanceExists(a: Authority, s: Store) {
    && ChainValid(s.audit)
    && s.proofs != []
    && ProofChecks(a, s, s.proofs[|s.proofs| - 1])
  }

  predicate RecoveryIsValid(a: Authority, s: Store)
    requires HasTables(s.service)
  {
    && ProvenanceExists(a, s)
    && s.audit != []
    && s.audit[|s.audit| - 1].seqNo == s.proofs[|s.proofs| - 1].fields.auditSeq
    && StateRoot(s) == s.proofs[|s.proofs| - 1].fields.postStateRoot
  }

  // ---------------------------------------------------------------- runs

  datatype Action =
    | Mutate(service: Service, ticks: nat)
    | Audit(kind: string, root: Digest, actor: string)
    | TakeSnapshot(id: string)
    | Pause
    | Resume
    | Restore(id: string)

  // A refused action changes nothing.
  function Step(a: Authority, s: Store, action: Action): Store
    requires HasTables(s.service)
  {
    match action
    case Mutate(service, ticks) =>
      if HasTables(service) then s.(service := service, tick := s.tick + ticks) else s
    case Audit(kind, root, actor) => AppendAudit(s, kind, root, actor, s.tick)
    case TakeSnapshot(id) => Settled(CreateSnapshot(a, s, id), s)
    case Pause => Settled(PauseIntake(s), s)
    case Resume => if s.intake == Paused then ResumeIntake(s) else s
    case Restore(id) => Settled(RestoreSnapshot(a, s, id), s)
  }

  function Settled(r: Result<Store>, otherwise: Store): Store {
    if r.Done? then r.value else otherwise
  }

  ghost predicate SeqsGapFree(audit: seq<AuditEntry>) {
    forall i :: 0 <= i < |audit| ==> audit[i].seqNo == i + 1
  }

  // A snapshot holds the document of some service tables, under a valid tag.
  ghost predicate SnapshotsSound(a: Authority, s: Store) {
    forall id :: id in s.snapshots ==>
      SnapshotValid(a, s, id) && exists t: Service :: HasTables(t) && DocumentOf(t) == s.snapshots[id].payload
  }

  ghost predicate ProofSound(a: Authority, s: Store, p: Proof) {
    var f := p.fields;
    && p.authTag == RecoveryTag(a.key, a.scope, f)
    && f.snapshotId in s.snapshots && s.snapshots[f.snapshotId].stateRoot == f.postStateRoot
    && 1 <= f.auditSeq <= |s.audit|
    && f.actionKind == RESTORE_KIND
    && (var e := s.audit[f.auditSeq - 1];
        && e.actionKind == f.actionKind && e.resultingRoot == f.postStateRoot && e.actor == f.actorScope
        && e.entryHash == f.auditEntryHash && e.atTick == f.actionTick)
    && f.priorAuditRoot == AuditRoot(s.audit[..f.auditSeq - 1])
  }

  ghost predicate ProofsSound(a: Authority, s: Store) {
    && (forall i :: 0 <= i < |s.proofs| ==> ProofSound(a, s, s.proofs[i]))
    && (forall i, k :: 0 <= i < k < |s.proofs| ==> s.proofs[i].fields.auditSeq < s.proofs[k].fields.auditSeq)
  }

  ghost predicate StoreInv(a: Authority, s: Store) {
    && HasTables(s.service)
    && ChainValid(s.audit)
    && SeqsGapFree(s.audit)
    && SnapshotsSound(a, s)
    && ProofsSound(a, s)
  }
}

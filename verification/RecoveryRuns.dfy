/**
 What every run of the recovery substrate keeps: restoring gives back the tables of the snapshot, and
 a restore leaves a proof that stays checkable whatever happens afterwards.
 */
module RecoveryRuns {
  import opened Recovery

  lemma {:induction false} EntryAtSeq(audit: seq<AuditEntry>, n: nat)
    requires SeqsGapFree(audit) && 1 <= n <= |audit|
    ensures EntryAt(audit, n) == Done(audit[n - 1])
  {
    if n < |audit| {
      EntryAtSeq(audit[..|audit| - 1], n);
    }
  }

  lemma {:induction false} ThroughSeq(audit: seq<AuditEntry>, n: nat)
    requires SeqsGapFree(audit) && n <= |audit|
    ensures Through(audit, n) == audit[..n]
  {
    if audit != [] {
      var front := audit[..|audit| - 1];
      if n < |audit| {
        ThroughSeq(front, n);
        assert front[..n] == audit[..n];
      } else {
        ThroughSeq(front, |front|);
        ThroughWithin(front, n);
        assert front[..|front|] + [audit[|audit| - 1]] == audit[..n];
      }
    }
  }

  lemma {:induction false} ThroughWithin(audit: seq<AuditEntry>, n: nat)
    requires SeqsGapFree(audit) && |audit| <= n
    ensures Through(audit, n) == Through(audit, |audit|)
  {
    if audit != [] {
      ThroughWithin(audit[..|audit| - 1], n);
      ThroughWithin(audit[..|audit| - 1], |audit|);
    }
  }

  /** A sound proof passes every check the substrate makes of it. */
  lemma SoundProofChecks(a: Authority, s: Store, p: Proof)
    requires StoreInv(a, s) && ProofSound(a, s, p)
    ensures ProofChecks(a, s, p)
  {
    EntryAtSeq(s.audit, p.fields.auditSeq);
    ThroughSeq(s.audit, p.fields.auditSeq - 1);
  }

  lemma ProvenanceMeansProof(a: Authority, s: Store)
    requires StoreInv(a, s)
    ensures ProvenanceExists(a, s) <==> s.proofs != []
  {
    if s.proofs != [] {
      SoundProofChecks(a, s, s.proofs[|s.proofs| - 1]);
    }
  }

  // ---------------------------------------------------------------- what a step keeps

  // Later states keep every audit row, snapshot and proof of earlier ones.
  ghost predicate Extends(s: Store, t: Store) {
    && s.audit <= t.audit
    && (forall id :: id in s.snapshots ==> id in t.snapshots && t.snapshots[id] == s.snapshots[id])
    && s.proofs <= t.proofs
    && s.tick <= t.tick
  }

  lemma ProofPersists(a: Authority, s: Store, t: Store, p: Proof)
    requires ProofSound(a, s, p) && Extends(s, t)
    ensures ProofSound(a, t, p)
  {
    assert t.audit[..p.fields.auditSeq - 1] == s.audit[..p.fields.auditSeq - 1];
  }

  lemma AuditKeeps(a: Authority, s: Store, kind: string, root: Digest, actor: string, tick: nat)
    requires StoreInv(a, s)
    ensures StoreInv(a, AppendAudit(s, kind, root, actor, tick))
    ensures Extends(s, AppendAudit(s, kind, root, actor, tick))
  {
    var t := AppendAudit(s, kind, root, actor, tick);
    AppendKeepsChain(s, kind, root, actor, tick);
    forall i | 0 <= i < |s.proofs| ensures ProofSound(a, t, s.proofs[i]) {
      ProofPersists(a, s, t, s.proofs[i]);
    }
  }

  lemma OperationalFieldsAreFree(a: Authority, s: Store, service: Service, tick: nat, intake: Intake)
    requires StoreInv(a, s) && HasTables(service)
    ensures StoreInv(a, s.(service := service, tick := tick, intake := intake))
    ensures s.tick <= tick ==> Extends(s, s.(service := service, tick := tick, intake := intake))
  {
    var t := s.(service := service, tick := tick, intake := intake);
    forall i | 0 <= i < |s.proofs| ensures ProofSound(a, t, s.proofs[i]) {
    }
  }

  lemma SnapshotAddKeeps(a: Authority, s: Store, id: string, snapshot: Snapshot)
    requires StoreInv(a, s) && id !in s.snapshots
    requires snapshot.payload == DocumentOf(s.service) && snapshot.stateRoot == ServiceRoot(snapshot.payload)
    requires snapshot.authTag == SnapshotTag(a.key, a.scope, id, snapshot.stateRoot, snapshot.payload, snapshot.createdTick)
    ensures var t := s.(snapshots := s.snapshots[id := snapshot]);
      StoreInv(a, t) && Extends(s, t)
  {
    hide ChainValid, SeqsGapFree, HasTables, DocumentOf;
    var t := s.(snapshots := s.snapshots[id := snapshot]);
    forall i | i in t.snapshots
      ensures SnapshotValid(a, t, i) && exists u: Service :: HasTables(u) && DocumentOf(u) == t.snapshots[i].payload
    {
      if i != id { assert SnapshotValid(a, s, i); }
    }
    forall i | 0 <= i < |s.proofs| ensures ProofSound(a, t, s.proofs[i]) {
      ProofPersists(a, s, t, s.proofs[i]);
    }
  }

  lemma SnapshotKeeps(a: Authority, s: Store, id: string)
    requires StoreInv(a, s) && id !in s.snapshots
    ensures var r := CreateSnapshot(a, s, id);
      && r.Done? && StoreInv(a, r.value) && Extends(s, r.value)
      && id in r.value.snapshots && r.value.snapshots[id].payload == DocumentOf(s.service)
  {
    hide StoreInv, Extends, DocumentOf, HasTables;
    InvHasTables(a, s);
    var payload := DocumentOf(s.service);
    var root := ServiceRoot(payload);
    var snapshot := Snapshot(root, payload, SnapshotTag(a.key, a.scope, id, root, payload, s.tick), s.tick);
    var t := s.(snapshots := s.snapshots[id := snapshot]);
    SnapshotAddKeeps(a, s, id, snapshot);
    AuditKeeps(a, t, "snapshot_create", root, "controller", s.tick);
    ExtendsChains(s, t, CreateSnapshot(a, s, id).value);
  }

  lemma RestoreSucceeds(a: Authority, s: Store, id: string, saved: Service)
    requires StoreInv(a, s) && s.intake == Paused && id in s.snapshots
    requires HasTables(saved) && DocumentOf(saved) == s.snapshots[id].payload
    ensures var r := RestoreSnapshot(a, s, id);
      && r.Done? && r.value.service == saved && r.value.intake == Paused
      && r.value.snapshots == s.snapshots && r.value.tick == s.tick + 1
      && r.value.audit == s.audit + [NewEntry(s.audit, RESTORE_KIND, s.snapshots[id].stateRoot, a.actorScope, s.tick + 1)]
      && |r.value.proofs| == |s.proofs| + 1 && s.proofs <= r.value.proofs
      && r.value.proofs[|s.proofs|] ==
           (var fields := RestoreFields(a, s, id, StateRoot(s), s.snapshots[id].stateRoot, s.tick + 1);
            Proof(fields, RecoveryTag(a.key, a.scope, fields)))
  {
    hide ChainValid, Insert;
    RebuildGivesBack(s.service, saved);
  }

  lemma ExtendsChains(s: Store, t: Store, u: Store)
    requires Extends(s, t) && Extends(t, u)
    ensures Extends(s, u)
  {
  }

  // A sound proof of a later audit entry than all before it may be added.
  lemma ProofAddKeeps(a: Authority, s: Store, p: Proof)
    requires StoreInv(a, s) && ProofSound(a, s, p) && p.fields.auditSeq == |s.audit|
    requires forall i :: 0 <= i < |s.proofs| ==> s.proofs[i].fields.auditSeq < |s.audit|
    ensures StoreInv(a, s.(proofs := s.proofs + [p])) && Extends(s, s.(proofs := s.proofs + [p]))
  {
    hide ChainValid, SeqsGapFree, SnapshotValid, HasTables;
    var t := s.(proofs := s.proofs + [p]);
    SnapshotsSoundFrame(a, s, t);
    forall i | 0 <= i < |t.proofs| ensures ProofSound(a, t, t.proofs[i]) {
      var q := t.proofs[i];
      assert q == if i < |s.proofs| then s.proofs[i] else p;
      ProofSoundFrame(a, s, t, q);
    }
  }

  lemma ProofSoundFrame(a: Authority, s: Store, t: Store, p: Proof)
    requires ProofSound(a, s, p) && t.audit == s.audit && t.snapshots == s.snapshots
    ensures ProofSound(a, t, p)
  {
  }

  lemma SnapshotsSoundFrame(a: Authority, s: Store, t: Store)
    requires SnapshotsSound(a, s) && t.snapshots == s.snapshots
    ensures SnapshotsSound(a, t)
  {
    forall id | id in t.snapshots ensures SnapshotValid(a, t, id) {
      assert SnapshotValid(a, s, id);
    }
  }

  lemma NewProofIsSound(a: Authority, s: Store, s1: Store, id: string, pre: Digest, tick: nat)
    requires StoreInv(a, s) && id in s.snapshots
    requires s1.snapshots == s.snapshots
    requires s1.audit == s.audit + [NewEntry(s.audit, RESTORE_KIND, s.snapshots[id].stateRoot, a.actorScope, tick)]
    ensures var fields := RestoreFields(a, s, id, pre, s.snapshots[id].stateRoot, tick);
      ProofSound(a, s1, Proof(fields, RecoveryTag(a.key, a.scope, fields))) && fields.auditSeq == |s1.audit|
  {
    hide ChainValid, ProofsSound, SnapshotsSound, HasTables;
    assert NextSeq(s.audit) == |s.audit| + 1;
    assert s1.audit[..|s.audit|] == s.audit;
  }

  lemma RestoreKeeps(a: Authority, s: Store, id: string, saved: Service)
    requires StoreInv(a, s) && s.intake == Paused && id in s.snapshots
    requires HasTables(saved) && DocumentOf(saved) == s.snapshots[id].payload
    ensures RestoreSnapshot(a, s, id).Done?
    ensures var t := RestoreSnapshot(a, s, id).value;
      && StoreInv(a, t) && Extends(s, t)
      && t.proofs[|t.proofs| - 1].fields.auditSeq == |t.audit|
      && t.proofs[|t.proofs| - 1].fields.snapshotId == id
      && t.proofs[|t.proofs| - 1].fields.postStateRoot == s.snapshots[id].stateRoot
  {
    hide ChainValid, RestoreSnapshot, StoreInv, ProofSound, Extends, HasTables, SnapshotValid;
    InvHasTables(a, s);
    RestoreSucceeds(a, s, id, saved);
    var t := RestoreSnapshot(a, s, id).value;
    var root := s.snapshots[id].stateRoot;
    OperationalFieldsAreFree(a, s, saved, s.tick + 1, Paused);
    var s1 := s.(service := saved, tick := s.tick + 1, intake := Paused);
    AuditKeeps(a, s1, RESTORE_KIND, root, a.actorScope, s.tick + 1);
    var s2 := AppendAudit(s1, RESTORE_KIND, root, a.actorScope, s.tick + 1);
    NewProofIsSound(a, s, s2, id, StateRoot(s), s.tick + 1);
    ProofsComeBefore(a, s);
    var p := t.proofs[|s.proofs|];
    ProofAddKeeps(a, s2, p);
    assert t.proofs == s2.proofs + [p];
    assert t == s2.(proofs := s2.proofs + [p]);
    ExtendsChains(s, s1, s2);
    ExtendsChains(s, s2, t);
  }

  lemma ProofsComeBefore(a: Authority, s: Store)
    requires StoreInv(a, s)
    ensures forall i :: 0 <= i < |s.proofs| ==> s.proofs[i].fields.auditSeq <= |s.audit|
  {
    forall i | 0 <= i < |s.proofs| ensures s.proofs[i].fields.auditSeq <= |s.audit| {
      assert ProofSound(a, s, s.proofs[i]);
    }
  }

  /**
   A restore gives back exactly the tables the snapshot was taken from, so the root mismatch it guards
   against never arises, and right after it the recovery is valid.
   */
  lemma RestoreBringsBackSnapshot(a: Authority, s: Store, id: string, saved: Service)
    requires StoreInv(a, s) && s.intake == Paused && id in s.snapshots
    requires HasTables(saved) && DocumentOf(saved) == s.snapshots[id].payload
    ensures var r := RestoreSnapshot(a, s, id);
      && r.Done? && r.value.service == saved
      && StoreInv(a, r.value)
      && RecoveryIsValid(a, r.value)
  {
    hide RestoreSnapshot, ChainValid, ProofChecks, ProofSound;
    RestoreSucceeds(a, s, id, saved);
    RestoreKeeps(a, s, id, saved);
    ProvenanceMeansProof(a, RestoreSnapshot(a, s, id).value);
  }

  lemma SavedTables(a: Authority, s: Store, id: string) returns (saved: Service)
    requires StoreInv(a, s) && id in s.snapshots
    ensures HasTables(saved) && DocumentOf(saved) == s.snapshots[id].payload
  {
    saved :| HasTables(saved) && DocumentOf(saved) == s.snapshots[id].payload;
  }

  lemma StepKeeps(a: Authority, s: Store, action: Action)
    requires StoreInv(a, s)
    ensures StoreInv(a, Step(a, s, action)) && Extends(s, Step(a, s, action))
  {
    hide ChainValid, ProofsSound, SnapshotsSound, SeqsGapFree, RestoreSnapshot, CreateSnapshot;
    match action
    case Mutate(service, ticks) =>
      if HasTables(service) { OperationalFieldsAreFree(a, s, service, s.tick + ticks, s.intake); }
    case Audit(kind, root, actor) => AuditKeeps(a, s, kind, root, actor, s.tick);
    case TakeSnapshot(id) =>
      if id !in s.snapshots { SnapshotKeeps(a, s, id); } else { SnapshotTwiceRefused(a, s, id); }
    case Pause =>
      OperationalFieldsAreFree(a, s, s.service, s.tick + 1, Paused);
      AuditKeeps(a, s.(tick := s.tick + 1, intake := Paused), "intake_pause", StateRoot(s), "operator", s.tick + 1);
    case Resume =>
      OperationalFieldsAreFree(a, s, s.service, s.tick + 1, Open);
      AuditKeeps(a, s.(tick := s.tick + 1, intake := Open), "intake_resume", StateRoot(s), "operator", s.tick + 1);
    case Restore(id) =>
      if s.intake == Paused && id in s.snapshots {
        var saved := SavedTables(a, s, id);
        RestoreKeeps(a, s, id, saved);
      } else {
        RestoreRefused(a, s, id);
      }
  }

  lemma SnapshotTwiceRefused(a: Authority, s: Store, id: string)
    requires HasTables(s.service) && id in s.snapshots
    ensures CreateSnapshot(a, s, id) == IntegrityFailure
  {
  }

  lemma RestoreRefused(a: Authority, s: Store, id: string)
    requires HasTables(s.service) && !(s.intake == Paused && id in s.snapshots)
    ensures !RestoreSnapshot(a, s, id).Done?
  {
  }

  // ---------------------------------------------------------------- whole runs

  function RunAll(a: Authority, s: Store, actions: seq<Action>): (r: Store)
    requires HasTables(s.service)
    ensures HasTables(r.service)
  {
    if actions == [] then s
    else
      var before := RunAll(a, s, actions[..|actions| - 1]);
      var r := Step(a, before, actions[|actions| - 1]);
      StepHasTables(a, before, actions[|actions| - 1]);
      r
  }

  lemma StepHasTables(a: Authority, s: Store, action: Action)
    requires HasTables(s.service)
    ensures HasTables(Step(a, s, action).service)
  {
    hide ChainValid, Insert;
  }

  lemma {:induction false} RunKeeps(a: Authority, s: Store, actions: seq<Action>)
    requires StoreInv(a, s)
    ensures StoreInv(a, RunAll(a, s, actions)) && Extends(s, RunAll(a, s, actions))
  {
    hide StoreInv, Step;
    assert HasTables(s.service) by { InvHasTables(a, s); }
    if actions != [] {
      var before := RunAll(a, s, actions[..|actions| - 1]);
      RunKeeps(a, s, actions[..|actions| - 1]);
      StepKeeps(a, before, actions[|actions| - 1]);
    }
  }

  lemma InvHasTables(a: Authority, s: Store)
    requires StoreInv(a, s)
    ensures HasTables(s.service)
  {
  }

  /**
   Snapshot and restore over whole runs: take a snapshot, let anything happen, and once intake is
   paused a restore of that snapshot succeeds and leaves exactly the service tables of that moment.
   */
  lemma SnapshotSurvivesAnyRun(a: Authority, s: Store, id: string, actions: seq<Action>)
    requires StoreInv(a, s) && id !in s.snapshots
    ensures CreateSnapshot(a, s, id).Done? && HasTables(CreateSnapshot(a, s, id).value.service)
    ensures var t := RunAll(a, CreateSnapshot(a, s, id).value, actions);
      t.intake == Paused ==>
        && RestoreSnapshot(a, t, id).Done?
        && RestoreSnapshot(a, t, id).value.service == s.service
        && RecoveryIsValid(a, RestoreSnapshot(a, t, id).value)
  {
    hide CreateSnapshot, RestoreSnapshot, ChainValid, ProofsSound, SnapshotsSound, RecoveryIsValid, RunAll;
    SnapshotKeeps(a, s, id);
    var s1 := CreateSnapshot(a, s, id).value;
    RunKeeps(a, s1, actions);
    var t := RunAll(a, s1, actions);
    if t.intake == Paused {
      RestoreBringsBackSnapshot(a, t, id, s.service);
    }
  }

  // Whether some action of the run is a restore that succeeds.
  ghost predicate RestoresAt(a: Authority, s: Store, actions: seq<Action>, i: nat)
    requires HasTables(s.service)
  {
    && i < |actions|
    && actions[i].Restore?
    && RestoreSnapshot(a, RunAll(a, s, actions[..i]), actions[i].id).Done?
  }

  lemma OnlyRestoresAddProofs(a: Authority, s: Store, action: Action)
    requires StoreInv(a, s)
    ensures Step(a, s, action).proofs == s.proofs ||
      (action.Restore? && RestoreSnapshot(a, s, action.id).Done? && Step(a, s, action).proofs != [])
    ensures action.Restore? && RestoreSnapshot(a, s, action.id).Done? ==> Step(a, s, action).proofs != []
  {
    hide ChainValid, Insert, SnapshotsSound, ProofsSound;
  }

  /**
   Provenance is stable: in every state of every run, recovery provenance exists exactly if it did at
   the start or some restore of the run succeeded. Workloads, audits, deployments, pauses, resumes and
   further restores never take it away.
   */
  lemma {:induction false} ProvenanceMeansRestored(a: Authority, s: Store, actions: seq<Action>)
    requires StoreInv(a, s)
    ensures ProvenanceExists(a, RunAll(a, s, actions)) <==>
      ProvenanceExists(a, s) || exists i :: RestoresAt(a, s, actions, i)
    decreases |actions|
  {
    hide StoreInv, Step, ProvenanceExists, RestoreSnapshot;
    InvHasTables(a, s);
    RunKeeps(a, s, actions);
    ProvenanceMeansProof(a, RunAll(a, s, actions));
    ProvenanceMeansProof(a, s);
    if actions != [] {
      var n := |actions| - 1;
      var front := actions[..n];
      ProvenanceMeansRestored(a, s, front);
      RunKeeps(a, s, front);
      ProvenanceMeansProof(a, RunAll(a, s, front));
      OnlyRestoresAddProofs(a, RunAll(a, s, front), actions[n]);
      StepKeeps(a, RunAll(a, s, front), actions[n]);
      forall i | 0 <= i < n ensures RestoresAt(a, s, front, i) <==> RestoresAt(a, s, actions, i) {
        assert front[..i] == actions[..i];
      }
      if RestoresAt(a, s, actions, n) {
        assert RunAll(a, s, actions).proofs != [];
      }
    }
  }

  // ---------------------------------------------------------------- tampering

  lemma {:induction false} ChainedEntryIsHashed(audit: seq<AuditEntry>, e: AuditEntry)
    requires ChainValid(audit) && e in audit
    ensures e.entryHash == HashOf(e)
  {
    var last := audit[|audit| - 1];
    assert audit == audit[..|audit| - 1] + [last];
    if e != last {
      ChainedEntryIsHashed(audit[..|audit| - 1], e);
    }
  }

  /** A snapshot tag opens one snapshot only: whoever holds it, under this id, with this payload. */
  lemma SnapshotIsTamperEvident(a: Authority, s: Store, t: Store, id: string, other: string)
    requires SnapshotValid(a, s, id) && SnapshotValid(a, t, other)
    requires t.snapshots[other].authTag == s.snapshots[id].authTag
    ensures other == id && t.snapshots[other] == s.snapshots[id]
  {
  }

  /**
   Provenance is evidence. Let p be a proof of a store s that the operations produced, and t any store at
   all, however it came about, that passes the provenance check with the tag of p on its last proof. Then
   that proof is p, and t holds the audit rows that came before the restore, the restore's own row, and
   the snapshot's payload, exactly as s does.
   */
  lemma ProvenanceIsTamperEvident(a: Authority, s: Store, t: Store, p: Proof)
    requires StoreInv(a, s) && p in s.proofs
    requires ProvenanceExists(a, t) && t.proofs[|t.proofs| - 1].authTag == p.authTag
    ensures t.proofs[|t.proofs| - 1] == p
    ensures var q, id := p.fields.auditSeq, p.fields.snapshotId;
      && 1 <= q <= |s.audit| && id in s.snapshots && id in t.snapshots
      && Through(t.audit, q - 1) == s.audit[..q - 1]
      && EntryAt(t.audit, q) == Done(s.audit[q - 1])
      && t.snapshots[id].payload == s.snapshots[id].payload
  {
    hide ChainValid, Through, EntryAt, SeqsGapFree;
    var i :| 0 <= i < |s.proofs| && s.proofs[i] == p;
    assert ProofSound(a, s, s.proofs[i]);
    var q := p.fields.auditSeq;
    var e, original := EntryAt(t.audit, q).value, s.audit[q - 1];
    ChainedEntryIsHashed(t.audit, e);
    ChainedEntryIsHashed(s.audit, original);
    assert AuditRoot(Through(t.audit, q - 1)).rows == AuditRoot(s.audit[..q - 1]).rows;
    assert SnapshotValid(a, s, p.fields.snapshotId);
    var genuine, held := s.snapshots[p.fields.snapshotId].payload, t.snapshots[p.fields.snapshotId].payload;
    assert ServiceRoot(held).document == ServiceRoot(genuine).document;
  }

  /** If t even passes the stronger check, its tables are those of the snapshot and its audit ends there. */
  lemma ValidRecoveryIsTamperEvident(a: Authority, s: Store, t: Store, p: Proof, saved: Service)
    requires StoreInv(a, s) && p in s.proofs && p.fields.snapshotId in s.snapshots
    requires HasTables(saved) && DocumentOf(saved) == s.snapshots[p.fields.snapshotId].payload
    requires HasTables(t.service) && RecoveryIsValid(a, t) && t.proofs[|t.proofs| - 1].authTag == p.authTag
    ensures t.service == saved && t.audit[|t.audit| - 1].seqNo == p.fields.auditSeq
  {
    hide ChainValid, ProofChecks, StoreInv, DocumentOf, HasTables;
    ProvenanceIsTamperEvident(a, s, t, p);
    SoundProofHasRoot(a, s, p);
    assert ServiceRoot(DocumentOf(t.service)).document == ServiceRoot(DocumentOf(saved)).document;
    DocumentIsInjective(t.service, saved);
  }

  lemma SoundProofHasRoot(a: Authority, s: Store, p: Proof)
    requires StoreInv(a, s) && p in s.proofs
    ensures p.fields.snapshotId in s.snapshots
    ensures p.fields.postStateRoot == ServiceRoot(s.snapshots[p.fields.snapshotId].payload)
  {
    hide ChainValid, SeqsGapFree;
    var i :| 0 <= i < |s.proofs| && s.proofs[i] == p;
    assert ProofSound(a, s, s.proofs[i]);
    assert SnapshotValid(a, s, p.fields.snapshotId);
  }
}

/**
 What the proofs, the audit chain and the snapshots of a store say about the run that led to them: each
 restore signs the tables right before and right after it, each audited action leaves one row that says
 what was done and to what it led, and each snapshot holds the tables of its moment.
 */
module RecoveryHistory {
  import opened Recovery
  import opened R = RecoveryRuns

  // ---------------------------------------------------------------- one action

  // The proof of a restore, in terms of the store right before and right after it.
  ghost predicate TellsRestore(a: Authority, before: Store, id: string, after: Store, p: Proof)
    requires HasTables(before.service) && HasTables(after.service)
  {
    && p.fields.snapshotId == id
    && p.fields.preStateRoot == StateRoot(before) && p.fields.postStateRoot == StateRoot(after)
    && p.fields.priorAuditRoot == AuditRoot(before.audit)
    && p.fields.actionKind == "snapshot_restore" && p.fields.actorScope == a.actorScope
    && p.fields.actionTick == after.tick == before.tick + 1
    && p.fields.proofId == p.fields.auditSeq == |after.audit| == |before.audit| + 1
    && p.fields.auditEntryHash == after.audit[|before.audit|].entryHash
    && p.authTag == RecoveryTag(a.key, a.scope, p.fields)
  }

  lemma RestoreTells(a: Authority, s: Store, id: string)
    requires StoreInv(a, s) && RestoreSnapshot(a, s, id).Done?
    ensures HasTables(s.service) && HasTables(RestoreSnapshot(a, s, id).value.service)
    ensures var t := RestoreSnapshot(a, s, id).value;
      && |t.proofs| == |s.proofs| + 1 && s.proofs <= t.proofs
      && TellsRestore(a, s, id, t, t.proofs[|s.proofs|])
      && t.intake == Paused && t.snapshots == s.snapshots
  {
    hide ChainValid, Insert, SnapshotsSound, ProofsSound, DocumentOf;
    InvHasTables(a, s);
    StepHasTables(a, s, Action.Restore(id));
  }

  /**
   A restore over any store at all, however it came about: it needs paused intake and a valid chain, then a
   snapshot whose root and tag are genuine, and if it succeeds the tables have the root of the snapshot. With
   a snapshot that holds the document of some tables nothing else can stop it.
   */
  lemma RestoreGuards(a: Authority, s: Store, id: string, saved: Service)
    requires HasTables(s.service) && HasTables(saved)
    ensures var r := RestoreSnapshot(a, s, id);
      && (s.intake == Open || !ChainValid(s.audit) ==> r == RuntimeFailure)
      && (s.intake == Paused && ChainValid(s.audit) && !SnapshotValid(a, s, id) ==> r == ValueFailure)
      && (r.Done? ==> id in s.snapshots && HasTables(r.value.service) && StateRoot(r.value) == s.snapshots[id].stateRoot)
      && (id in s.snapshots && s.snapshots[id].payload == DocumentOf(saved) ==>
            (r.Done? <==> s.intake == Paused && ChainValid(s.audit) && SnapshotValid(a, s, id)))
  {
    hide ChainValid, DocumentOf, Insert;
    StepHasTables(a, s, Action.Restore(id));
    RebuildGivesBack(s.service, saved);
  }

  /** Provenance in any store: a row of the audit agrees with the last proof in kind, root, actor, hash and tick. */
  lemma ProvenanceAgrees(a: Authority, s: Store)
    requires ProvenanceExists(a, s)
    ensures var f := s.proofs[|s.proofs| - 1].fields;
      && f.snapshotId in s.snapshots && s.snapshots[f.snapshotId].stateRoot == f.postStateRoot
      && exists e :: e in s.audit && e.seqNo == f.auditSeq && e.actionKind == f.actionKind && e.resultingRoot == f.postStateRoot
           && e.actor == f.actorScope && e.entryHash == f.auditEntryHash && e.atTick == f.actionTick
  {
    hide ChainValid, Through;
    var e := EntryAt(s.audit, s.proofs[|s.proofs| - 1].fields.auditSeq).value;
    assert e in s.audit;
  }

  // Whether an action that is audited is carried out.
  predicate Audits(a: Authority, s: Store, action: Action)
    requires HasTables(s.service)
  {
    match action
    case Mutate(_, _) => false
    case Audit(_, _, _) => true
    case TakeSnapshot(id) => id !in s.snapshots
    case Pause => s.intake == Open
    case Resume => s.intake == Paused
    case Restore(id) => RestoreSnapshot(a, s, id).Done?
  }

  function KindOf(action: Action): string
    requires !action.Mutate?
  {
    match action
    case Audit(kind, _, _) => kind
    case TakeSnapshot(_) => "snapshot_create"
    case Pause => "intake_pause"
    case Resume => "intake_resume"
    case Restore(_) => "snapshot_restore"
  }

  function ActorOf(a: Authority, action: Action): string
    requires !action.Mutate?
  {
    match action
    case Audit(_, _, actor) => actor
    case TakeSnapshot(_) => "controller"
    case Restore(_) => a.actorScope
    case _ => "operator"
  }

  // The row of an action: what was done, by whom, when, and the root of the tables it left.
  ghost predicate TellsAction(a: Authority, action: Action, after: Store, row: AuditEntry)
    requires HasTables(after.service) && !action.Mutate?
  {
    && row.actionKind == KindOf(action) && row.actor == ActorOf(a, action) && row.atTick == after.tick
    && row.resultingRoot == if action.Audit? then action.root else StateRoot(after)
  }

  lemma ActionTells(a: Authority, s: Store, action: Action)
    requires StoreInv(a, s)
    ensures HasTables(s.service) && HasTables(Step(a, s, action).service)
    ensures var t := Step(a, s, action);
      if Audits(a, s, action) then
        && !action.Mutate?
        && |t.audit| == |s.audit| + 1 && s.audit <= t.audit
        && TellsAction(a, action, t, t.audit[|s.audit|])
      else t.audit == s.audit
  {
    hide ChainValid, Insert, SnapshotsSound, ProofsSound, DocumentOf;
    InvHasTables(a, s);
    StepHasTables(a, s, action);
  }

  /** What an action does to intake, to the clock and to the tables; one that is refused does nothing. */
  lemma ActionMoves(a: Authority, s: Store, action: Action)
    requires StoreInv(a, s)
    ensures HasTables(s.service)
    ensures var t := Step(a, s, action);
      && (action.Pause? && s.intake == Open ==> t.intake == Paused)
      && (action.Resume? && s.intake == Paused ==> t.intake == Open)
      && (!action.Pause? && !action.Resume? ==> t.intake == s.intake)
      && (!action.Mutate? && !action.Restore? ==> t.service == s.service)
      && (!action.Mutate? ==>
            t.tick == s.tick + if Audits(a, s, action) && (action.Pause? || action.Resume? || action.Restore?) then 1 else 0)
      && (!action.Mutate? && !Audits(a, s, action) ==> t == s)
  {
    hide ChainValid, Insert, SnapshotsSound, ProofsSound, DocumentOf;
    InvHasTables(a, s);
  }

  // A snapshot is held under its id with the tables and the tick of its moment.
  lemma SnapshotTells(a: Authority, s: Store, id: string)
    requires StoreInv(a, s) && id !in s.snapshots
    ensures HasTables(s.service)
    ensures var t := Step(a, s, TakeSnapshot(id));
      && id in t.snapshots && t.snapshots[id].payload == DocumentOf(s.service)
      && t.snapshots[id].stateRoot == StateRoot(s) && t.snapshots[id].createdTick == s.tick
      && t.snapshots[id].authTag ==
           SnapshotTag(a.key, a.scope, id, StateRoot(s), DocumentOf(s.service), s.tick)
      && forall other :: other != id ==>
           (other in t.snapshots <==> other in s.snapshots) && (other in s.snapshots ==> t.snapshots[other] == s.snapshots[other])
  {
    hide ChainValid, SnapshotsSound, ProofsSound, DocumentOf;
    InvHasTables(a, s);
  }

  // ---------------------------------------------------------------- runs

  lemma RunStep(a: Authority, s: Store, actions: seq<Action>, i: nat)
    requires HasTables(s.service) && i < |actions|
    ensures RunAll(a, s, actions[..i + 1]) == Step(a, RunAll(a, s, actions[..i]), actions[i])
  {
    hide Step;
    assert actions[..i + 1][..i] == actions[..i];
  }

  lemma {:induction false} PrefixExtends(a: Authority, s: Store, actions: seq<Action>, i: nat)
    requires StoreInv(a, s) && i <= |actions|
    ensures HasTables(s.service) && StoreInv(a, RunAll(a, s, actions[..i]))
    ensures Extends(RunAll(a, s, actions[..i]), RunAll(a, s, actions))
    decreases |actions|
  {
    hide StoreInv, Step, Extends;
    InvHasTables(a, s);
    RunKeeps(a, s, actions[..i]);
    if i == |actions| {
      assert actions[..i] == actions;
      ExtendsItself(RunAll(a, s, actions));
    } else {
      var front := actions[..|actions| - 1];
      assert front[..i] == actions[..i];
      PrefixExtends(a, s, front, i);
      RunKeeps(a, s, front);
      StepKeeps(a, RunAll(a, s, front), actions[|actions| - 1]);
      ExtendsChains(RunAll(a, s, actions[..i]), RunAll(a, s, front), RunAll(a, s, actions));
    }
  }

  lemma ExtendsItself(s: Store)
    ensures Extends(s, s)
  {
  }

  /**
   Over every run a restore that succeeds leaves its proof for good: it names the snapshot, the root of the
   tables right before the restore and right after it, the audit before it, and the audit row it wrote.
   */
  lemma EveryRestoreIsProved(a: Authority, s: Store, actions: seq<Action>, i: nat)
    requires StoreInv(a, s) && HasTables(s.service) && RestoresAt(a, s, actions, i)
    ensures var before, after := RunAll(a, s, actions[..i]), RunAll(a, s, actions[..i + 1]);
      var proofs := RunAll(a, s, actions).proofs;
      |before.proofs| < |proofs| && TellsRestore(a, before, actions[i].id, after, proofs[|before.proofs|])
  {
    hide StoreInv, Step, TellsRestore, RunAll, RestoreSnapshot;
    var before := RunAll(a, s, actions[..i]);
    PrefixExtends(a, s, actions, i);
    PrefixExtends(a, s, actions, i + 1);
    RunStep(a, s, actions, i);
    RestoreTells(a, before, actions[i].id);
    assert Step(a, before, actions[i]) == RestoreSnapshot(a, before, actions[i].id).value by {
      StepOfRestore(a, before, actions[i]);
    }
  }

  lemma StepOfRestore(a: Authority, s: Store, action: Action)
    requires HasTables(s.service) && action.Restore? && RestoreSnapshot(a, s, action.id).Done?
    ensures Step(a, s, action) == RestoreSnapshot(a, s, action.id).value
  {
    hide RestoreSnapshot;
  }

  lemma OnlyRestoresProve(a: Authority, s: Store, action: Action)
    requires StoreInv(a, s) && HasTables(s.service)
    ensures !(action.Restore? && RestoreSnapshot(a, s, action.id).Done?) ==> Step(a, s, action).proofs == s.proofs
  {
    hide ChainValid, Insert, SnapshotsSound, ProofsSound;
  }

  /** And no proof comes from anywhere else: each one that the run added is that of one of its restores. */
  lemma {:induction false} EveryProofIsOfRestore(a: Authority, s: Store, actions: seq<Action>, k: nat) returns (i: nat)
    requires StoreInv(a, s) && HasTables(s.service) && |s.proofs| <= k < |RunAll(a, s, actions).proofs|
    ensures RestoresAt(a, s, actions, i) && |RunAll(a, s, actions[..i]).proofs| == k
    decreases |actions|
  {
    hide StoreInv, Step, RestoreSnapshot;
    var n := |actions| - 1;
    var front := actions[..n];
    PrefixExtends(a, s, actions, n);
    var before := RunAll(a, s, front);
    if k < |before.proofs| {
      i := EveryProofIsOfRestore(a, s, front, k);
      assert front[..i] == actions[..i];
    } else {
      i := n;
      OnlyRestoresProve(a, before, actions[n]);
      RestoreTells(a, before, actions[n].id);
      StepOfRestore(a, before, actions[n]);
    }
  }

  /** Over every run each audited action leaves its row for good, and what is refused leaves none. */
  lemma EveryActionIsAudited(a: Authority, s: Store, actions: seq<Action>, i: nat)
    requires StoreInv(a, s) && HasTables(s.service) && i < |actions|
    ensures var before, after := RunAll(a, s, actions[..i]), RunAll(a, s, actions[..i + 1]);
      var audit := RunAll(a, s, actions).audit;
      if Audits(a, before, actions[i]) then
        && !actions[i].Mutate?
        && |before.audit| < |audit| && |after.audit| == |before.audit| + 1
        && TellsAction(a, actions[i], after, audit[|before.audit|])
      else |after.audit| == |before.audit|
  {
    hide StoreInv, Step, TellsAction, RunAll, Audits;
    PrefixExtends(a, s, actions, i);
    PrefixExtends(a, s, actions, i + 1);
    RunStep(a, s, actions, i);
    ActionTells(a, RunAll(a, s, actions[..i]), actions[i]);
  }
}

/**
 The recovery substrate as an object: its methods update the tables in place, the chain check and the
 restore are loops, and each method moves the object's state as the function it is named after.
 */
module StateStore {
  import opened Recovery
  import R = RecoveryRuns
  import H = RecoveryHistory

  class StateStore {
    const authority: Authority
    var service: Service
    var tick: nat
    var intake: Intake
    var snapshots: map<string, Snapshot>
    var proofs: seq<Proof>
    var audit: seq<AuditEntry>

    function View(): Store
      reads this
    {
      Store.Store(service, tick, intake, snapshots, proofs, audit)
    }

    ghost predicate Valid()
      reads this
    {
      StoreInv(authority, View())
    }

    /** A fresh database: no rows but the settlement cursor at 0, tick 40, open intake. */
    constructor (authority: Authority)
      ensures Valid() && this.authority == authority
      ensures View() == Store.Store(NewTables, 40, Open, map[], [], [])
    {
      this.authority := authority;
      service := NewTables;
      tick, intake, snapshots, proofs, audit := 40, Open, map[], [], [];
      new;
      NewTablesAreAll();
    }

    method AppendEntry(kind: string, root: Digest, actor: string, atTick: nat) returns (entryHash: Digest)
      modifies this`audit
      ensures View() == AppendAudit(old(View()), kind, root, actor, atTick)
      ensures entryHash == Head(audit)
      ensures old(Valid()) ==> Valid()
    {
      if Valid() { R.AuditKeeps(authority, View(), kind, root, actor, atTick); }
      var prior := if |audit| > 0 then audit[|audit| - 1].entryHash else AuditGenesis;
      var seqNo := NextSeq(audit);
      entryHash := EntryHash(seqNo, kind, prior, root, actor, atTick);
      audit := audit + [AuditEntry.AuditEntry(seqNo, kind, prior, root, actor, entryHash, atTick)];
    }

    /** Walks the chain forward, carrying the hash the next row must name. */
    method AuditChainValid() returns (valid: bool)
      ensures valid == ChainValid(audit)
    {
      var expected := AuditGenesis;
      for i := 0 to |audit|
        invariant ChainValid(audit[..i])
        invariant expected == Head(audit[..i])
      {
        var row := audit[i];
        assert audit[..i + 1][..i] == audit[..i];
        if row.priorRoot != expected || row.entryHash != HashOf(row) {
          if ChainValid(audit) { TruncationStaysValid(audit, i + 1); }
          return false;
        }
        expected := row.entryHash;
      }
      assert audit[..|audit|] == audit;
      return true;
    }

    method TakeSnapshot(id: string) returns (result: Result<Digest>)
      requires Valid()
      modifies this
      ensures Valid()
      ensures old(CreateSnapshot(authority, View(), id)).Done? <==> result.Done?
      ensures result.Done? ==>
        View() == old(CreateSnapshot(authority, View(), id)).value && result.value == old(StateRoot(View()))
      ensures !result.Done? ==> View() == old(View())
    {
      hide ChainValid, StoreInv, R.Extends, DocumentOf;
      R.InvHasTables(authority, View());
      if id in snapshots { return IntegrityFailure; }
      R.SnapshotKeeps(authority, View(), id);
      var payload := DocumentOf(service);
      var root := ServiceRoot(payload);
      snapshots := snapshots[id :=
        Snapshot.Snapshot(root, payload, SnapshotTag(authority.key, authority.scope, id, root, payload, tick), tick)];
      var _ := AppendEntry("snapshot_create", root, "controller", tick);
      result := Done(root);
    }

    method PauseService() returns (result: Result<nat>)
      requires Valid()
      modifies this
      ensures Valid()
      ensures result.Done? <==> old(intake) == Open
      ensures result.Done? ==> View() == old(PauseIntake(View())).value && result.value == tick
      ensures !result.Done? ==> View() == old(View())
    {
      hide StoreInv, R.Extends;
      R.InvHasTables(authority, View());
      if intake != Open { return RuntimeFailure; }
      R.StepKeeps(authority, View(), Action.Pause);
      tick := tick + 1;
      intake := Paused;
      var _ := AppendEntry("intake_pause", ServiceRoot(DocumentOf(service)), "operator", tick);
      result := Done(tick);
    }

    /** Empties every service table, newest table first. */
    method ClearTables()
      requires HasTables(service)
      modifies this`service
      ensures service == Cleared(old(service))
    {
      var i := |SERVICE_TABLES|;
      while i > 0
        invariant 0 <= i <= |SERVICE_TABLES|
        invariant service.Keys == old(service).Keys
        invariant forall k :: i <= k < |SERVICE_TABLES| ==> service[SERVICE_TABLES[k]] == []
      {
        i := i - 1;
        service := service[SERVICE_TABLES[i] := []];
      }
      forall name: TableName ensures service[name] == [] {
        EveryTableListed(name);
      }
    }

    method InsertDocument(document: Document)
      modifies this`service
      ensures service == Insert(old(service), document)
    {
      for i := 0 to |document|
        invariant service == Insert(old(service), document[..i])
      {
        assert document[..i + 1][..i] == document[..i];
        var table := document[i];
        if table.rows != [] {
          service := service[table.name := (if table.name in service then service[table.name] else []) + table.rows];
        }
      }
      assert document[..|document|] == document;
    }

    /** Restoring, as one transaction: if the rebuilt tables do not have the snapshot's root, it is undone. */
    method RestoreFrom(id: string) returns (result: Result<Digest>)
      requires HasTables(service)
      modifies this
      ensures result.Done? <==> old(RestoreSnapshot(authority, View(), id)).Done?
      ensures result.ValueFailure? <==> old(RestoreSnapshot(authority, View(), id)).ValueFailure?
      ensures result.Done? ==>
        View() == old(RestoreSnapshot(authority, View(), id)).value && result.value == ServiceRoot(DocumentOf(service))
      ensures !result.Done? ==> View() == old(View())
      ensures old(Valid()) ==> Valid() && (result.Done? <==> old(intake) == Paused && id in old(snapshots))
      ensures old(Valid()) && result.Done? ==> RecoveryIsValid(authority, View())
      ensures old(Valid()) && result.Done? ==>
        HasTables(service) && |proofs| == |old(proofs)| + 1 &&
        H.TellsRestore(authority, old(View()), id, View(), proofs[|old(proofs)|])
    {
      hide ChainValid, Insert, StoreInv, RecoveryIsValid, H.TellsRestore;
      ghost var before := View();
      RestoreFromValid(id);
      if intake != Paused { return RuntimeFailure; }
      var chained := AuditChainValid();
      if !chained { return RuntimeFailure; }
      if !SnapshotValid(authority, View(), id) { return ValueFailure; }
      var pre := ServiceRoot(DocumentOf(service));
      var priorAudit := AuditRoot(audit);
      var undo := service;
      ClearTables();
      InsertDocument(snapshots[id].payload);
      var post := ServiceRoot(DocumentOf(service));
      if post != snapshots[id].stateRoot {
        service := undo;
        return RuntimeFailure;
      }
      tick := tick + 1;
      var seqNo := NextSeq(audit);
      var entryHash := AppendEntry(RESTORE_KIND, post, authority.actorScope, tick);
      var fields := ProofFields.ProofFields(
        seqNo, id, pre, post, priorAudit, RESTORE_KIND, tick, authority.actorScope, seqNo, entryHash);
      proofs := proofs + [Proof.Proof(fields, RecoveryTag(authority.key, authority.scope, fields))];
      result := Done(post);
    }

    lemma RestoreFromValid(id: string)
      requires HasTables(service)
      ensures Valid() ==>
        && (RestoreSnapshot(authority, View(), id).Done? <==> intake == Paused && id in snapshots)
        && (RestoreSnapshot(authority, View(), id).Done? ==>
              StoreInv(authority, RestoreSnapshot(authority, View(), id).value) &&
              RecoveryIsValid(authority, RestoreSnapshot(authority, View(), id).value) &&
              |RestoreSnapshot(authority, View(), id).value.proofs| == |proofs| + 1 &&
              H.TellsRestore(authority, View(), id, RestoreSnapshot(authority, View(), id).value,
                             RestoreSnapshot(authority, View(), id).value.proofs[|proofs|]))
    {
      hide RestoreSnapshot, ChainValid, RecoveryIsValid, H.TellsRestore;
      if Valid() {
        if RestoreSnapshot(authority, View(), id).Done? { H.RestoreTells(authority, View(), id); }
        if intake == Paused && id in snapshots {
          var saved := R.SavedTables(authority, View(), id);
          R.RestoreBringsBackSnapshot(authority, View(), id, saved);
        } else {
          R.RestoreRefused(authority, View(), id);
        }
      }
    }
  }
}

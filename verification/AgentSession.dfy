/**
 The agent session as an object over a state store: each tool method changes the fields in place, and
 moves the session exactly as `Session.Perform` says.
 */
module AgentSession {
  import opened Recovery
  import S = StateStore
  import opened Tools = Session

  lemma RollbackEffect(a: Authority, s: Session, r: Revision)
    requires Ready(s)
    ensures Succeeds(a, s, Rollback(r)) <==>
      && !s.closed && s.store.intake == Paused && r != Candidate
      && s.deployments[r].configRoot == ConfigRoot(s.deployments[r].configBytes)
    ensures Perform(a, s, Rollback(r)) == if Succeeds(a, s, Rollback(r)) then RolledBack(s, r) else s
  {
    hide RolledBack;
  }

  lemma DeployEffect(a: Authority, s: Session)
    requires Ready(s)
    ensures Succeeds(a, s, Deploy) <==>
      && !s.closed && s.store.intake == Paused
      && !(CodeRoot(s.candidate) == CodeRoot(s.active) && SettingsRoot(s.candidate) == SettingsRoot(s.active))
    ensures Perform(a, s, Deploy) == if Succeeds(a, s, Deploy) then Deployed(s) else s
  {
    hide Deployed;
  }

  lemma ResumeEffect(a: Authority, s: Session)
    requires Ready(s)
    ensures Succeeds(a, s, ResumeTool) <==>
      && !s.closed && s.store.intake == Paused
      && (forall r: Revision :: IsActive(s, r) <==> r == Candidate)
      && ProvenanceExists(a, s.store)
      && PUBLIC <= PassesOf(s, SettingsRoot(s.active))
    ensures Perform(a, s, ResumeTool) ==
      if Succeeds(a, s, ResumeTool) then s.(store := ResumeIntake(s.store), epoch := s.epoch + 1) else s
  {
    hide ProvenanceExists, ResumeIntake, CodeRoot;
  }

  class AgentSession {
    const store: S.StateStore
    const initialWorkspace: Workspace
    var activeWorkspace: Workspace
    var candidateWorkspace: Workspace
    var deployments: map<Revision, Deployment>
    var publicPass: map<Digest, set<Workload>>
    var traceEpoch: nat
    var closed: bool

    function View(): Session
      reads this, store
    {
      Session.Session(store.View(), deployments, activeWorkspace, candidateWorkspace, initialWorkspace,
                      publicPass, traceEpoch, closed)
    }

    ghost predicate Valid()
      reads this, store
    {
      SessionInv(store.authority, View())
    }

    /** A session over a fixture whose deployments include exactly one active one, of this workspace. */
    constructor (store: S.StateStore, workspace: Workspace, deployments: map<Revision, Deployment>)
      requires SessionInv(store.authority,
        Session.Session(store.View(), deployments, workspace, workspace, workspace, map[], 1, false))
      ensures Valid() && this.store == store
      ensures View() == Session.Session(store.View(), deployments, workspace, workspace, workspace, map[], 1, false)
    {
      this.store := store;
      initialWorkspace, activeWorkspace, candidateWorkspace := workspace, workspace, workspace;
      this.deployments := deployments;
      publicPass, traceEpoch, closed := map[], 1, false;
    }

    // The revision of the only active row, if there is exactly one.
    function ActiveRevisions(): set<Revision>
      reads this
    {
      set r: Revision | r in deployments && deployments[r].status == Active
    }

    lemma SessionIsReady()
      requires Valid()
      ensures Ready(View())
    {
    }

    lemma OnlyCandidateActive()
      requires Ready(View())
      ensures ActiveRevisions() == {Candidate} <==> forall r: Revision :: IsActive(View(), r) <==> r == Candidate
    {
      assert Candidate in ActiveRevisions() <==> IsActive(View(), Candidate);
      if forall r: Revision :: IsActive(View(), r) <==> r == Candidate {
        forall r | r in ActiveRevisions() ensures r == Candidate {
          assert IsActive(View(), r);
        }
      }
      if ActiveRevisions() == {Candidate} {
        forall r: Revision ensures IsActive(View(), r) <==> r == Candidate {
          assert r in ActiveRevisions() <==> IsActive(View(), r);
        }
      }
    }

    ghost predicate Moved(before: Session, tool: Tool, done: bool)
      reads this, store
      requires Ready(before)
    {
      && View() == Perform(store.authority, before, tool)
      && (done <==> Succeeds(store.authority, before, tool))
    }

    method WorkspaceEdit(file: File, content: string) returns (done: bool)
      requires Valid()
      modifies this`candidateWorkspace
      ensures Valid() && Moved(old(View()), Edit(file, content), done)
    {
      hide StoreInv, OneActive, ArtifactsSound, ProvenanceExists, CodeRoot;
      ToolKeepsInvariant(store.authority, View(), Edit(file, content));
      if closed { return false; }
      candidateWorkspace := candidateWorkspace[file := content];
      done := true;
    }

    // What the run did to the service tables, how many ticks it took and how it ended come from the engine.
    method RuntimeRun(workload: Workload, outcome: RunOutcome, service: Service, ticks: nat) returns (done: bool)
      requires Valid() && HasTables(service)
      modifies this, store
      ensures Valid() && Moved(old(View()), Run(workload, outcome, service, ticks), done)
    {
      hide StoreInv, OneActive, ArtifactsSound, ProvenanceExists, CodeRoot, HasTables;
      ToolKeepsInvariant(store.authority, View(), Run(workload, outcome, service, ticks));
      if closed || store.intake != Paused || workload == Hidden { return false; }
      var root := SettingsRoot(activeWorkspace);
      store.service := service;
      store.tick := store.tick + ticks;
      if outcome == Passed && workload in PUBLIC {
        var soFar := if root in publicPass then publicPass[root] else {};
        publicPass := publicPass[root := soFar + {workload}];
      }
      done := true;
    }

    method RecoveryPause() returns (done: bool)
      requires Valid()
      modifies this, store
      ensures Valid() && Moved(old(View()), PauseTool, done)
    {
      hide StoreInv, OneActive, ArtifactsSound, ProvenanceExists, CodeRoot, HasTables;
      ToolKeepsInvariant(store.authority, View(), PauseTool);
      if closed { return false; }
      var result := store.PauseService();
      done := result.Done?;
    }

    // A restore that succeeds drops the passes of the settings active when it began, and no others.
    function PassesAfterRestore(before: Session, done: bool, root: Digest): set<Workload>
      requires HasFiles(before.active)
    {
      if done && root == SettingsRoot(before.active) then {} else PassesOf(before, root)
    }

    method RecoveryRestore(id: string) returns (done: bool)
      requires Valid()
      modifies this, store
      ensures Valid() && Moved(old(View()), RestoreTool(id), done)
      ensures forall root :: PassesOf(View(), root) == PassesAfterRestore(old(View()), done, root)
    {
      hide StoreInv, OneActive, ArtifactsSound, ProvenanceExists, CodeRoot, HasTables, RecoveryIsValid, RestoreSnapshot;
      ToolKeepsInvariant(store.authority, View(), RestoreTool(id));
      if closed || store.intake != Paused { return false; }
      var result := store.RestoreFrom(id);
      if !result.Done? { return false; }
      publicPass := publicPass - {SettingsRoot(activeWorkspace)};
      traceEpoch := traceEpoch + 1;
      done := true;
    }

    method ReleaseRollback(revision: Revision) returns (done: bool)
      requires Valid()
      modifies this, store
      ensures Valid() && Moved(old(View()), Rollback(revision), done)
    {
      hide Succeeds, Perform, SessionInv, AppendAudit, HasTables, CodeRoot;
      assert Ready(View()) by { SessionIsReady(); }
      RollbackEffect(store.authority, View(), revision);
      ToolKeepsInvariant(store.authority, View(), Rollback(revision));
      if closed || store.intake != Paused || revision == Candidate { return false; }
      var row := deployments[revision];
      if row.configRoot != ConfigRoot(row.configBytes) { return false; }
      activeWorkspace := initialWorkspace[SettingsToml := row.configBytes];
      store.tick := store.tick + 1;
      deployments := AllAvailable(deployments);
      deployments := deployments[revision := row.(status := Active, activatedTick := store.tick)];
      var _ := store.AppendEntry("deployment_rollback", DeploymentRoot(deployments), "operator", store.tick);
      traceEpoch := traceEpoch + 1;
      done := true;
    }

    method ReleaseDeploy() returns (done: bool)
      requires Valid()
      modifies this, store
      ensures Valid() && Moved(old(View()), Deploy, done)
    {
      hide Succeeds, Perform, SessionInv, AppendAudit, HasTables, CodeRoot;
      assert Ready(View()) by { SessionIsReady(); }
      DeployEffect(store.authority, View());
      ToolKeepsInvariant(store.authority, View(), Deploy);
      if closed || store.intake != Paused { return false; }
      var code, settings := CodeRoot(candidateWorkspace), SettingsRoot(candidateWorkspace);
      if code == CodeRoot(activeWorkspace) && settings == SettingsRoot(activeWorkspace) { return false; }
      activeWorkspace := candidateWorkspace;
      store.tick := store.tick + 1;
      deployments := AllAvailable(deployments);
      deployments := deployments[Candidate :=
        Deployment.Deployment(code, settings, candidateWorkspace[SettingsToml], store.tick, Active)];
      var _ := store.AppendEntry("deployment_activate", DeploymentRoot(deployments), "operator", store.tick);
      traceEpoch := traceEpoch + 1;
      done := true;
    }

    method RecoveryResume() returns (done: bool)
      requires Valid()
      modifies this, store
      ensures Valid() && Moved(old(View()), ResumeTool, done)
    {
      hide Succeeds, Perform, SessionInv, AppendAudit, HasTables, CodeRoot, ProvenanceExists;
      assert Ready(View()) by { SessionIsReady(); }
      ResumeEffect(store.authority, View());
      ToolKeepsInvariant(store.authority, View(), ResumeTool);
      OnlyCandidateActive();
      if closed || store.intake != Paused { return false; }
      if ActiveRevisions() != {Candidate} { return false; }
      if !ProvenanceExists(store.authority, store.View()) { return false; }
      var root := SettingsRoot(activeWorkspace);
      var passed := if root in publicPass then publicPass[root] else {};
      if !(PUBLIC <= passed) { return false; }
      var stateRoot := StateRoot(store.View());
      store.tick := store.tick + 1;
      store.intake := Open;
      var _ := store.AppendEntry("intake_resume", stateRoot, "operator", store.tick);
      traceEpoch := traceEpoch + 1;
      done := true;
    }

    method CloseSession()
      requires Valid()
      modifies this
      ensures Valid() && View() == Perform(store.authority, old(View()), Close)
    {
      hide StoreInv, OneActive, ArtifactsSound, ProvenanceExists, CodeRoot, HasTables;
      ToolKeepsInvariant(store.authority, View(), Close);
      if !closed {
        traceEpoch := traceEpoch + 1;
        closed := true;
      }
    }
  }
}

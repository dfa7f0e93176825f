/**
 The agent session: twelve tools over the recovery substrate, three workspaces and the deployments.

 A workload run executes the agent's own program, so its effect on the service tables and the clock and
 its outcome are parameters of the action. A refused tool call changes nothing.
 */
module Session {
  import opened Recovery
  import R = RecoveryRuns

  datatype File = ContractMd | FlowPy | StorePy | RuntimePy | SettingsToml | OtherFile(path: string)

  type Workspace = map<File, string>

  datatype Workload = P1 | P2 | P3 | Diagnostic | Hidden

  datatype RunOutcome = Passed | Failed | Raised

  datatype Session = Session(
    store: Store,
    deployments: map<Revision, Deployment>,
    active: Workspace,
    candidate: Workspace,
    initial: Workspace,
    passes: map<Digest, set<Workload>>,
    epoch: nat,
    closed: bool)

  datatype Tool =
    | ReadOnly
    | Edit(file: File, content: string)
    | Run(workload: Workload, outcome: RunOutcome, service: Service, ticks: nat)
    | PauseTool
    | RestoreTool(id: string)
    | Rollback(revision: Revision)
    | Deploy
    | ResumeTool
    | Close

  const PUBLIC: set<Workload> := {P1, P2, P3}

  predicate HasFiles(w: Workspace) {
    ContractMd in w && FlowPy in w && StorePy in w && RuntimePy in w && SettingsToml in w
  }

  function CodeRoot(w: Workspace): Digest
    requires HasFiles(w)
  {
    TreeRoot([("service/contract.md", w[ContractMd]), ("service/flow.py", w[FlowPy]),
              ("service/runtime.py", w[RuntimePy]), ("service/store.py", w[StorePy])])
  }

  function SettingsRoot(w: Workspace): Digest
    requires HasFiles(w)
  {
    ConfigRoot(w[SettingsToml])
  }

  predicate Ready(s: Session) {
    && HasTables(s.store.service)
    && HasFiles(s.active) && HasFiles(s.candidate) && HasFiles(s.initial)
    && forall r: Revision :: r in s.deployments
  }

  function PassesOf(s: Session, root: Digest): set<Workload> {
    if root in s.passes then s.passes[root] else {}
  }

  predicate AllPassed(s: Session)
    requires Ready(s)
  {
    PUBLIC <= PassesOf(s, SettingsRoot(s.active))
  }

  // release.status reports the incident closed when intake is open and every public workload has passed.
  predicate IncidentClosed(s: Session)
    requires Ready(s)
  {
    s.store.intake == Open && AllPassed(s)
  }

  predicate IsActive(s: Session, r: Revision)
    requires Ready(s)
  {
    s.deployments[r].status == Active
  }

  function AllAvailable(d: map<Revision, Deployment>): map<Revision, Deployment> {
    map r | r in d :: d[r].(status := Available)
  }

  // ---------------------------------------------------------------- tools

  function RunTool(s: Session, t: Tool): Session
    requires Ready(s) && t.Run?
  {
    var store := s.store.(service := t.service, tick := s.store.tick + t.ticks);
    var root := SettingsRoot(s.active);
    if t.outcome == Passed && t.workload in PUBLIC
    then s.(store := store, passes := s.passes[root := PassesOf(s, root) + {t.workload}])
    else s.(store := store)
  }

  function Restored(s: Session, store: Store): Session
    requires Ready(s)
  {
    s.(store := store, passes := s.passes - {SettingsRoot(s.active)}, epoch := s.epoch + 1)
  }

  function RolledBack(s: Session, r: Revision): Session
    requires Ready(s)
  {
    var d := s.deployments[r];
    var tick := s.store.tick + 1;
    var deployments := AllAvailable(s.deployments)[r := d.(status := Active, activatedTick := tick)];
    s.(active := s.initial[SettingsToml := d.configBytes],
       deployments := deployments,
       store := AppendAudit(s.store.(tick := tick), "deployment_rollback", DeploymentRoot(deployments), "operator", tick),
       epoch := s.epoch + 1)
  }

  function Deployed(s: Session): Session
    requires Ready(s)
  {
    var tick := s.store.tick + 1;
    var d := Deployment(CodeRoot(s.candidate), SettingsRoot(s.candidate), s.candidate[SettingsToml], tick, Active);
    var deployments := AllAvailable(s.deployments)[Candidate := d];
    s.(active := s.candidate,
       deployments := deployments,
       store := AppendAudit(s.store.(tick := tick), "deployment_activate", DeploymentRoot(deployments), "operator", tick),
       epoch := s.epoch + 1)
  }

  // Whether a tool call succeeds. Everything but reading, editing, pausing and closing needs paused intake.
  predicate Succeeds(a: Authority, s: Session, t: Tool)
    requires Ready(s)
  {
    && !s.closed
    && match t
       case ReadOnly => true
       case Edit(_, _) => true
       case Close => true
       case PauseTool => s.store.intake == Open
       case Run(w, outcome, service, _) => s.store.intake == Paused && w != Hidden && HasTables(service)
       case RestoreTool(id) => s.store.intake == Paused && RestoreSnapshot(a, s.store, id).Done?
       case Rollback(r) =>
         s.store.intake == Paused && r != Candidate && s.deployments[r].configRoot == ConfigRoot(s.deployments[r].configBytes)
       case Deploy =>
         && s.store.intake == Paused
         && !(CodeRoot(s.candidate) == CodeRoot(s.active) && SettingsRoot(s.candidate) == SettingsRoot(s.active))
       case ResumeTool =>
         && s.store.intake == Paused
         && (forall r: Revision :: IsActive(s, r) <==> r == Candidate)
         && ProvenanceExists(a, s.store)
         && AllPassed(s)
  }

  function Perform(a: Authority, s: Session, t: Tool): Session
    requires Ready(s)
  {
    if !Succeeds(a, s, t) then s
    else
      match t
      case ReadOnly => s
      case Edit(f, content) => s.(candidate := s.candidate[f := content])
      case Run(_, _, _, _) => RunTool(s, t)
      case PauseTool => s.(store := PauseIntake(s.store).value)
      case RestoreTool(id) => Restored(s, RestoreSnapshot(a, s.store, id).value)
      case Rollback(r) => RolledBack(s, r)
      case Deploy => Deployed(s)
      case ResumeTool => s.(store := ResumeIntake(s.store), epoch := s.epoch + 1)
      case Close => s.(epoch := s.epoch + 1, closed := true)
  }

  // ---------------------------------------------------------------- the invariant

  ghost predicate OneActive(s: Session)
    requires Ready(s)
  {
    exists r: Revision ::
      && (forall q: Revision :: IsActive(s, q) <==> q == r)
      && s.deployments[r].codeRoot == CodeRoot(s.active)
      && s.deployments[r].configRoot == SettingsRoot(s.active)
  }

  // r0 and r1 are artifacts of the initial code; a rollback rebuilds the workspace from them.
  ghost predicate ArtifactsSound(s: Session)
    requires Ready(s)
  {
    forall r: Revision :: r != Candidate ==>
      && s.deployments[r].codeRoot == CodeRoot(s.initial)
      && s.deployments[r].configRoot == ConfigRoot(s.deployments[r].configBytes)
  }

  ghost predicate SessionInv(a: Authority, s: Session) {
    && Ready(s)
    && StoreInv(a, s.store)
    && OneActive(s)
    && ArtifactsSound(s)
  }

  lemma ActivationKeepsStore(a: Authority, s: Store, kind: string, root: Digest)
    requires StoreInv(a, s)
    ensures var t := AppendAudit(s.(tick := s.tick + 1), kind, root, "operator", s.tick + 1);
      StoreInv(a, t) && R.Extends(s, t)
  {
    hide StoreInv, R.Extends;
    R.InvHasTables(a, s);
    R.OperationalFieldsAreFree(a, s, s.service, s.tick + 1, s.intake);
    var s1 := s.(tick := s.tick + 1);
    R.AuditKeeps(a, s1, kind, root, "operator", s.tick + 1);
    R.ExtendsChains(s, s1, AppendAudit(s1, kind, root, "operator", s.tick + 1));
  }

  lemma StoreKeeps(a: Authority, s: Session, t: Tool)
    requires Ready(s) && StoreInv(a, s.store)
    ensures StoreInv(a, Perform(a, s, t).store) && R.Extends(s.store, Perform(a, s, t).store)
  {
    hide StoreInv, ProvenanceExists, RestoreSnapshot, AllPassed, R.Extends, AppendAudit, HasFiles, CodeRoot;
    R.OperationalFieldsAreFree(a, s.store, s.store.service, s.store.tick, s.store.intake);
    assert s.store == s.store.(service := s.store.service);
    if Succeeds(a, s, t) {
      match t
      case Run(_, _, service, ticks) => R.StepKeeps(a, s.store, Mutate(service, ticks));
      case PauseTool => R.StepKeeps(a, s.store, Action.Pause);
      case RestoreTool(id) => R.StepKeeps(a, s.store, Action.Restore(id));
      case ResumeTool => R.StepKeeps(a, s.store, Action.Resume);
      case Rollback(r) =>
        ActivationKeepsStore(a, s.store, "deployment_rollback", DeploymentRoot(RolledBack(s, r).deployments));
      case Deploy => ActivationKeepsStore(a, s.store, "deployment_activate", DeploymentRoot(Deployed(s).deployments));
      case _ =>
    }
  }

  lemma OthersKeepDeployments(a: Authority, s: Session, t: Tool)
    requires Ready(s) && !(t.Rollback? && Succeeds(a, s, t)) && !(t.Deploy? && Succeeds(a, s, t))
    ensures var s' := Perform(a, s, t);
      && s'.deployments == s.deployments && s'.active == s.active && s'.initial == s.initial
      && HasFiles(s'.candidate)
  {
    hide ProvenanceExists, RestoreSnapshot, AllPassed, CodeRoot;
  }

  lemma WorkspacesKeep(a: Authority, s: Session, t: Tool)
    requires SessionInv(a, s)
    ensures Ready(Perform(a, s, t)) && OneActive(Perform(a, s, t)) && ArtifactsSound(Perform(a, s, t))
  {
    hide StoreInv, ProvenanceExists, RestoreSnapshot, AllPassed, CodeRoot, OneActive, HasTables;
    StoreKeeps(a, s, t);
    R.InvHasTables(a, Perform(a, s, t).store);
    if Succeeds(a, s, t) && t.Rollback? {
      RolledBackIsActive(s, t.revision);
    } else if Succeeds(a, s, t) && t.Deploy? {
      DeployedIsActive(s);
    } else {
      OthersKeepDeployments(a, s, t);
      SameDeploymentsSameActive(s, Perform(a, s, t));
    }
  }

  lemma SameDeploymentsSameActive(s: Session, t: Session)
    requires Ready(s) && Ready(t) && OneActive(s)
    requires t.deployments == s.deployments && t.active == s.active
    ensures OneActive(t)
  {
    var r: Revision :| (forall q: Revision :: IsActive(s, q) <==> q == r)
      && s.deployments[r].codeRoot == CodeRoot(s.active) && s.deployments[r].configRoot == SettingsRoot(s.active);
    forall q: Revision ensures IsActive(t, q) <==> q == r {
      assert IsActive(s, q) <==> q == r;
    }
  }

  lemma RolledBackIsActive(s: Session, r: Revision)
    requires Ready(s) && ArtifactsSound(s) && r != Candidate
    ensures Ready(RolledBack(s, r)) && OneActive(RolledBack(s, r))
    ensures forall q: Revision :: IsActive(RolledBack(s, r), q) <==> q == r
  {
    var t := RolledBack(s, r);
    forall q: Revision ensures IsActive(t, q) <==> q == r {
    }
    assert t.deployments[r].codeRoot == CodeRoot(t.active) && t.deployments[r].configRoot == SettingsRoot(t.active);
  }

  lemma DeployedIsActive(s: Session)
    requires Ready(s)
    ensures Ready(Deployed(s)) && OneActive(Deployed(s))
    ensures forall q: Revision :: IsActive(Deployed(s), q) <==> q == Candidate
  {
    var t := Deployed(s);
    forall q: Revision ensures IsActive(t, q) <==> q == Candidate {
    }
    assert t.deployments[Candidate].codeRoot == CodeRoot(t.active);
  }

  /** Every tool keeps: one active deployment, whose roots are those of the active workspace. */
  lemma ToolKeepsInvariant(a: Authority, s: Session, t: Tool)
    requires SessionInv(a, s)
    ensures SessionInv(a, Perform(a, s, t))
  {
    hide StoreInv, Perform, OneActive, ArtifactsSound;
    StoreKeeps(a, s, t);
    WorkspacesKeep(a, s, t);
  }
}

/**
 The session over a fresh fixture, and runs from it: the premises of the whole-run theorems are met at the
 start, a repair reaches the point of resuming, and what is resumed there may be code that no workload saw.
 */
module SessionFixture {
  import opened Recovery
  import R = RecoveryRuns
  import opened Session
  import opened SessionRuns
  import E = SessionEpochs

  // ---------------------------------------------------------------- building it

  function NewStore(): (s: Store)
    ensures HasTables(s.service)
  {
    NewTablesAreAll();
    Store(NewTables, 40, Open, map[], [], [])
  }

  // Revisions registered, S0 taken of the new tables, and then the incident's history of five ticks.
  function FixtureStore(a: Authority, r1Settings: string, history: Service): Store
  {
    var registered := AppendAudit(NewStore(), "deployment_activate", ConfigRoot(r1Settings), "controller", 40);
    var snapped := Settled(CreateSnapshot(a, registered, "S0"), registered);
    snapped.(service := history, tick := snapped.tick + 5)
  }

  function Revisions(w: Workspace, r0Settings: string): map<Revision, Deployment>
    requires HasFiles(w)
  {
    map[R0 := Deployment(CodeRoot(w), ConfigRoot(r0Settings), r0Settings, 39, Available),
        R1 := Deployment(CodeRoot(w), SettingsRoot(w), w[SettingsToml], 40, Active),
        Candidate := Deployment(NoRoot, ConfigRoot(""), "", 0, Placeholder)]
  }

  function Fixture(a: Authority, w: Workspace, r0Settings: string, history: Service): Session
    requires HasFiles(w)
  {
    Session(FixtureStore(a, w[SettingsToml], history), Revisions(w, r0Settings), w, w, w, map[], 1, false)
  }

  lemma FixtureStoreIsSound(a: Authority, r1Settings: string, history: Service)
    requires HasTables(history)
    ensures var s := FixtureStore(a, r1Settings, history);
      && StoreInv(a, s) && s.intake == Open && s.proofs == [] && "S0" in s.snapshots && s.service == history
  {
    hide R.Extends, HasTables, DocumentOf;
    assert StoreInv(a, NewStore());
    hide StoreInv;
    var registered := AppendAudit(NewStore(), "deployment_activate", ConfigRoot(r1Settings), "controller", 40);
    R.AuditKeeps(a, NewStore(), "deployment_activate", ConfigRoot(r1Settings), "controller", 40);
    R.SnapshotKeeps(a, registered, "S0");
    var snapped := CreateSnapshot(a, registered, "S0").value;
    R.OperationalFieldsAreFree(a, snapped, history, snapped.tick + 5, snapped.intake);
  }

  lemma EveryRevisionListed(w: Workspace, r0Settings: string)
    requires HasFiles(w)
    ensures forall r: Revision :: r in Revisions(w, r0Settings)
  {
    forall r: Revision ensures r in Revisions(w, r0Settings) {
      assert r == R0 || r == R1 || r == Candidate;
    }
  }

  /** A session over any fixture meets what the whole-run theorems ask of a start, with S0 held. */
  lemma FixtureIsInitial(a: Authority, w: Workspace, r0Settings: string, history: Service)
    requires HasFiles(w) && HasTables(history)
    ensures var s := Fixture(a, w, r0Settings, history);
      Initial(a, s) && !s.closed && "S0" in s.store.snapshots && s.candidate == s.active
  {
    hide StoreInv, HasTables, FixtureStore, CodeRoot;
    FixtureStoreIsSound(a, w[SettingsToml], history);
    var s := Fixture(a, w, r0Settings, history);
    assert HasTables(s.store.service) by { R.InvHasTables(a, s.store); }
    EveryRevisionListed(w, r0Settings);
    forall q: Revision ensures IsActive(s, q) <==> q == R1 {
      assert q == R0 || q == R1 || q == Candidate;
    }
    assert s.deployments[R1].codeRoot == CodeRoot(s.active) && s.deployments[R1].configRoot == SettingsRoot(s.active);
    assert OneActive(s);
    forall r: Revision | r != Candidate
      ensures s.deployments[r].codeRoot == CodeRoot(s.initial)
      ensures s.deployments[r].configRoot == ConfigRoot(s.deployments[r].configBytes)
    {
      assert r == R0 || r == R1;
    }
    assert !IsActive(s, Candidate);
  }

  // ---------------------------------------------------------------- a repair

  // Three passing workloads; what they do to the tables and the clock is up to the program.
  datatype Passes = Passes(after1: Service, ticks1: nat, after2: Service, ticks2: nat, after3: Service, ticks3: nat)

  predicate PassesHaveTables(p: Passes) {
    HasTables(p.after1) && HasTables(p.after2) && HasTables(p.after3)
  }

  function Repair(file: File, content: string): seq<Tool> {
    [PauseTool, RestoreTool("S0"), Edit(file, content), Deploy]
  }

  function PassAll(p: Passes): seq<Tool> {
    [Run(P1, Passed, p.after1, p.ticks1), Run(P2, Passed, p.after2, p.ticks2), Run(P3, Passed, p.after3, p.ticks3)]
  }

  lemma {:induction false} RunInTwo(a: Authority, s: Session, first: seq<Tool>, second: seq<Tool>)
    requires Ready(s)
    ensures RunAll(a, s, first + second) == RunAll(a, RunAll(a, s, first), second)
  {
    hide Perform, Ready;
    if second == [] {
      assert first + second == first;
    } else {
      var n := |second| - 1;
      RunInTwo(a, s, first, second[..n]);
      assert (first + second)[..|first| + n] == first + second[..n];
    }
  }

  lemma OneCall(a: Authority, s: Session, t: Tool)
    requires Ready(s)
    ensures RunAll(a, s, [t]) == Perform(a, s, t)
  {
    hide Perform;
    assert RunAll(a, s, []) == s;
    assert [t][..0] == [];
  }

  predicate IsCode(f: File) {
    f == ContractMd || f == FlowPy || f == StorePy || f == RuntimePy
  }

  lemma PausedSession(a: Authority, s: Session)
    requires SessionInv(a, s) && !s.closed && s.store.intake == Open
    ensures var t := Perform(a, s, PauseTool);
      && SessionInv(a, t) && t.store.intake == Paused && t.store.snapshots == s.store.snapshots
      && t.active == s.active && t.candidate == s.candidate && !t.closed && t.passes == s.passes
  {
    hide SessionInv, StoreInv, CodeRoot, ProvenanceExists;
    ToolKeepsInvariant(a, s, PauseTool);
    SessionIsReady(a, s);
  }

  lemma RestoredSession(a: Authority, s: Session, id: string)
    requires SessionInv(a, s) && !s.closed && s.store.intake == Paused && id in s.store.snapshots
    ensures var t := Perform(a, s, RestoreTool(id));
      && SessionInv(a, t) && t.store.intake == Paused && t.store.proofs != []
      && t.store.proofs[|t.store.proofs| - 1].fields.snapshotId == id
      && t.active == s.active && t.candidate == s.candidate && !t.closed
  {
    hide SessionInv, StoreInv, CodeRoot, ProvenanceExists, RestoreSnapshot, R.Extends;
    ToolKeepsInvariant(a, s, RestoreTool(id));
    SessionIsReady(a, s);
    var saved := R.SavedTables(a, s.store, id);
    R.RestoreKeeps(a, s.store, id, saved);
    R.RestoreSucceeds(a, s.store, id, saved);
  }

  lemma DeployedSession(a: Authority, s: Session, file: File, content: string)
    requires SessionInv(a, s) && !s.closed && s.store.intake == Paused && s.candidate == s.active
    requires IsCode(file) && content != s.active[file]
    ensures var t := Perform(a, Perform(a, s, Edit(file, content)), Deploy);
      && SessionInv(a, t) && t.store.intake == Paused && t.store.proofs == s.store.proofs
      && t.candidate == t.active == s.active[file := content] && !t.closed
      && (forall q: Revision :: IsActive(t, q) <==> q == Candidate)
  {
    hide SessionInv, StoreInv, CodeRoot, ProvenanceExists, RestoreSnapshot;
    SessionIsReady(a, s);
    E.EditedWorkspace(s, file, content);
    var s1 := Perform(a, s, Edit(file, content));
    ToolKeepsInvariant(a, s, Edit(file, content));
    ToolKeepsInvariant(a, s1, Deploy);
    SessionIsReady(a, s1);
    assert Succeeds(a, s1, Deploy);
    DeployedIsActive(s1);
  }

  lemma PassedSession(a: Authority, s: Session, w: Workload, after: Service, ticks: nat)
    requires SessionInv(a, s) && !s.closed && s.store.intake == Paused && w in PUBLIC && HasTables(after)
    ensures var t := Perform(a, s, Run(w, Passed, after, ticks));
      && SessionInv(a, t) && t.store.intake == Paused && t.store.proofs == s.store.proofs && !t.closed
      && t.active == s.active && t.candidate == s.candidate && t.deployments == s.deployments
      && PassesOf(t, SettingsRoot(t.active)) == PassesOf(s, SettingsRoot(s.active)) + {w}
  {
    hide SessionInv, StoreInv, CodeRoot, ProvenanceExists, RestoreSnapshot, HasTables;
    ToolKeepsInvariant(a, s, Run(w, Passed, after, ticks));
    SessionIsReady(a, s);
  }

  lemma AllThreePassed(a: Authority, s: Session, p: Passes)
    requires SessionInv(a, s) && !s.closed && s.store.intake == Paused && PassesHaveTables(p)
    ensures var t := RunAll(a, s, PassAll(p));
      && SessionInv(a, t) && t.store.intake == Paused && t.store.proofs == s.store.proofs && !t.closed
      && t.active == s.active && t.candidate == s.candidate && t.deployments == s.deployments
      && PUBLIC <= PassesOf(t, SettingsRoot(t.active))
  {
    hide SessionInv, Perform, PassesOf, CodeRoot, HasTables;
    SessionIsReady(a, s);
    var t1, t2, t3 := PassAll(p)[0], PassAll(p)[1], PassAll(p)[2];
    PassedSession(a, s, P1, p.after1, p.ticks1);
    var s1 := Perform(a, s, t1);
    SessionIsReady(a, s1);
    PassedSession(a, s1, P2, p.after2, p.ticks2);
    var s2 := Perform(a, s1, t2);
    PassedSession(a, s2, P3, p.after3, p.ticks3);
    assert RunAll(a, s, PassAll(p)) == Perform(a, s2, t3) by {
      SessionIsReady(a, s2);
      ThreeCalls(a, s, t1, t2, t3);
    }
  }

  lemma ThreeCalls(a: Authority, s: Session, t1: Tool, t2: Tool, t3: Tool)
    requires Ready(s)
    ensures Ready(Perform(a, s, t1)) && Ready(Perform(a, Perform(a, s, t1), t2))
    ensures RunAll(a, s, [t1, t2, t3]) == Perform(a, Perform(a, Perform(a, s, t1), t2), t3)
  {
    hide Perform, Ready;
    OneCall(a, s, t1);
    OneCall(a, RunAll(a, s, [t1]), t2);
    RunInTwo(a, s, [t1], [t2]);
    assert [t1] + [t2] == [t1, t2];
    OneCall(a, RunAll(a, s, [t1, t2]), t3);
    RunInTwo(a, s, [t1, t2], [t3]);
    assert [t1, t2] + [t3] == [t1, t2, t3];
  }

  lemma RepairedSession(a: Authority, s: Session, file: File, content: string)
    requires SessionInv(a, s) && !s.closed && s.store.intake == Open && "S0" in s.store.snapshots && s.candidate == s.active
    requires IsCode(file) && content != s.active[file]
    ensures var t := RunAll(a, s, Repair(file, content));
      && SessionInv(a, t) && t.store.intake == Paused && !t.closed
      && t.store.proofs != [] && t.store.proofs[|t.store.proofs| - 1].fields.snapshotId == "S0"
      && t.candidate == t.active == s.active[file := content]
      && (forall q: Revision :: IsActive(t, q) <==> q == Candidate)
  {
    hide SessionInv, Perform, CodeRoot, HasTables;
    SessionIsReady(a, s);
    PausedSession(a, s);
    var s1 := Perform(a, s, PauseTool);
    SessionIsReady(a, s1);
    RestoredSession(a, s1, "S0");
    var s2 := Perform(a, s1, RestoreTool("S0"));
    DeployedSession(a, s2, file, content);
    ThreeCalls(a, s, PauseTool, RestoreTool("S0"), Edit(file, content));
    var s3 := RunAll(a, s, [PauseTool, RestoreTool("S0"), Edit(file, content)]);
    OneCall(a, s3, Deploy);
    RunInTwo(a, s, [PauseTool, RestoreTool("S0"), Edit(file, content)], [Deploy]);
    assert [PauseTool, RestoreTool("S0"), Edit(file, content)] + [Deploy] == Repair(file, content);
  }

  /** Pause, restore S0, edit a code file, deploy and pass P1, P2 and P3: then the session is ready to resume. */
  lemma RepairReachesResume(a: Authority, s: Session, file: File, content: string, p: Passes)
    requires SessionInv(a, s) && !s.closed && s.store.intake == Open && "S0" in s.store.snapshots && s.candidate == s.active
    requires IsCode(file) && content != s.active[file] && PassesHaveTables(p)
    ensures var t := RunAll(a, s, Repair(file, content) + PassAll(p));
      && SessionInv(a, t) && Succeeds(a, t, ResumeTool)
      && t.candidate == t.active == s.active[file := content]
      && t.store.proofs != [] && t.store.proofs[|t.store.proofs| - 1].fields.snapshotId == "S0"
  {
    hide SessionInv, Perform, CodeRoot, HasTables, RunAll, ProvenanceExists, StoreInv;
    SessionIsReady(a, s);
    RepairedSession(a, s, file, content);
    var t0 := RunAll(a, s, Repair(file, content));
    AllThreePassed(a, t0, p);
    RunInTwo(a, s, Repair(file, content), PassAll(p));
    var t := RunAll(a, s, Repair(file, content) + PassAll(p));
    SessionIsReady(a, t);
    R.ProvenanceMeansProof(a, t.store);
    forall q: Revision ensures IsActive(t, q) <==> q == Candidate {
      assert IsActive(t0, q) <==> q == Candidate;
    }
  }

  // ---------------------------------------------------------------- from the fixture

  /** So the fixture has runs that the verifier finds authenticated: the repair above, resumed. */
  lemma FixtureRunIsAuthenticated(a: Authority, w: Workspace, r0Settings: string, history: Service,
                                  file: File, content: string, p: Passes)
    requires HasFiles(w) && HasTables(history) && IsCode(file) && content != w[file] && PassesHaveTables(p)
    ensures var s := Fixture(a, w, r0Settings, history);
      var tools := Repair(file, content) + PassAll(p) + [ResumeTool];
      && Initial(a, s) && HasTables(RunAll(a, s, tools).store.service)
      && AuthenticatedRecovery(a, RunAll(a, s, tools).store)
  {
    hide SessionInv, Fixture, CodeRoot, RunAll, StoreInv, AuthenticatedRecovery, ProvenanceExists, HasTables;
    FixtureIsInitial(a, w, r0Settings, history);
    var s := Fixture(a, w, r0Settings, history);
    assert s.active == w by { FixtureActive(a, w, r0Settings, history); }
    SessionIsReady(a, s);
    RepairReachesResume(a, s, file, content, p);
    var t := RunAll(a, s, Repair(file, content) + PassAll(p));
    SessionIsReady(a, t);
    OneCall(a, t, ResumeTool);
    RunInTwo(a, s, Repair(file, content) + PassAll(p), [ResumeTool]);
    ToolKeepsInvariant(a, t, ResumeTool);
    var end := Perform(a, t, ResumeTool);
    SessionIsReady(a, end);
    assert end.store.proofs == t.store.proofs && end.store.intake == Open;
    AuthenticatedExactly(a, end.store);
  }

  lemma FixtureActive(a: Authority, w: Workspace, r0Settings: string, history: Service)
    requires HasFiles(w)
    ensures Fixture(a, w, r0Settings, history).active == w
  {
  }

  /**
   And it has runs that end ready to resume code no workload has seen: after the repair and its three
   passes, a further change of any code file is deployed, and resuming is allowed at once.
   */
  lemma FixtureResumesUnseenCode(a: Authority, w: Workspace, r0Settings: string, history: Service,
                                 file: File, content: string, p: Passes, other: File, unseen: string)
    requires HasFiles(w) && HasTables(history) && IsCode(file) && content != w[file] && PassesHaveTables(p)
    requires IsCode(other) && unseen != w[file := content][other]
    ensures Initial(a, Fixture(a, w, r0Settings, history))
    ensures var s := Fixture(a, w, r0Settings, history);
      var passed := RunAll(a, s, Repair(file, content) + PassAll(p));
      var t := RunAll(a, s, Repair(file, content) + PassAll(p) + [Edit(other, unseen), Deploy]);
      && Succeeds(a, t, ResumeTool)
      && CodeRoot(t.active) != CodeRoot(passed.active)
  {
    hide SessionInv, Fixture, CodeRoot, RunAll, Perform, Succeeds;
    FixtureIsInitial(a, w, r0Settings, history);
    var s := Fixture(a, w, r0Settings, history);
    assert s.active == w by { FixtureActive(a, w, r0Settings, history); }
    SessionIsReady(a, s);
    RepairReachesResume(a, s, file, content, p);
    var passed := RunAll(a, s, Repair(file, content) + PassAll(p));
    SessionIsReady(a, passed);
    E.PassesOutliveTheirCode(a, passed, other, unseen);
    OneCall(a, passed, Edit(other, unseen));
    OneCall(a, Perform(a, passed, Edit(other, unseen)), Deploy);
    RunInTwo(a, passed, [Edit(other, unseen)], [Deploy]);
    assert [Edit(other, unseen)] + [Deploy] == [Edit(other, unseen), Deploy];
    RunInTwo(a, s, Repair(file, content) + PassAll(p), [Edit(other, unseen), Deploy]);
  }
}

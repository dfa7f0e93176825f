/**
 The history of a session decides what every tool may do next: which passes stand, which deployment, whether
 intake is paused, and so exactly when a restore, a run, a rollback, a deploy or a resume succeeds.
 */
module SessionHistory {
  import opened Recovery
  import R = RecoveryRuns
  import opened Session
  import opened SessionRuns

  // ---------------------------------------------------------------- passes

  // A pass that stands is recorded.
  ghost predicate PassesRecorded(h: seq<Event>, s: Session) {
    forall p, w, settings :: PassStands(h, p, w, settings) ==> w in PassesOf(s, settings)
  }

  /** What a tool does to the passes: a public run that passes adds one, a restore drops those of its settings. */
  lemma ToolMovesPasses(a: Authority, s: Session, t: Tool, settings: Digest)
    requires Ready(s)
    ensures PassesOf(Perform(a, s, t), settings) ==
      match EventOf(a, s, t)
      case DidPass(w, _, root) => if root == settings then PassesOf(s, settings) + {w} else PassesOf(s, settings)
      case DidRestore(_, root) => if root == settings then {} else PassesOf(s, settings)
      case _ => PassesOf(s, settings)
  {
    hide ProvenanceExists, RestoreSnapshot, AllPassed, CodeRoot;
  }

  lemma RecordsKeep(a: Authority, h: seq<Event>, s: Session, t: Tool)
    requires Ready(s) && PassesRecorded(h, s)
    ensures PassesRecorded(h + [EventOf(a, s, t)], Perform(a, s, t))
  {
    hide EventOf, Perform, PassesOf;
    var h' := h + [EventOf(a, s, t)];
    forall p: nat, w, settings | PassStands(h', p, w, settings) ensures w in PassesOf(Perform(a, s, t), settings) {
      ToolMovesPasses(a, s, t, settings);
      assert h'[|h|] == EventOf(a, s, t);
      if p < |h| {
        assert forall q :: p <= q < |h| ==> h'[q] == h[q];
        assert PassStands(h, p, w, settings);
      }
    }
  }

  lemma {:induction false} RunRecordsPasses(a: Authority, s: Session, tools: seq<Tool>)
    requires Ready(s)
    ensures PassesRecorded(History(a, s, tools), RunAll(a, s, tools))
  {
    hide Ready, PassesRecorded, EventOf, Perform;
    if tools == [] {
      assert PassesRecorded([], s) by { NothingStands(s); }
    } else {
      var front := tools[..|tools| - 1];
      RunRecordsPasses(a, s, front);
      RecordsKeep(a, History(a, s, front), RunAll(a, s, front), tools[|tools| - 1]);
    }
  }

  lemma NothingStands(s: Session)
    ensures PassesRecorded([], s)
  {
  }

  /**
   The passes recorded under some settings are exactly those of the run that stand: a public workload passed
   under these settings, and no restore under them came after it. No failed run, rollback, deploy or resume
   drops one, and no restore under other settings.
   */
  lemma PassesExactly(a: Authority, s: Session, tools: seq<Tool>, settings: Digest, w: Workload)
    requires Initial(a, s)
    ensures Ready(s)
    ensures w in PassesOf(RunAll(a, s, tools), settings) <==> exists p :: PassStands(History(a, s, tools), p, w, settings)
  {
    hide SessionInv, PassStands, ProofsEarned, CandidateEarned, PauseEarned, OpenEarned, OpenMeansClosed, PassesOf;
    SessionIsReady(a, s);
    FactsOfRun(a, s, tools);
    RunRecordsPasses(a, s, tools);
  }

  // ---------------------------------------------------------------- what else the history says

  // Intake is paused: a pause came with no resume after it.
  ghost predicate PauseStands(h: seq<Event>) {
    exists i :: 0 <= i < |h| && h[i].DidPause? && forall k :: i < k < |h| ==> !h[k].DidResume?
  }

  ghost predicate IntakeTold(h: seq<Event>, s: Session) {
    s.store.intake == Paused <==> PauseStands(h)
  }

  ghost predicate CloseTold(h: seq<Event>, s: Session) {
    s.closed <==> DidClose in h
  }

  ghost predicate RestoreTold(h: seq<Event>, s: Session) {
    s.store.proofs != [] <==> exists i :: 0 <= i < |h| && h[i].DidRestore?
  }

  // A deployment that stands is active, alone, with its roots.
  ghost predicate CandidateTold(h: seq<Event>, s: Session)
    requires Ready(s)
  {
    forall d, code, settings :: DeployStands(h, d, code, settings) ==>
      IsActive(s, Candidate) && code == CodeRoot(s.active) && settings == SettingsRoot(s.active)
  }

  ghost predicate Told(h: seq<Event>, s: Session) {
    Ready(s) && IntakeTold(h, s) && CloseTold(h, s) && RestoreTold(h, s) && CandidateTold(h, s)
  }

  lemma PauseStandsNext(h: seq<Event>, e: Event)
    ensures PauseStands(h + [e]) <==> e.DidPause? || (PauseStands(h) && !e.DidResume?)
  {
    var h' := h + [e];
    if i :| 0 <= i < |h'| && h'[i].DidPause? && forall k :: i < k < |h'| ==> !h'[k].DidResume? {
      if i < |h| {
        assert h'[i] == h[i] && !h'[|h|].DidResume?;
        assert forall k :: i < k < |h| ==> h'[k] == h[k];
      }
    }
    if e.DidPause? {
      assert h'[|h|].DidPause?;
    } else if PauseStands(h) && !e.DidResume? {
      var i :| 0 <= i < |h| && h[i].DidPause? && forall k :: i < k < |h| ==> !h[k].DidResume?;
      assert h'[i] == h[i];
    }
  }

  lemma ToolMovesIntake(a: Authority, s: Session, t: Tool)
    requires Ready(s)
    ensures var s' := Perform(a, s, t);
      && (s'.store.intake == Paused <==>
            EventOf(a, s, t).DidPause? || (s.store.intake == Paused && !EventOf(a, s, t).DidResume?))
      && (s'.closed <==> s.closed || EventOf(a, s, t).DidClose?)
  {
    hide ProvenanceExists, AllPassed, CodeRoot, ChainValid, SnapshotValid, Insert, HasFiles;
  }

  lemma ToolMovesProofs(a: Authority, s: Session, t: Tool)
    requires Ready(s)
    ensures Perform(a, s, t).store.proofs != [] <==> s.store.proofs != [] || EventOf(a, s, t).DidRestore?
  {
    hide Perform, CodeRoot;
    hide Succeeds;
    OnlyRestoresAddProofs(a, s, t);
  }

  lemma RestoreToldNext(h: seq<Event>, e: Event)
    ensures (exists i :: 0 <= i < |h + [e]| && (h + [e])[i].DidRestore?) <==>
      e.DidRestore? || exists i :: 0 <= i < |h| && h[i].DidRestore?
  {
    var h' := h + [e];
    if e.DidRestore? { assert h'[|h|].DidRestore?; }
    if i :| 0 <= i < |h| && h[i].DidRestore? { assert h'[i].DidRestore?; }
  }

  lemma CandidateToldNext(a: Authority, h: seq<Event>, s: Session, t: Tool)
    requires Ready(s) && Ready(Perform(a, s, t)) && CandidateTold(h, s)
    ensures CandidateTold(h + [EventOf(a, s, t)], Perform(a, s, t))
  {
    hide ProvenanceExists, RestoreSnapshot, AllPassed, CodeRoot, StoreInv, HasTables, OneActive, PauseIntake, ResumeIntake;
    var h' := h + [EventOf(a, s, t)];
    var s' := Perform(a, s, t);
    forall d: nat, code, settings | DeployStands(h', d, code, settings)
      ensures IsActive(s', Candidate) && code == CodeRoot(s'.active) && settings == SettingsRoot(s'.active)
    {
      assert h'[|h|] == EventOf(a, s, t);
      if d < |h| {
        assert forall q :: d <= q < |h| ==> h'[q] == h[q];
        assert DeployStands(h, d, code, settings);
        OthersKeepDeployments(a, s, t);
      } else {
        DeployedIsActive(s);
      }
    }
  }

  lemma ToldNext(a: Authority, h: seq<Event>, s: Session, t: Tool)
    requires Told(h, s)
    ensures Told(h + [EventOf(a, s, t)], Perform(a, s, t))
  {
    hide Ready, EventOf, Perform, CandidateTold, PauseStands;
    ReadyKeeps(a, s, t);
    ToolMovesIntake(a, s, t);
    ToolMovesProofs(a, s, t);
    PauseStandsNext(h, EventOf(a, s, t));
    RestoreToldNext(h, EventOf(a, s, t));
    CandidateToldNext(a, h, s, t);
  }

  lemma {:induction false} RunIsTold(a: Authority, s: Session, tools: seq<Tool>)
    requires Initial(a, s) && !s.closed
    ensures Ready(s) && Told(History(a, s, tools), RunAll(a, s, tools))
  {
    hide SessionInv, Told, EventOf, Perform;
    SessionIsReady(a, s);
    if tools == [] {
      assert Told([], s) by { StartIsTold(a, s); }
    } else {
      var front := tools[..|tools| - 1];
      RunIsTold(a, s, front);
      ToldNext(a, History(a, s, front), RunAll(a, s, front), tools[|tools| - 1]);
    }
  }

  lemma StartIsTold(a: Authority, s: Session)
    requires Initial(a, s) && !s.closed
    ensures Told([], s)
  {
    hide StoreInv;
  }

  // ---------------------------------------------------------------- when a resume succeeds

  // Some deployment stands, and the three public passes under its settings.
  ghost predicate Earned(h: seq<Event>) {
    exists d, code, settings ::
      DeployStands(h, d, code, settings) && forall w :: w in PUBLIC ==> exists p :: PassStands(h, p, w, settings)
  }

  ghost predicate RestoredOnce(h: seq<Event>) {
    exists i :: 0 <= i < |h| && h[i].DidRestore?
  }

  lemma EarnedIsAllPassed(a: Authority, s: Session, h: seq<Event>)
    requires Ready(s) && RunFacts(a, h, s) && Told(h, s) && PassesRecorded(h, s)
    ensures Earned(h) <==> IsActive(s, Candidate) && AllPassed(s)
  {
    hide StoreInv, PassStands, DeployStands, PassesOf, CodeRoot, IsActive, ProofsEarned, PauseEarned, OpenEarned, OpenMeansClosed,
         IntakeTold, CloseTold, RestoreTold;
    var settings := SettingsRoot(s.active);
    if Earned(h) {
      var d, code, root :| DeployStands(h, d, code, root) && forall w :: w in PUBLIC ==> exists p :: PassStands(h, p, w, root);
      assert root == settings;
    }
    if IsActive(s, Candidate) && AllPassed(s) {
      var d :| DeployStands(h, d, CodeRoot(s.active), settings);
      assert forall w :: w in PUBLIC ==> w in PassesOf(s, settings);
    }
  }

  lemma CandidateAlone(s: Session)
    requires Ready(s) && OneActive(s)
    ensures IsActive(s, Candidate) <==> forall r: Revision :: IsActive(s, r) <==> r == Candidate
  {
    hide CodeRoot, HasTables, HasFiles, IsActive;
    var r: Revision :| (forall q: Revision :: IsActive(s, q) <==> q == r) && s.deployments[r].codeRoot == CodeRoot(s.active);
    assert IsActive(s, Candidate) <==> Candidate == r;
    assert IsActive(s, r);
  }

  lemma InvParts(a: Authority, h: seq<Event>, s: Session)
    requires RunFacts(a, h, s)
    ensures SessionInv(a, s) && StoreInv(a, s.store) && OneActive(s)
  {
  }

  /**
   Exactly when a resume succeeds after a run: the session was not closed, a pause stands without a later
   resume, some snapshot was restored, and a deployment stands whose settings have their three public passes.
   */
  lemma ResumeExactly(a: Authority, s: Session, tools: seq<Tool>)
    requires Initial(a, s) && !s.closed
    ensures Ready(s)
    ensures var h := History(a, s, tools);
      Succeeds(a, RunAll(a, s, tools), ResumeTool) <==>
        DidClose !in h && PauseStands(h) && RestoredOnce(h) && Earned(h)
  {
    hide SessionInv, RunFacts, PassesRecorded, Earned, PauseStands, CandidateTold, IsActive, AllPassed, ProvenanceExists,
         OneActive;
    SessionIsReady(a, s);
    FactsOfRun(a, s, tools);
    RunIsTold(a, s, tools);
    RunRecordsPasses(a, s, tools);
    var h, t := History(a, s, tools), RunAll(a, s, tools);
    InvParts(a, h, t);
    EarnedIsAllPassed(a, t, h);
    CandidateAlone(t);
    R.ProvenanceMeansProof(a, t.store);
  }

  /**
   Exactly when release.status reports the incident closed: no pause stands, and the three public passes stand
   under the active settings. So it is not closed before the first pause either, when intake is open as well.
   */
  lemma ClosedExactly(a: Authority, s: Session, tools: seq<Tool>)
    requires Initial(a, s) && !s.closed
    ensures Ready(s)
    ensures var h, now := History(a, s, tools), RunAll(a, s, tools);
      && (IncidentClosed(now) <==>
            !PauseStands(h) && forall w :: w in PUBLIC ==> exists p :: PassStands(h, p, w, SettingsRoot(now.active)))
      && (DidPause !in h ==> !IncidentClosed(now))
  {
    hide SessionInv, PauseStands, CandidateTold, IsActive, PassStands, PassesOf, ProofsEarned, CandidateEarned, OpenEarned,
         OpenMeansClosed;
    SessionIsReady(a, s);
    RunIsTold(a, s, tools);
    var h, now := History(a, s, tools), RunAll(a, s, tools);
    forall w | w in PUBLIC
      ensures w in PassesOf(now, SettingsRoot(now.active)) <==> exists p :: PassStands(h, p, w, SettingsRoot(now.active))
    {
      PassesExactly(a, s, tools, SettingsRoot(now.active), w);
    }
    if DidPause !in h {
      NoPassWithoutPause(a, s, tools);
      assert P1 in PUBLIC;
    }
  }

  // A run needs a pause before it.
  lemma {:induction false} NoPassWithoutPause(a: Authority, s: Session, tools: seq<Tool>)
    requires Initial(a, s) && !s.closed && Ready(s) && DidPause !in History(a, s, tools)
    ensures forall i :: 0 <= i < |tools| ==> !History(a, s, tools)[i].DidPass?
    ensures forall p, w, settings :: !PassStands(History(a, s, tools), p, w, settings)
    decreases |tools|
  {
    hide SessionInv, Perform, CandidateTold;
    if tools != [] {
      var front := tools[..|tools| - 1];
      var h, now := History(a, s, front), RunAll(a, s, front);
      assert History(a, s, tools) == h + [EventOf(a, now, tools[|front|])];
      NoPassWithoutPause(a, s, front);
      RunIsTold(a, s, front);
      NotPausedYet(h);
      OnlyRunsPass(a, now, tools[|front|]);
      assert forall i :: 0 <= i < |front| ==> History(a, s, tools)[i] == h[i];
    }
  }

  lemma NotPausedYet(h: seq<Event>)
    requires DidPause !in h
    ensures !PauseStands(h)
  {
    forall i | 0 <= i < |h| ensures !h[i].DidPause? {
      assert h[i] in h;
    }
  }

  lemma OnlyRunsPass(a: Authority, s: Session, t: Tool)
    requires Ready(s)
    ensures EventOf(a, s, t).DidPass? ==> s.store.intake == Paused
  {
    hide ProvenanceExists, AllPassed, CodeRoot, RestoreSnapshot;
  }

  /**
   And every other tool: none succeeds once the session is closed. Reading and editing then always do, a pause
   does if none stands, and a run, a restore, a rollback and a deploy only if one stands. Beyond that a restore
   needs its snapshot, a run must not be a hidden one, a rollback goes to an earlier revision, and a deploy
   needs a candidate that differs from the active workspace.
   */
  lemma ToolSucceedsExactly(a: Authority, s: Session, tools: seq<Tool>, t: Tool)
    requires Initial(a, s) && !s.closed && (t.Run? ==> HasTables(t.service))
    ensures Ready(s)
    ensures var h, now := History(a, s, tools), RunAll(a, s, tools);
      Succeeds(a, now, t) <==> DidClose !in h && match t
        case ReadOnly => true
        case Edit(_, _) => true
        case Close => true
        case PauseTool => !PauseStands(h)
        case Run(w, _, _, _) => PauseStands(h) && w != Hidden
        case RestoreTool(id) => PauseStands(h) && id in now.store.snapshots
        case Rollback(r) => PauseStands(h) && r != Candidate
        case Deploy =>
          && PauseStands(h)
          && (CodeRoot(now.candidate) != CodeRoot(now.active) || SettingsRoot(now.candidate) != SettingsRoot(now.active))
        case ResumeTool => PauseStands(h) && RestoredOnce(h) && Earned(h)
  {
    hide SessionInv, RunFacts, CandidateTold, PauseStands, IsActive, AllPassed, ProvenanceExists, Earned, RestoreSnapshot,
         CodeRoot;
    SessionIsReady(a, s);
    ResumeExactly(a, s, tools);
    FactsOfRun(a, s, tools);
    RunIsTold(a, s, tools);
    var h, now := History(a, s, tools), RunAll(a, s, tools);
    InvParts(a, h, now);
    match t
    case RestoreTool(id) =>
      if now.store.intake == Paused && id in now.store.snapshots {
        var saved := R.SavedTables(a, now.store, id);
        R.RestoreSucceeds(a, now.store, id, saved);
      } else {
        R.RestoreRefused(a, now.store, id);
      }
    case Rollback(r) => assert ArtifactsSound(now) by { InvHasArtifacts(a, now); }
    case _ =>
  }

  lemma InvHasArtifacts(a: Authority, s: Session)
    requires SessionInv(a, s)
    ensures ArtifactsSound(s)
  {
  }

  // ---------------------------------------------------------------- the store

  /**
   What a tool does to the store: a run leaves the tables and the clock the program left and touches nothing
   else, a restore does what the recovery substrate does, and every other tool keeps the tables.
   */
  lemma ToolMovesStore(a: Authority, s: Session, t: Tool)
    requires Ready(s)
    ensures var before, after := s.store, Perform(a, s, t).store;
      if !Succeeds(a, s, t) then Perform(a, s, t) == s
      else
        && (t.Run? ==> after == before.(service := t.service, tick := before.tick + t.ticks))
        && (t.RestoreTool? ==> RestoreSnapshot(a, before, t.id) == Done(after))
        && (t.PauseTool? ==> PauseIntake(before) == Done(after))
        && (t.ReadOnly? || t.Edit? || t.Close? ==> after == before)
        && (!t.Run? && !t.RestoreTool? ==> after.service == before.service)
        && after.snapshots == before.snapshots
  {
    hide ProvenanceExists, AllPassed, CodeRoot, ChainValid, SnapshotValid, Insert, HasFiles;
  }

  // ---------------------------------------------------------------- workspaces and deployments

  // The deployment that an activation leaves, and the row it writes.
  ghost predicate Activates(s: Session, s': Session, r: Revision, kind: string)
    requires Ready(s) && Ready(s')
  {
    && s'.deployments[r].status == Active && s'.deployments[r].activatedTick == s'.store.tick == s.store.tick + 1
    && s'.deployments[r].codeRoot == CodeRoot(s'.active) && s'.deployments[r].configRoot == SettingsRoot(s'.active)
    && s'.deployments[r].configBytes == s'.active[SettingsToml]
    && (forall q: Revision :: q != r ==> s'.deployments[q] == s.deployments[q].(status := Available))
    && |s'.store.audit| == |s.store.audit| + 1 && s.store.audit <= s'.store.audit
    && (var row := s'.store.audit[|s.store.audit|];
        && row.actionKind == kind && row.actor == "operator" && row.atTick == s'.store.tick
        && row.resultingRoot == DeploymentRoot(s'.deployments))
    && s'.store == s.store.(tick := s'.store.tick, audit := s'.store.audit)
  }

  /** A deploy activates the candidate and leaves it in the workspace; nothing but the clock and audit move beside. */
  lemma DeployActivates(a: Authority, s: Session)
    requires Ready(s) && Succeeds(a, s, Deploy)
    ensures var s' := Perform(a, s, Deploy);
      && Ready(s') && s'.active == s.candidate && Activates(s, s', Candidate, "deployment_activate")
      && s'.candidate == s.candidate && s'.initial == s.initial && s'.passes == s.passes
  {
    hide ProvenanceExists, RestoreSnapshot, AllPassed, CodeRoot;
  }

  /** A rollback activates an earlier revision: the initial workspace under its settings. The candidate stays. */
  lemma RollbackActivates(a: Authority, s: Session, r: Revision)
    requires Ready(s) && ArtifactsSound(s) && Succeeds(a, s, Rollback(r))
    ensures var s' := Perform(a, s, Rollback(r));
      && Ready(s') && s'.active == s.initial[SettingsToml := s.deployments[r].configBytes]
      && Activates(s, s', r, "deployment_rollback")
      && s'.candidate == s.candidate && s'.initial == s.initial && s'.passes == s.passes
  {
    hide ProvenanceExists, RestoreSnapshot, AllPassed;
  }

  // Step i of the run edits the file.
  ghost predicate EditsAt(a: Authority, s: Session, tools: seq<Tool>, i: nat, file: File)
    requires Ready(s)
  {
    && i < |tools| && tools[i].Edit? && tools[i].file == file
    && Succeeds(a, RunAll(a, s, tools[..i]), tools[i])
  }

  ghost predicate IsLastEdit(a: Authority, s: Session, tools: seq<Tool>, i: nat, file: File)
    requires Ready(s)
  {
    EditsAt(a, s, tools, i, file) && forall k :: i < k < |tools| ==> !EditsAt(a, s, tools, k, file)
  }

  // What a file holds, if the workspace has it.
  function Content(w: Workspace, file: File): seq<string> {
    if file in w then [w[file]] else []
  }

  lemma ToolMovesCandidate(a: Authority, s: Session, t: Tool, file: File)
    requires Ready(s)
    ensures Content(Perform(a, s, t).candidate, file) ==
      if t.Edit? && t.file == file && Succeeds(a, s, t) then [t.content] else Content(s.candidate, file)
  {
    hide ProvenanceExists, RestoreSnapshot, AllPassed, CodeRoot;
  }

  /** The candidate holds in each file what the last edit of it wrote, whatever was run, restored or activated. */
  lemma {:induction false} LastEditStands(a: Authority, s: Session, tools: seq<Tool>, i: nat, file: File)
    requires Ready(s) && IsLastEdit(a, s, tools, i, file)
    ensures i < |tools| && tools[i].Edit? && Content(RunAll(a, s, tools).candidate, file) == [tools[i].content]
    decreases |tools|
  {
    hide Ready, Perform, Succeeds, Content;
    var n := |tools| - 1;
    var front := tools[..n];
    ToolMovesCandidate(a, RunAll(a, s, front), tools[n], file);
    if i < n {
      assert !EditsAt(a, s, tools, n, file);
      forall k | 0 <= k < n ensures EditsAt(a, s, front, k, file) <==> EditsAt(a, s, tools, k, file) {
        assert front[..k] == tools[..k];
      }
      LastEditStands(a, s, front, i, file);
    }
  }

  lemma {:induction false} UneditedStands(a: Authority, s: Session, tools: seq<Tool>, file: File)
    requires Ready(s) && forall i :: 0 <= i < |tools| ==> !EditsAt(a, s, tools, i, file)
    ensures Content(RunAll(a, s, tools).candidate, file) == Content(s.candidate, file)
    decreases |tools|
  {
    hide Ready, Perform, Succeeds, Content;
    if tools != [] {
      var n := |tools| - 1;
      var front := tools[..n];
      ToolMovesCandidate(a, RunAll(a, s, front), tools[n], file);
      assert !EditsAt(a, s, tools, n, file);
      forall k | 0 <= k < n ensures !EditsAt(a, s, front, k, file) {
        assert front[..k] == tools[..k];
        assert !EditsAt(a, s, tools, k, file);
      }
      UneditedStands(a, s, front, file);
    }
  }

  // What a run never changes: the initial workspace, and the settings of the earlier revisions.
  ghost predicate SameArtifacts(s: Session, t: Session)
    requires Ready(s) && Ready(t)
  {
    t.initial == s.initial && forall r: Revision :: r != Candidate ==>
      t.deployments[r].configBytes == s.deployments[r].configBytes && t.deployments[r].codeRoot == s.deployments[r].codeRoot
  }

  lemma ToolKeepsArtifacts(a: Authority, s: Session, t: Tool)
    requires Ready(s) && Ready(Perform(a, s, t))
    ensures SameArtifacts(s, Perform(a, s, t))
  {
    hide ProvenanceExists, RestoreSnapshot, AllPassed, CodeRoot, PauseIntake, ResumeIntake;
  }

  lemma ToolMovesActive(a: Authority, s: Session, t: Tool)
    requires Ready(s)
    ensures EventOf(a, s, t).DidDeploy? ==> Perform(a, s, t).active == s.candidate
    ensures EventOf(a, s, t).DidRollBack? ==>
      && t.Rollback? && t.revision != Candidate
      && Perform(a, s, t).active == s.initial[SettingsToml := s.deployments[t.revision].configBytes]
    ensures !EventOf(a, s, t).DidDeploy? && !EventOf(a, s, t).DidRollBack? ==> Perform(a, s, t).active == s.active
  {
    hide ProvenanceExists, RestoreSnapshot, AllPassed, CodeRoot;
  }

  lemma {:induction false} RunKeepsArtifacts(a: Authority, s: Session, tools: seq<Tool>)
    requires Ready(s)
    ensures SameArtifacts(s, RunAll(a, s, tools))
  {
    hide Ready, Perform, EventOf;
    if tools != [] {
      var front := tools[..|tools| - 1];
      RunKeepsArtifacts(a, s, front);
      ReadyKeeps(a, RunAll(a, s, front), tools[|tools| - 1]);
      ToolKeepsArtifacts(a, RunAll(a, s, front), tools[|tools| - 1]);
    }
  }

  ghost predicate IsLastActivation(h: seq<Event>, i: nat) {
    && i < |h| && (h[i].DidDeploy? || h[i].DidRollBack?)
    && forall k :: i < k < |h| ==> !h[k].DidDeploy? && !h[k].DidRollBack?
  }

  /**
   The active workspace is that of the last activation: the candidate as it was deployed, or the initial
   workspace under the settings the revision has had from the start.
   */
  lemma {:induction false} LastActivationStands(a: Authority, s: Session, tools: seq<Tool>, i: nat)
    requires Ready(s) && IsLastActivation(History(a, s, tools), i)
    ensures var active := RunAll(a, s, tools).active;
      if History(a, s, tools)[i].DidDeploy? then active == RunAll(a, s, tools[..i]).candidate
      else tools[i].Rollback? && active == s.initial[SettingsToml := s.deployments[tools[i].revision].configBytes]
    decreases |tools|
  {
    hide Ready, Perform, EventOf;
    var n := |tools| - 1;
    var front := tools[..n];
    var h := History(a, s, tools);
    ToolMovesActive(a, RunAll(a, s, front), tools[n]);
    RunKeepsArtifacts(a, s, front);
    assert h == History(a, s, front) + [EventOf(a, RunAll(a, s, front), tools[n])];
    if i < n {
      assert forall k :: 0 <= k < n ==> History(a, s, front)[k] == h[k];
      assert h[n] == EventOf(a, RunAll(a, s, front), tools[n]);
      LastActivationStands(a, s, front, i);
      assert front[..i] == tools[..i];
    }
  }
}

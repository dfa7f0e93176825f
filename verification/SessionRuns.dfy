/**
 Whole-run safety of a session, and what the verifier's recovery verdict says about the run.
 */
module SessionRuns {
  import opened Recovery
  import R = RecoveryRuns
  import opened Session

  // What a tool call achieved; `Nothing` when it was refused or changed no operational state.
  datatype Event =
    | Nothing
    | DidPause
    | DidRestore(id: string, settings: Digest)
    | DidRollBack
    | DidDeploy(code: Digest, settings: Digest)
    | DidPass(workload: Workload, code: Digest, settings: Digest)
    | DidResume(code: Digest, settings: Digest)
    | DidClose

  function EventOf(a: Authority, s: Session, t: Tool): Event
    requires Ready(s)
  {
    if !Succeeds(a, s, t) then Nothing
    else
      match t
      case ReadOnly => Nothing
      case Edit(_, _) => Nothing
      case Run(w, outcome, _, _) =>
        if outcome == Passed && w in PUBLIC then DidPass(w, CodeRoot(s.active), SettingsRoot(s.active)) else Nothing
      case PauseTool => DidPause
      case RestoreTool(id) => DidRestore(id, SettingsRoot(s.active))
      case Rollback(_) => DidRollBack
      case Deploy => DidDeploy(CodeRoot(s.candidate), SettingsRoot(s.candidate))
      case ResumeTool => DidResume(CodeRoot(s.active), SettingsRoot(s.active))
      case Close => DidClose
  }

  lemma ReadyKeeps(a: Authority, s: Session, t: Tool)
    requires Ready(s)
    ensures Ready(Perform(a, s, t))
  {
    hide ProvenanceExists, AllPassed, CodeRoot, ChainValid, SnapshotValid;
  }

  function RunAll(a: Authority, s: Session, tools: seq<Tool>): (r: Session)
    requires Ready(s)
    ensures Ready(r)
  {
    if tools == [] then s
    else
      var before := RunAll(a, s, tools[..|tools| - 1]);
      ReadyKeeps(a, before, tools[|tools| - 1]);
      Perform(a, before, tools[|tools| - 1])
  }

  function History(a: Authority, s: Session, tools: seq<Tool>): (h: seq<Event>)
    requires Ready(s)
    ensures |h| == |tools|
  {
    if tools == [] then []
    else
      var front := tools[..|tools| - 1];
      History(a, s, front) + [EventOf(a, RunAll(a, s, front), tools[|tools| - 1])]
  }

  lemma {:induction false} HistoryPrefix(a: Authority, s: Session, tools: seq<Tool>, n: nat)
    requires Ready(s) && n <= |tools|
    ensures History(a, s, tools[..n]) == History(a, s, tools)[..n]
  {
    hide Ready, EventOf, Perform;
    if n == |tools| {
      assert tools[..n] == tools;
    } else {
      HistoryPrefix(a, s, tools[..|tools| - 1], n);
      assert tools[..|tools| - 1][..n] == tools[..n];
    }
  }

  lemma HistoryAt(a: Authority, s: Session, tools: seq<Tool>, n: nat)
    requires Ready(s) && n < |tools|
    ensures History(a, s, tools)[n] == EventOf(a, RunAll(a, s, tools[..n]), tools[n])
    ensures History(a, s, tools[..n]) == History(a, s, tools)[..n]
    ensures RunAll(a, s, tools[..n + 1]) == Perform(a, RunAll(a, s, tools[..n]), tools[n])
  {
    hide Ready, EventOf, Perform;
    HistoryPrefix(a, s, tools, n + 1);
    HistoryPrefix(a, s, tools, n);
    assert tools[..n + 1][..n] == tools[..n];
  }

  // ---------------------------------------------------------------- facts about histories

  ghost predicate PassStands(h: seq<Event>, p: nat, w: Workload, settings: Digest) {
    && p < |h| && h[p].DidPass? && h[p].workload == w && h[p].settings == settings
    && forall q :: p < q < |h| ==> !(h[q].DidRestore? && h[q].settings == settings)
  }

  ghost predicate DeployStands(h: seq<Event>, d: nat, code: Digest, settings: Digest) {
    && d < |h| && h[d] == DidDeploy(code, settings)
    && forall q :: d < q < |h| ==> !h[q].DidDeploy? && !h[q].DidRollBack?
  }

  // A recorded pass was earned under its settings, after the last restore under them.
  ghost predicate PassesEarned(h: seq<Event>, s: Session) {
    forall settings, w :: w in PassesOf(s, settings) ==> exists p :: PassStands(h, p, w, settings)
  }

  ghost predicate ProofsEarned(h: seq<Event>, s: Session) {
    forall i :: 0 <= i < |s.store.proofs| ==> RestoredIn(h, s.store.proofs[i].fields.snapshotId)
  }

  ghost predicate RestoredIn(h: seq<Event>, id: string) {
    exists j :: 0 <= j < |h| && h[j].DidRestore? && h[j].id == id
  }

  ghost predicate CandidateEarned(h: seq<Event>, s: Session)
    requires Ready(s)
  {
    IsActive(s, Candidate) ==> exists d :: DeployStands(h, d, CodeRoot(s.active), SettingsRoot(s.active))
  }

  ghost predicate PauseEarned(h: seq<Event>, s: Session) {
    s.store.intake == Paused ==> DidPause in h
  }

  // Intake that is open after a restore was opened by a later resume.
  ghost predicate OpenEarned(h: seq<Event>, s: Session) {
    s.store.intake == Open ==>
      forall j :: 0 <= j < |h| && h[j].DidRestore? ==> exists k :: j < k < |h| && h[k].DidResume?
  }

  // After the first pause, open intake and a closed incident are the same thing.
  ghost predicate OpenMeansClosed(h: seq<Event>, s: Session)
    requires Ready(s)
  {
    DidPause in h ==> (s.store.intake == Open <==> IncidentClosed(s))
  }

  lemma PassesKeep(a: Authority, h: seq<Event>, s: Session, t: Tool)
    requires Ready(s) && PassesEarned(h, s)
    ensures PassesEarned(h + [EventOf(a, s, t)], Perform(a, s, t))
  {
    hide ProvenanceExists, RestoreSnapshot, AllPassed, CodeRoot;
    var h' := h + [EventOf(a, s, t)];
    var s' := Perform(a, s, t);
    forall settings, w | w in PassesOf(s', settings) ensures exists p :: PassStands(h', p, w, settings) {
      if w in PassesOf(s, settings) && !(h'[|h|].DidRestore? && h'[|h|].settings == settings) {
        var p :| PassStands(h, p, w, settings);
        assert PassStands(h', p, w, settings);
      } else {
        assert PassStands(h', |h|, w, settings);
      }
    }
  }

  lemma OnlyRestoresAddProofs(a: Authority, s: Session, t: Tool)
    requires Ready(s)
    ensures var proofs := Perform(a, s, t).store.proofs;
      if t.RestoreTool? && Succeeds(a, s, t)
      then |proofs| == |s.store.proofs| + 1 && s.store.proofs <= proofs && proofs[|s.store.proofs|].fields.snapshotId == t.id
      else proofs == s.store.proofs
  {
    hide ProvenanceExists, AllPassed, CodeRoot, ChainValid, SnapshotValid, Insert, HasFiles;
  }

  lemma ProofsKeep(a: Authority, h: seq<Event>, s: Session, t: Tool)
    requires Ready(s) && ProofsEarned(h, s)
    ensures ProofsEarned(h + [EventOf(a, s, t)], Perform(a, s, t))
  {
    hide Succeeds, Perform, CodeRoot;
    OnlyRestoresAddProofs(a, s, t);
    var h' := h + [EventOf(a, s, t)];
    var s' := Perform(a, s, t);
    forall i | 0 <= i < |s'.store.proofs| ensures RestoredIn(h', s'.store.proofs[i].fields.snapshotId) {
      if i < |s.store.proofs| {
        assert s'.store.proofs[i] == s.store.proofs[i];
        assert RestoredIn(h, s.store.proofs[i].fields.snapshotId);
        var j :| 0 <= j < |h| && h[j].DidRestore? && h[j].id == s.store.proofs[i].fields.snapshotId;
        assert h'[j] == h[j];
      } else {
        assert h'[|h|] == DidRestore(t.id, SettingsRoot(s.active));
      }
    }
  }

  lemma CandidateKeeps(a: Authority, h: seq<Event>, s: Session, t: Tool)
    requires SessionInv(a, s) && CandidateEarned(h, s)
    requires Ready(Perform(a, s, t))
    ensures CandidateEarned(h + [EventOf(a, s, t)], Perform(a, s, t))
  {
    hide ProvenanceExists, RestoreSnapshot, AllPassed, CodeRoot, StoreInv, HasTables, OneActive;
    var h' := h + [EventOf(a, s, t)];
    var s' := Perform(a, s, t);
    if Succeeds(a, s, t) && t.Rollback? {
      RolledBackIsActive(s, t.revision);
      assert IsActive(s', Candidate) <==> Candidate == t.revision;
    } else if Succeeds(a, s, t) && t.Deploy? {
      assert DeployStands(h', |h|, CodeRoot(s'.active), SettingsRoot(s'.active));
    } else {
      OthersKeepDeployments(a, s, t);
      if IsActive(s, Candidate) {
        var d :| DeployStands(h, d, CodeRoot(s.active), SettingsRoot(s.active));
        assert DeployStands(h', d, CodeRoot(s'.active), SettingsRoot(s'.active));
      }
    }
  }

  lemma IntakeKeeps(a: Authority, h: seq<Event>, s: Session, t: Tool)
    requires Ready(s) && PauseEarned(h, s) && OpenEarned(h, s)
    ensures PauseEarned(h + [EventOf(a, s, t)], Perform(a, s, t))
    ensures OpenEarned(h + [EventOf(a, s, t)], Perform(a, s, t))
  {
    hide ProvenanceExists, AllPassed, CodeRoot, ChainValid, SnapshotValid, Insert, HasFiles;
    var h' := h + [EventOf(a, s, t)];
    var s' := Perform(a, s, t);
    assert h'[|h|] == EventOf(a, s, t);
    if s'.store.intake == Open {
      forall j | 0 <= j < |h'| && h'[j].DidRestore? ensures exists k :: j < k < |h'| && h'[k].DidResume? {
        if s.store.intake == Open {
          assert j < |h|;
          var k :| j < k < |h| && h[k].DidResume?;
          assert h'[k] == h[k];
        } else {
          assert h'[|h|].DidResume?;
        }
      }
    }
  }

  lemma IncidentKeeps(a: Authority, h: seq<Event>, s: Session, t: Tool)
    requires Ready(s) && Ready(Perform(a, s, t)) && PauseEarned(h, s) && OpenMeansClosed(h, s)
    ensures OpenMeansClosed(h + [EventOf(a, s, t)], Perform(a, s, t))
  {
    hide ProvenanceExists, CodeRoot, ChainValid, SnapshotValid, Insert;
    assert (h + [EventOf(a, s, t)])[|h|] == EventOf(a, s, t);
  }

  ghost predicate RunFacts(a: Authority, h: seq<Event>, s: Session) {
    && SessionInv(a, s)
    && PassesEarned(h, s)
    && ProofsEarned(h, s)
    && CandidateEarned(h, s)
    && PauseEarned(h, s)
    && OpenEarned(h, s)
    && OpenMeansClosed(h, s)
  }

  // A session over a fresh fixture: r1 active, intake open, nothing proved and nothing passed.
  ghost predicate Initial(a: Authority, s: Session) {
    && SessionInv(a, s)
    && s.store.intake == Open && s.store.proofs == [] && s.passes == map[]
    && !IsActive(s, Candidate)
  }

  lemma {:induction false} FactsOfRun(a: Authority, s: Session, tools: seq<Tool>)
    requires Initial(a, s)
    ensures RunFacts(a, History(a, s, tools), RunAll(a, s, tools))
  {
    hide SessionInv, PassesEarned, ProofsEarned, CandidateEarned, PauseEarned, OpenEarned, OpenMeansClosed, Perform, EventOf;
    SessionIsReady(a, s);
    if tools == [] {
      FactsOfStart(a, s);
    } else {
      var front := tools[..|tools| - 1];
      var t := tools[|tools| - 1];
      FactsOfRun(a, s, front);
      var h := History(a, s, front);
      var s1 := RunAll(a, s, front);
      ToolKeepsInvariant(a, s1, t);
      ReadyKeeps(a, s1, t);
      PassesKeep(a, h, s1, t);
      ProofsKeep(a, h, s1, t);
      CandidateKeeps(a, h, s1, t);
      IntakeKeeps(a, h, s1, t);
      IncidentKeeps(a, h, s1, t);
    }
  }

  lemma SessionIsReady(a: Authority, s: Session)
    requires SessionInv(a, s)
    ensures Ready(s) && StoreInv(a, s.store)
  {
  }

  lemma FactsOfStart(a: Authority, s: Session)
    requires Initial(a, s)
    ensures RunFacts(a, [], s)
  {
  }

  /**
   The session invariant over every run: exactly one revision is active and it is the one in the active
   workspace; and once intake has been paused, it is open exactly when the incident is reported closed.
   */
  lemma SessionSafety(a: Authority, s: Session, tools: seq<Tool>)
    requires Initial(a, s)
    ensures var t := RunAll(a, s, tools);
      && (exists r: Revision ::
            && (forall q: Revision :: IsActive(t, q) <==> q == r)
            && t.deployments[r].codeRoot == CodeRoot(t.active) && t.deployments[r].configRoot == SettingsRoot(t.active))
      && (DidPause in History(a, s, tools) ==> (t.store.intake == Open <==> IncidentClosed(t)))
  {
    hide StoreInv;
    FactsOfRun(a, s, tools);
  }

  /** Pausing opens the incident, and only a resume closes it: straight after one it is reported closed. */
  lemma PauseOpensResumeCloses(a: Authority, s: Session, t: Tool)
    requires SessionInv(a, s) && Succeeds(a, s, t)
    ensures Ready(Perform(a, s, t))
    ensures t.PauseTool? ==> Perform(a, s, t).store.intake == Paused && !IncidentClosed(Perform(a, s, t))
    ensures t.ResumeTool? ==> IncidentClosed(Perform(a, s, t))
    ensures s.store.intake == Paused && IncidentClosed(Perform(a, s, t)) ==> t.ResumeTool?
  {
    hide SessionInv, ProvenanceExists, CodeRoot, ChainValid, SnapshotValid, Insert, HasFiles;
    SessionIsReady(a, s);
    ReadyKeeps(a, s, t);
  }

  // ---------------------------------------------------------------- the verdict of the verifier

  function LastProofOf(proofs: seq<Proof>, id: string): (r: Result<Proof>)
    ensures r.Done? ==> r.value in proofs && r.value.fields.snapshotId == id && r.value.fields.actionKind == RESTORE_KIND
    ensures !r.Done? ==> forall p :: p in proofs ==> !(p.fields.snapshotId == id && p.fields.actionKind == RESTORE_KIND)
  {
    if proofs == [] then ValueFailure
    else
      var last := proofs[|proofs| - 1];
      assert proofs == proofs[..|proofs| - 1] + [last];
      if last.fields.snapshotId == id && last.fields.actionKind == RESTORE_KIND then Done(last)
      else LastProofOf(proofs[..|proofs| - 1], id)
  }

  /** It finds the last one. */
  lemma {:induction false} LastProofIsLast(proofs: seq<Proof>, id: string, i: nat)
    requires i < |proofs| && proofs[i].fields.snapshotId == id && proofs[i].fields.actionKind == RESTORE_KIND
    requires forall k :: i < k < |proofs| ==> !(proofs[k].fields.snapshotId == id && proofs[k].fields.actionKind == RESTORE_KIND)
    ensures LastProofOf(proofs, id) == Done(proofs[i])
  {
    if i < |proofs| - 1 {
      LastProofIsLast(proofs[..|proofs| - 1], id, i);
    }
  }

  // The verifier checks a copy of the store, then pauses and restores the copy itself.
  predicate AuthenticatedRecovery(a: Authority, s: Store)
    requires HasTables(s.service)
  {
    && ChainValid(s.audit)
    && SnapshotValid(a, s, "S0")
    && LastProofOf(s.proofs, "S0").Done?
    && LastProofOf(s.proofs, "S0").value.authTag == RecoveryTag(a.key, a.scope, LastProofOf(s.proofs, "S0").value.fields)
    && PauseIntake(s).Done?
    && HasTables(PauseIntake(s).value.service)
    && RestoreSnapshot(a, PauseIntake(s).value, "S0").Done?
  }

  lemma LastProofIsSound(a: Authority, s: Store, id: string)
    requires StoreInv(a, s)
    ensures LastProofOf(s.proofs, id).Done? <==> exists i :: 0 <= i < |s.proofs| && s.proofs[i].fields.snapshotId == id
    ensures LastProofOf(s.proofs, id).Done? ==>
      LastProofOf(s.proofs, id).value.authTag == RecoveryTag(a.key, a.scope, LastProofOf(s.proofs, id).value.fields) &&
      id in s.snapshots
  {
    hide ChainValid, SeqsGapFree, SnapshotsSound, LastProofOf;
    var r := LastProofOf(s.proofs, id);
    if r.Done? {
      var i :| 0 <= i < |s.proofs| && s.proofs[i] == r.value;
      assert ProofSound(a, s, s.proofs[i]);
    } else {
      forall i | 0 <= i < |s.proofs| ensures s.proofs[i].fields.snapshotId != id {
        assert ProofSound(a, s, s.proofs[i]) && s.proofs[i] in s.proofs;
      }
    }
  }

  lemma PausedCopyRestores(a: Authority, s: Store, id: string)
    requires StoreInv(a, s) && s.intake == Open && id in s.snapshots
    ensures PauseIntake(s).Done? && HasTables(PauseIntake(s).value.service)
    ensures RestoreSnapshot(a, PauseIntake(s).value, id).Done?
  {
    hide ChainValid, RestoreSnapshot, StoreInv, SnapshotsSound;
    R.InvHasTables(a, s);
    R.StepKeeps(a, s, Action.Pause);
    var paused := PauseIntake(s).value;
    var saved := R.SavedTables(a, paused, id);
    R.RestoreBringsBackSnapshot(a, paused, id, saved);
  }

  /** On any reachable store the verdict is decided by two facts: intake is open, and S0 was restored. */
  lemma AuthenticatedExactly(a: Authority, s: Store)
    requires StoreInv(a, s)
    ensures HasTables(s.service)
    ensures AuthenticatedRecovery(a, s) <==>
      s.intake == Open && exists i :: 0 <= i < |s.proofs| && s.proofs[i].fields.snapshotId == "S0"
  {
    hide ChainValid, RestoreSnapshot, SeqsGapFree, ProofsSound, LastProofOf;
    LastProofIsSound(a, s, "S0");
    if s.intake == Open && LastProofOf(s.proofs, "S0").Done? {
      PausedCopyRestores(a, s, "S0");
    }
  }

  // A resume that the run earned: a deployment of what is resumed, and all three passes under its settings.
  ghost predicate ResumeEarned(h: seq<Event>, k: nat) {
    && k < |h| && h[k].DidResume?
    && (exists d :: DeployStands(h[..k], d, h[k].code, h[k].settings))
    && forall w :: w in PUBLIC ==> exists p :: PassStands(h[..k], p, w, h[k].settings)
  }

  lemma ResumeNeeds(a: Authority, s: Session, t: Tool)
    requires Ready(s) && EventOf(a, s, t).DidResume?
    ensures IsActive(s, Candidate) && AllPassed(s)
    ensures EventOf(a, s, t) == DidResume(CodeRoot(s.active), SettingsRoot(s.active))
  {
    hide ProvenanceExists, AllPassed, CodeRoot, RestoreSnapshot;
    assert IsActive(s, Candidate) <==> Candidate == Candidate;
  }

  lemma EveryResumeIsEarned(a: Authority, s: Session, tools: seq<Tool>, k: nat)
    requires Initial(a, s) && k < |tools| && History(a, s, tools)[k].DidResume?
    ensures ResumeEarned(History(a, s, tools), k)
  {
    hide SessionInv, EventOf, Perform, PassStands, DeployStands, CodeRoot, History, RunAll, IsActive,
         ProofsEarned, PauseEarned, OpenEarned, OpenMeansClosed;
    SessionIsReady(a, s);
    FactsOfRun(a, s, tools[..k]);
    HistoryAt(a, s, tools, k);
    ResumeNeeds(a, RunAll(a, s, tools[..k]), tools[k]);
  }

  /**
   Whole-run safety. If the verifier finds the recovery authenticated, the run paused intake, later
   restored S0, and still later resumed; and before that resume it deployed what it resumed and passed
   P1, P2 and P3 under the resumed settings, with no restore under those settings after the passes.
   */
  lemma AuthenticatedRecoveryIsEarned(a: Authority, s: Session, tools: seq<Tool>)
    requires Initial(a, s)
    requires AuthenticatedRecovery(a, RunAll(a, s, tools).store)
    ensures var h := History(a, s, tools);
      exists i, j, k :: 0 <= i < j < k < |h| && h[i].DidPause? && h[j].DidRestore? && h[j].id == "S0" && ResumeEarned(h, k)
  {
    hide SessionInv, AuthenticatedRecovery, ResumeEarned, History, RunAll, PassesEarned, CandidateEarned, OpenMeansClosed;
    SessionIsReady(a, s);
    FactsOfRun(a, s, tools);
    var h := History(a, s, tools);
    var end := RunAll(a, s, tools);
    assert StoreInv(a, end.store) by { SessionHasStoreInv(a, end); }
    AuthenticatedExactly(a, end.store);
    var n :| 0 <= n < |end.store.proofs| && end.store.proofs[n].fields.snapshotId == "S0";
    var j :| 0 <= j < |h| && h[j].DidRestore? && h[j].id == end.store.proofs[n].fields.snapshotId;
    var k :| j < k < |h| && h[k].DidResume?;
    EveryResumeIsEarned(a, s, tools, k);
    RestoreNeedsPause(a, s, tools, j);
    var i :| 0 <= i < j && h[i].DidPause?;
  }

  lemma SessionHasStoreInv(a: Authority, s: Session)
    requires SessionInv(a, s)
    ensures StoreInv(a, s.store)
  {
  }

  lemma RestoreNeedsPause(a: Authority, s: Session, tools: seq<Tool>, j: nat)
    requires Initial(a, s) && j < |tools| && History(a, s, tools)[j].DidRestore?
    ensures exists i :: 0 <= i < j && History(a, s, tools)[i].DidPause?
  {
    hide SessionInv, RestoreSnapshot, Perform, CodeRoot, History, RunAll, ProvenanceExists, AllPassed,
         PassesEarned, ProofsEarned, CandidateEarned, OpenEarned, OpenMeansClosed;
    SessionIsReady(a, s);
    FactsOfRun(a, s, tools[..j]);
    HistoryAt(a, s, tools, j);
    var h := History(a, s, tools[..j]);
    assert RunAll(a, s, tools[..j]).store.intake == Paused;
    var i :| 0 <= i < |h| && h[i] == DidPause;
    assert History(a, s, tools)[i] == h[i];
  }
}

/**
 Two further facts about sessions: the trace epoch counts the calls that end the life of trace tokens,
 and the public passes that allow a resume are bound to the settings, not to the code.
 */
module SessionEpochs {
  import opened Recovery
  import R = RecoveryRuns
  import opened Session
  import opened SessionRuns

  // The calls after which no trace token of before is accepted.
  predicate EndsEpoch(e: Event) {
    e.DidRestore? || e.DidRollBack? || e.DidDeploy? || e.DidResume? || e.DidClose?
  }

  function EpochsEnded(h: seq<Event>): (n: nat)
    ensures n == 0 <==> forall i :: 0 <= i < |h| ==> !EndsEpoch(h[i])
  {
    if h == [] then 0
    else
      var front := h[..|h| - 1];
      EpochsEnded(front) + if EndsEpoch(h[|h| - 1]) then 1 else 0
  }

  lemma ToolMovesEpoch(a: Authority, s: Session, t: Tool)
    requires Ready(s)
    ensures Perform(a, s, t).epoch == s.epoch + if EndsEpoch(EventOf(a, s, t)) then 1 else 0
  {
    hide ProvenanceExists, RestoreSnapshot, AllPassed, CodeRoot;
  }

  /** The epoch is exactly the number of restores, rollbacks, deploys, resumes and closes so far. */
  lemma {:induction false} EpochCounts(a: Authority, s: Session, tools: seq<Tool>)
    requires Ready(s)
    ensures RunAll(a, s, tools).epoch == s.epoch + EpochsEnded(History(a, s, tools))
  {
    hide Ready, EventOf, Perform;
    if tools != [] {
      var front := tools[..|tools| - 1];
      EpochCounts(a, s, front);
      ToolMovesEpoch(a, RunAll(a, s, front), tools[|tools| - 1]);
      assert History(a, s, tools)[..|front|] == History(a, s, front);
    }
  }

  lemma {:induction false} EpochsEndedSplit(h: seq<Event>, m: nat)
    requires m <= |h|
    ensures EpochsEnded(h) == EpochsEnded(h[..m]) + EpochsEnded(h[m..])
  {
    if m == |h| {
      assert h[..m] == h;
    } else {
      EpochsEndedSplit(h[..|h| - 1], m);
      assert h[..|h| - 1][..m] == h[..m];
      assert h[..|h| - 1][m..] == h[m..][..|h| - 1 - m];
    }
  }

  /**
   What was issued at step m carries the current epoch at step n exactly if no call in between ended
   an epoch; otherwise its epoch is smaller, for good.
   */
  lemma EpochStandsUntilEnded(a: Authority, s: Session, tools: seq<Tool>, m: nat)
    requires Ready(s) && m <= |tools|
    ensures RunAll(a, s, tools[..m]).epoch <= RunAll(a, s, tools).epoch
    ensures RunAll(a, s, tools[..m]).epoch == RunAll(a, s, tools).epoch <==>
      forall i :: m <= i < |tools| ==> !EndsEpoch(History(a, s, tools)[i])
  {
    hide Ready, EventOf, Perform, EpochsEnded;
    var h := History(a, s, tools);
    EpochCounts(a, s, tools[..m]);
    EpochCounts(a, s, tools);
    HistoryPrefix(a, s, tools, m);
    EpochsEndedSplit(h, m);
    if i :| m <= i < |h| && EndsEpoch(h[i]) {
      assert h[m..][i - m] == h[i];
    }
    forall k | 0 <= k < |h[m..]| ensures h[m..][k] == h[m + k] {
    }
  }

  /**
   After a deployment, resuming is allowed exactly when a restore has left its proof and all three public
   workloads passed under the settings of what was deployed. The code deployed does not enter into it.
   */
  lemma DeployedMayResume(a: Authority, s: Session)
    requires SessionInv(a, s) && Succeeds(a, s, Deploy)
    ensures Ready(Perform(a, s, Deploy))
    ensures Succeeds(a, Perform(a, s, Deploy), ResumeTool) <==>
      s.store.proofs != [] && PUBLIC <= PassesOf(s, SettingsRoot(s.candidate))
  {
    hide StoreInv, ProvenanceExists, OneActive, ArtifactsSound, PassesOf;
    DeployedIsActive(s);
    StoreKeeps(a, s, Deploy);
    R.ProvenanceMeansProof(a, Deployed(s).store);
    SamePasses(s, Deployed(s));
    assert SettingsRoot(Deployed(s).active) == SettingsRoot(s.candidate);
  }

  lemma EditedWorkspace(s: Session, file: File, content: string)
    requires Ready(s) && s.candidate == s.active
    requires file == ContractMd || file == FlowPy || file == StorePy || file == RuntimePy
    requires content != s.active[file]
    ensures var w := s.candidate[file := content];
      HasFiles(w) && CodeRoot(w) != CodeRoot(s.active) && SettingsRoot(w) == SettingsRoot(s.active)
  {
    var w := s.candidate[file := content];
    assert CodeRoot(w).files[0].1 == w[ContractMd] && CodeRoot(s.active).files[0].1 == s.active[ContractMd];
    assert CodeRoot(w).files[1].1 == w[FlowPy] && CodeRoot(s.active).files[1].1 == s.active[FlowPy];
    assert CodeRoot(w).files[2].1 == w[RuntimePy] && CodeRoot(s.active).files[2].1 == s.active[RuntimePy];
    assert CodeRoot(w).files[3].1 == w[StorePy] && CodeRoot(s.active).files[3].1 == s.active[StorePy];
  }

  /**
   So passes outlive the code that earned them: from any state ready to resume, editing a code file to
   anything else and deploying it leaves a state that is still ready to resume, under another code root.
   */
  lemma PassesOutliveTheirCode(a: Authority, s: Session, file: File, content: string)
    requires SessionInv(a, s) && Succeeds(a, s, ResumeTool) && s.candidate == s.active
    requires file == ContractMd || file == FlowPy || file == StorePy || file == RuntimePy
    requires content != s.active[file]
    ensures SessionInv(a, Perform(a, Perform(a, s, Edit(file, content)), Deploy))
    ensures var t := Perform(a, Perform(a, s, Edit(file, content)), Deploy);
      Succeeds(a, t, ResumeTool) && CodeRoot(t.active) != CodeRoot(s.active)
  {
    hide StoreInv, ProvenanceExists, OneActive, ArtifactsSound, CodeRoot, PassesOf;
    EditedWorkspace(s, file, content);
    R.ProvenanceMeansProof(a, s.store);
    var s1 := Perform(a, s, Edit(file, content));
    ToolKeepsInvariant(a, s, Edit(file, content));
    assert Succeeds(a, s1, Deploy);
    ToolKeepsInvariant(a, s1, Deploy);
    assert PassesOf(s1, SettingsRoot(s1.candidate)) == PassesOf(s, SettingsRoot(s.active)) by { SamePasses(s, s1); }
    DeployedMayResume(a, s1);
  }

  lemma SamePasses(s: Session, t: Session)
    requires s.passes == t.passes
    ensures forall root :: PassesOf(s, root) == PassesOf(t, root)
  {
  }
}

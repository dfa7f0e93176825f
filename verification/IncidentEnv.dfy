/**
 The environment as an object: `reset` starts a new transcript, a step moves the counters, asks the
 gateway, checks the limits and records, and the grade is computed once and kept.
 */
module IncidentEnv {
  import opened T = Transcripts
  import opened Episodes
  import L = EpisodeLimits

  /** The verifier's recount: it selects the steps and adds up their bytes. */
  method Recount(list: seq<Entry>) returns (steps: nat, bytes: int)
    ensures steps == |Steps(list)| && bytes == SumBytes(Steps(list))
  {
    hide StepBytes, IsStep;
    ghost var seen: seq<Entry> := [];
    steps, bytes := 0, 0;
    assert list[..0] == [];
    for i := 0 to |list|
      invariant seen == Steps(list[..i])
      invariant steps == |seen| && bytes == SumBytes(seen)
    {
      assert list[..i + 1] == list[..i] + [list[i]];
      StepsAppend(list[..i], list[i]);
      if IsStep(list[i]) {
        SumAppend(seen, list[i]);
        seen := seen + [list[i]];
        steps := steps + 1;
        bytes := bytes + StepBytes(list[i]);
      }
    }
    assert list[..|list|] == list;
  }

  class IncidentEnv {
    var setup: Setup
    var connected: bool
    var ended: bool
    var actionCount: nat
    var totalBytes: nat
    var sequence: nat
    var grade: GradeSlot
    var transcript: Transcript

    function View(): Episode
      reads this, transcript
    {
      Episode.Episode(connected, ended, actionCount, totalBytes, sequence, grade, transcript.View())
    }

    ghost predicate Valid()
      reads this, transcript
    {
      && transcript.version == setup.version && transcript.identity == setup.id && transcript.key == setup.key
      && transcript.Valid()
    }

    constructor (setup: Setup)
      ensures Valid() && fresh(transcript) && !connected && this.setup == setup
    {
      this.setup := setup;
      connected, ended, actionCount, totalBytes, sequence, grade := false, false, 0, 0, 0, NotGraded;
      transcript := new Transcript(setup.version, setup.id, setup.key);
    }

    // The session of the new gateway names the new transcript.
    method ResetEpisode(newSetup: Setup, manifest: Value)
      modifies this
      ensures Valid() && fresh(transcript) && setup == newSetup
      ensures View() == Reset(newSetup, manifest)
    {
      hide WellRecorded, Add;
      setup := newSetup;
      connected, ended, actionCount, totalBytes, sequence, grade := true, false, 0, 0, 0, NotGraded;
      transcript := new Transcript(newSetup.version, newSetup.id, newSetup.key);
      transcript.RecordMeta("manifest", manifest);
    }

    method GatewayUnavailableStep(reply: Reply)
      requires Valid() && reply.Unavailable?
      modifies this, transcript
      ensures Valid() && setup == old(setup) && transcript == old(transcript)
      ensures View() == old(View()).(
        totalBytes := old(totalBytes) + reply.request + reply.response,
        ended := true,
        record := Add(setup.id, setup.key, old(transcript.View()),
                      AddStep(FieldsOf(old(sequence), old(actionCount), reply, GatewayLost))))
    {
      hide Add, WellRecorded;
      totalBytes := totalBytes + reply.request + reply.response;
      transcript.RecordStep(StepFields(sequence, 0, reply.tool, reply.argumentsDigest, "gateway_unavailable",
        reply.resultDigest, 0.0, false, true, actionCount, reply.request, reply.response));
      ended := true;
    }

    /** The verdict on the transcript, computed the first time it is asked for; refused without a session. */
    method GradeEpisode() returns (graded: bool)
      requires Valid()
      modifies this`grade
      ensures Valid() && View() == Perform(setup, old(View()), GradeCall)
      ensures graded <==> connected
    {
      hide Accepted, Steps, SumBytes, WellRecorded;
      if !connected { return false; }
      if grade.Graded? { return true; }
      var list := ToList(setup.version, setup.id, setup.key, transcript.View());
      var authentic := VerifyTranscript(list, setup.id, setup.key);
      var steps, bytes := Recount(list);
      grade := Graded(Grade(authentic, steps <= setup.limits.actionLimit && bytes <= setup.limits.byteLimit, steps));
      return true;
    }

    /** One step; it is refused when there is no session or the episode has ended, and raises on no JSON. */
    method TakeStep(reply: Reply) returns (answered: bool)
      requires Valid()
      modifies this, transcript
      ensures Valid() && setup == old(setup) && transcript == old(transcript)
      ensures View() == Step(setup, old(View()), reply)
      ensures answered <==> old(connected) && !old(ended) && !reply.NotJson?
      ensures answered ==> L.Ends(setup, old(View()), reply, View())
    {
      hide Add, WellRecorded, GradeOf, FieldsOf, L.Ends;
      if connected && !ended && !reply.NotJson? { L.StepEndsExactly(setup, View(), reply); }
      if !connected || ended { return false; }
      actionCount := actionCount + 1;
      sequence := sequence + 1;
      if reply.NotJson? { return false; }
      if reply.Unavailable? {
        GatewayUnavailableStep(reply);
        return true;
      }
      totalBytes := totalBytes + reply.request + reply.response;
      var terminated := reply.tool == STATUS_TOOL && reply.incidentClosed;
      var truncated := false;
      if !terminated {
        if setup.maxSteps.AtMost? && actionCount >= setup.maxSteps.steps {
          truncated := true;
        } else {
          truncated := CheckLimits(setup.limits, actionCount, totalBytes, reply.tick) != Nothing;
        }
      }
      var fields := StepFields(sequence, reply.tick, reply.tool, reply.argumentsDigest, reply.code, reply.resultDigest,
        0.0, terminated, truncated, actionCount, reply.request, reply.response);
      assert fields == FieldsOf(sequence, actionCount, reply, EndingOf(setup, actionCount, totalBytes, reply)) by {
        FieldsAre(setup, sequence, actionCount, totalBytes, reply);
      }
      transcript.RecordStep(fields);
      if terminated { var _ := GradeEpisode(); }
      if terminated || truncated { ended := true; }
      answered := true;
    }

    method CloseEpisode()
      requires Valid()
      modifies this`connected
      ensures Valid() && View() == Perform(setup, old(View()), CloseCall)
    {
      connected := false;
    }
  }

  lemma FieldsAre(c: Setup, sequence: nat, actionCount: nat, totalBytes: nat, reply: Reply)
    requires reply.Answered?
    ensures var ending := EndingOf(c, actionCount, totalBytes, reply);
      FieldsOf(sequence, actionCount, reply, ending) ==
        StepFields(sequence, reply.tick, reply.tool, reply.argumentsDigest, reply.code, reply.resultDigest,
          0.0, ending == Terminates, ending != GoesOn && ending != Terminates, actionCount, reply.request, reply.response)
  {
  }
}

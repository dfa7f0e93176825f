/**
 What ends an episode: for one step exactly when and as what, in terms of the tool, the incident, the counters,
 the tick and the limits, and for whole runs what that means for the steps that are recorded.
 */
module EpisodeLimits {
  import opened T = Transcripts
  import opened Episodes

  // ---------------------------------------------------------------- one step

  // The reply closes the incident: release.status says so.
  predicate Closes(reply: Reply) {
    reply.Answered? && reply.tool == "release.status" && reply.incidentClosed
  }

  predicate StepsAreUp(c: Setup, count: nat) {
    c.maxSteps.AtMost? && c.maxSteps.steps <= count
  }

  /**
   As what a step ends, counters included: each reason exactly when it holds and none before it does. Losing
   the gateway comes first, then closing the incident, the step budget, and the limits on actions, bytes and
   the fake clock.
   */
  lemma EndsAs(c: Setup, e: Episode, reply: Reply)
    requires !reply.NotJson?
    ensures var count, bytes := e.actionCount + 1, e.totalBytes + reply.request + reply.response;
      var ending := EndingFrom(c, e, reply);
      var checked := reply.Answered? && !Closes(reply) && !StepsAreUp(c, count);
      && (ending == GatewayLost <==> reply.Unavailable?)
      && (ending == Terminates <==> Closes(reply))
      && (ending == StepsUsedUp <==> reply.Answered? && !Closes(reply) && StepsAreUp(c, count))
      && (ending == Exceeds(Actions) <==> checked && c.limits.actionLimit < count)
      && (ending == Exceeds(Bytes) <==> checked && count <= c.limits.actionLimit && c.limits.byteLimit < bytes)
      && (ending == Exceeds(FakeClock) <==>
            checked && count <= c.limits.actionLimit && bytes <= c.limits.byteLimit && c.limits.clockLimit < reply.tick)
      && (ending == GoesOn <==>
            checked && count <= c.limits.actionLimit && bytes <= c.limits.byteLimit && reply.tick <= c.limits.clockLimit)
  {
  }

  // What one step of an open episode leaves.
  ghost predicate Ends(c: Setup, e: Episode, reply: Reply, e': Episode)
    requires !reply.NotJson?
  {
    var count, bytes := e.actionCount + 1, e.totalBytes + reply.request + reply.response;
    var n := |e.record.entries|;
    && e'.actionCount == count && e'.totalBytes == bytes && e'.sequence == e.sequence + 1 && e'.connected
    && |e'.record.entries| == n + 1 && e.record.entries <= e'.record.entries && IsStep(e'.record.entries[n])
    && (e'.ended <==>
          || reply.Unavailable? || Closes(reply) || StepsAreUp(c, count)
          || c.limits.actionLimit < count || c.limits.byteLimit < bytes || c.limits.clockLimit < reply.tick)
    && Get(e'.record.entries[n], Terminated) == Bool(Closes(reply))
    && Get(e'.record.entries[n], Truncated) == Bool(e'.ended && !Closes(reply))
    && (e'.grade.Graded? <==> e.grade.Graded? || Closes(reply))
  }

  /** Exactly when a step ends its episode, and what it records of that. */
  lemma StepEndsExactly(c: Setup, e: Episode, reply: Reply)
    requires e.connected && !e.ended && !reply.NotJson?
    ensures Ends(c, e, reply, Step(c, e, reply))
  {
    hide Add, GradeOf, FieldsOf, Get, EndingOf;
    EndsAs(c, e, reply);
    EndingIs(c, e, reply);
    RecordedAs(c, e, reply);
  }

  lemma EndingIs(c: Setup, e: Episode, reply: Reply)
    requires !reply.NotJson?
    ensures EndingFrom(c, e, reply) == EndingOf(c, e.actionCount + 1, e.totalBytes + reply.request + reply.response, reply)
    ensures EndingFrom(c, e, reply).Exceeds? ==> EndingFrom(c, e, reply).limit != Nothing
  {
  }

  lemma RecordedAs(c: Setup, e: Episode, reply: Reply)
    requires e.connected && !e.ended && !reply.NotJson?
    ensures var e' := Step(c, e, reply);
      var n := |e.record.entries|;
      && |e'.record.entries| == n + 1 && e.record.entries <= e'.record.entries
      && (var step := e'.record.entries[n];
          && IsStep(step) && Steps(e'.record.entries) == Steps(e.record.entries) + [step]
          && Get(step, Terminated) == Bool(EndingFrom(c, e, reply) == Terminates)
          && Get(step, Truncated) == Bool(EndingFrom(c, e, reply) != GoesOn && EndingFrom(c, e, reply) != Terminates)
          && Get(step, FakeTick) == Number(if reply.Unavailable? then 0 else reply.tick)
          && Get(step, ErrorCode) == Text(if reply.Unavailable? then "gateway_unavailable" else reply.code)
          && Get(step, ActionCount) == Number(e.actionCount + 1)
          && StepBytes(step) == reply.request + reply.response)
  {
    hide Add, GradeOf, FieldsOf, Get, EndingOf, Steps, StepBytes;
    var ending := EndingFrom(c, e, reply);
    var fields := FieldsOf(e.sequence + 1, e.actionCount + 1, reply, ending);
    StepSaysWhatHappened(c.id, c.key, e.record, e.sequence + 1, e.actionCount + 1, reply, ending);
    BytesOfFields(e.sequence + 1, e.actionCount + 1, reply, ending);
    RecordedStep(c.id, c.key, e.record, fields);
    AddsOne(c.id, c.key, e.record, fields);
  }

  lemma AddsOne(id: Identity, key: string, r: Record, f: StepFields)
    ensures var r' := Add(id, key, r, AddStep(f));
      |r'.entries| == |r.entries| + 1 && r.entries <= r'.entries && IsStep(r'.entries[|r.entries|])
  {
    hide StepBody, DigestOfStep, Sealed;
    BodySurvivesSealing(id, key, f, r.prev);
  }

  // ---------------------------------------------------------------- runs

  // Up to this step everything is within its limits.
  predicate Within(c: Setup, steps: seq<Entry>, i: nat)
    requires i < |steps|
  {
    && NumberOf(Get(steps[i], FakeTick)) <= c.limits.clockLimit
    && NumberOf(Get(steps[i], ActionCount)) <= c.limits.actionLimit
    && SumBytes(steps[..i + 1]) <= c.limits.byteLimit
    && (c.maxSteps.AtMost? ==> NumberOf(Get(steps[i], ActionCount)) < c.maxSteps.steps)
  }

  // Every step but the one that ended the episode is within all limits and does not terminate; that one is not,
  // or it terminates, or the gateway was lost.
  ghost predicate Checked(c: Setup, e: Episode) {
    var steps := Steps(e.record.entries);
    && (forall i :: 0 <= i < |steps| && (e.ended ==> i < |steps| - 1) ==>
          Within(c, steps, i) && Get(steps[i], Terminated) == Bool(false))
    && (e.ended ==>
          && steps != []
          && (var last := |steps| - 1;
              || !Within(c, steps, last) || Get(steps[last], Terminated) == Bool(true)
              || Get(steps[last], ErrorCode) == Text("gateway_unavailable")))
  }

  lemma WithinPrefix(c: Setup, steps: seq<Entry>, step: Entry, i: nat)
    requires i < |steps|
    ensures Within(c, steps + [step], i) <==> Within(c, steps, i)
    ensures (steps + [step])[i] == steps[i]
  {
    assert (steps + [step])[..i + 1] == steps[..i + 1];
  }

  lemma LastWithin(c: Setup, steps: seq<Entry>, step: Entry)
    ensures Within(c, steps + [step], |steps|) <==>
      && NumberOf(Get(step, FakeTick)) <= c.limits.clockLimit
      && NumberOf(Get(step, ActionCount)) <= c.limits.actionLimit
      && SumBytes(steps) + StepBytes(step) <= c.limits.byteLimit
      && (c.maxSteps.AtMost? ==> NumberOf(Get(step, ActionCount)) < c.maxSteps.steps)
  {
    hide StepBytes, Get;
    assert (steps + [step])[..|steps| + 1] == steps + [step];
    SumAppend(steps, step);
  }

  lemma StepIsChecked(c: Setup, e: Episode, raised: nat, reply: Reply)
    requires Accounted(c, e, raised) && Checked(c, e)
    ensures Checked(c, Step(c, e, reply))
  {
    hide Add, WellRecorded, SumBytes, GradeOf, StepBytes, FieldsOf, Get, EndingOf, Within, Steps;
    var e' := Step(c, e, reply);
    if e.connected && !e.ended && !reply.NotJson? {
      StepEndsExactly(c, e, reply);
      RecordedAs(c, e, reply);
      EndsAs(c, e, reply);
      var steps, step := Steps(e.record.entries), e'.record.entries[|e.record.entries|];
      LastWithin(c, steps, step);
      forall i | 0 <= i < |steps| ensures Within(c, steps + [step], i) && Get((steps + [step])[i], Terminated) == Bool(false) {
        WithinPrefix(c, steps, step, i);
      }
      TotalIsSum(c, e, raised);
    }
  }

  lemma TotalIsSum(c: Setup, e: Episode, raised: nat)
    requires Accounted(c, e, raised)
    ensures e.totalBytes == SumBytes(Steps(e.record.entries))
  {
    hide WellRecorded, SumBytes, Steps;
  }

  lemma NothingToCheck(c: Setup, manifest: Value)
    ensures Checked(c, Reset(c, manifest))
  {
    MetaIsNoStep("manifest", manifest);
    StepsAppend([], MetaEntry("manifest", manifest));
  }

  lemma SameChecks(c: Setup, e: Episode, f: Episode)
    requires Checked(c, e) && f.record == e.record && f.ended == e.ended
    ensures Checked(c, f)
  {
  }

  /**
   Over every run since a reset, and with it of every transcript that is graded: the fake clock, the action
   count, the step budget and the bytes so far are within their limits in every step before the one that ended
   the episode, and in all of them while it goes on; and an episode that ended did so for a reason that its last
   step shows.
   */
  lemma {:induction false} StepsAreWithinLimits(c: Setup, manifest: Value, calls: seq<Call>)
    ensures Checked(c, RunAll(c, Reset(c, manifest), calls))
  {
    hide Accounted, Checked, Step, Reset, GradeOf;
    if calls == [] {
      NothingToCheck(c, manifest);
    } else {
      var front := calls[..|calls| - 1];
      StepsAreWithinLimits(c, manifest, front);
      RunIsAccounted(c, manifest, front);
      var before := RunAll(c, Reset(c, manifest), front);
      match calls[|calls| - 1]
      case StepCall(reply) => StepIsChecked(c, before, Raised(c, Reset(c, manifest), front), reply);
      case GradeCall => SameChecks(c, before, Perform(c, before, GradeCall));
      case CloseCall => SameChecks(c, before, Perform(c, before, CloseCall));
    }
  }
}

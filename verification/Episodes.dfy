/**
 Episode accounting: the online counters of the environment, the limits they are checked against, and
 the verifier's recount of the transcript.

 What the gateway answers to an action is a parameter. An action that is no JSON makes the step raise
 after the counters have moved and before anything is recorded.
 */
module Episodes {
  import opened T = Transcripts

  datatype Limits = Limits(actionLimit: nat, byteLimit: nat, clockLimit: int)

  datatype Exceeded = Nothing | Actions | Bytes | FakeClock

  // The order of the checks decides which limit is reported.
  function CheckLimits(l: Limits, actionCount: nat, totalBytes: nat, tick: int): Exceeded {
    if actionCount > l.actionLimit then Actions
    else if totalBytes > l.byteLimit then Bytes
    else if tick > l.clockLimit then FakeClock
    else Nothing
  }

  datatype Reply =
    | NotJson
    | Unavailable(tool: string, argumentsDigest: string, resultDigest: string, request: nat, response: nat)
    | Answered(tool: string, argumentsDigest: string, code: string, resultDigest: string,
               tick: int, incidentClosed: bool, request: nat, response: nat)

  datatype Bound = Unbounded | AtMost(steps: int)

  // The part of a verdict that depends on the transcript alone.
  datatype Grade = Grade(authentic: bool, bounded: bool, actionCount: nat)

  datatype GradeSlot = NotGraded | Graded(grade: Grade)

  datatype Episode = Episode(
    connected: bool, ended: bool, actionCount: nat, totalBytes: nat, sequence: nat, grade: GradeSlot, record: Record)

  // The fixed part of an episode.
  datatype Setup = Setup(version: string, id: Identity, key: string, limits: Limits, maxSteps: Bound)

  datatype Call = StepCall(reply: Reply) | GradeCall | CloseCall

  const STATUS_TOOL := "release.status"

  // ---------------------------------------------------------------- the verifier's recount

  function NumberOf(v: Value): int {
    if v.Number? then v.n else 0
  }

  function StepBytes(e: Entry): int {
    NumberOf(Get(e, RequestBytes)) + NumberOf(Get(e, ResponseBytes))
  }

  function SumBytes(steps: seq<Entry>): int {
    if steps == [] then 0 else SumBytes(steps[..|steps| - 1]) + StepBytes(steps[|steps| - 1])
  }

  predicate BoundedResources(l: Limits, list: seq<Entry>) {
    |Steps(list)| <= l.actionLimit && SumBytes(Steps(list)) <= l.byteLimit
  }

  function GradeOf(c: Setup, r: Record): Grade {
    var list := ToList(c.version, c.id, c.key, r);
    Grade(Accepted(c.id, c.key, list), BoundedResources(c.limits, list), |Steps(list)|)
  }

  // ---------------------------------------------------------------- steps

  function Reset(c: Setup, manifest: Value): Episode {
    Episode(true, false, 0, 0, 0, NotGraded, Add(c.id, c.key, EMPTY, AddMeta("manifest", manifest)))
  }

  datatype Ending = GoesOn | Terminates | StepsUsedUp | Exceeds(limit: Exceeded) | GatewayLost

  // How a recorded step leaves the episode, given the counters that include the step.
  function EndingOf(c: Setup, actionCount: nat, totalBytes: nat, reply: Reply): Ending
    requires !reply.NotJson?
  {
    if reply.Unavailable? then GatewayLost
    else if reply.tool == STATUS_TOOL && reply.incidentClosed then Terminates
    else if c.maxSteps.AtMost? && actionCount >= c.maxSteps.steps then StepsUsedUp
    else
      var limit := CheckLimits(c.limits, actionCount, totalBytes, reply.tick);
      if limit == Nothing then GoesOn else Exceeds(limit)
  }

  function FieldsOf(sequence: nat, actionCount: nat, reply: Reply, ending: Ending): StepFields
    requires !reply.NotJson?
  {
    var tick := if reply.Unavailable? then 0 else reply.tick;
    var code := if reply.Unavailable? then "gateway_unavailable" else reply.code;
    var truncated := ending != GoesOn && ending != Terminates;
    StepFields(sequence, tick, reply.tool, reply.argumentsDigest, code, reply.resultDigest, 0.0,
               ending == Terminates, truncated, actionCount, reply.request, reply.response)
  }

  function GradeNow(c: Setup, e: Episode): Episode {
    if e.grade.Graded? then e else e.(grade := Graded(GradeOf(c, e.record)))
  }

  function Step(c: Setup, e: Episode, reply: Reply): Episode {
    if !e.connected || e.ended then e
    else
      var counted := e.(actionCount := e.actionCount + 1, sequence := e.sequence + 1);
      if reply.NotJson? then counted
      else
        var bytes := e.totalBytes + reply.request + reply.response;
        var ending := EndingOf(c, counted.actionCount, bytes, reply);
        var fields := FieldsOf(counted.sequence, counted.actionCount, reply, ending);
        var recorded := counted.(totalBytes := bytes, record := Add(c.id, c.key, e.record, AddStep(fields)));
        var judged := if ending == Terminates then GradeNow(c, recorded) else recorded;
        judged.(ended := ending != GoesOn)
  }

  function Perform(c: Setup, e: Episode, call: Call): Episode {
    match call
    case StepCall(reply) => Step(c, e, reply)
    case GradeCall => if e.connected then GradeNow(c, e) else e
    case CloseCall => e.(connected := false)
  }

  function RunAll(c: Setup, e: Episode, calls: seq<Call>): Episode {
    if calls == [] then e
    else Perform(c, RunAll(c, e, calls[..|calls| - 1]), calls[|calls| - 1])
  }

  // How many steps of a run raised after counting.
  function Raised(c: Setup, e: Episode, calls: seq<Call>): nat {
    if calls == [] then 0
    else
      var before := RunAll(c, e, calls[..|calls| - 1]);
      var last := calls[|calls| - 1];
      Raised(c, e, calls[..|calls| - 1]) +
        if last == StepCall(NotJson) && before.connected && !before.ended then 1 else 0
  }

  // ---------------------------------------------------------------- conservation

  ghost predicate Accounted(c: Setup, e: Episode, raised: nat) {
    && WellRecorded(c.id, c.key, e.record)
    && e.sequence == e.actionCount == |Steps(e.record.entries)| + raised
    && e.totalBytes == SumBytes(Steps(e.record.entries))
    && (!e.ended ==> |Steps(e.record.entries)| <= c.limits.actionLimit && e.totalBytes <= c.limits.byteLimit)
  }

  lemma RecordedStep(id: Identity, key: string, r: Record, f: StepFields)
    ensures var r' := Add(id, key, r, AddStep(f));
      && |r'.entries| == |r.entries| + 1
      && Steps(r'.entries) == Steps(r.entries) + [r'.entries[|r.entries|]]
      && Get(r'.entries[|r.entries|], Sequence) == Number(f.sequence)
      && Get(r'.entries[|r.entries|], ActionCount) == Number(f.actionCount)
      && StepBytes(r'.entries[|r.entries|]) == f.requestBytes + f.responseBytes
  {
    hide BodyOf, DigestOfStep, StepAuthentic, Sealed, StepBody;
    var body := StepBody(id, f, r.prev);
    StepBodyFields(id, f, r.prev);
    StepBodyNumbers(id, f, r.prev);
    SealedKeepsBody(key, body);
    BodySurvivesSealing(id, key, f, r.prev);
    StepsAppend(r.entries, Sealed(key, body));
  }

  lemma StepBodyNumbers(id: Identity, f: StepFields, prev: Value)
    ensures RequestBytes in BODY_FIELDS && ResponseBytes in BODY_FIELDS
    ensures Sequence in BODY_FIELDS && ActionCount in BODY_FIELDS
    ensures var body := StepBody(id, f, prev);
      && body[RequestBytes] == Number(f.requestBytes) && body[ResponseBytes] == Number(f.responseBytes)
      && body[Sequence] == Number(f.sequence) && body[ActionCount] == Number(f.actionCount)
  {
  }

  lemma SumAppend(steps: seq<Entry>, e: Entry)
    ensures SumBytes(steps + [e]) == SumBytes(steps) + StepBytes(e)
  {
    assert (steps + [e])[..|steps|] == steps;
  }

  lemma StepConserves(c: Setup, e: Episode, raised: nat, reply: Reply)
    requires Accounted(c, e, raised)
    ensures Accounted(c, Step(c, e, reply), raised + if reply.NotJson? && e.connected && !e.ended then 1 else 0)
  {
    hide Add, WellRecorded, SumBytes, Steps, GradeOf, StepBytes, FieldsOf;
    if e.connected && !e.ended && !reply.NotJson? {
      var bytes := e.totalBytes + reply.request + reply.response;
      var fields := FieldsOf(e.sequence + 1, e.actionCount + 1, reply, EndingOf(c, e.actionCount + 1, bytes, reply));
      AdditionKeepsChain(c.id, c.key, e.record, AddStep(fields));
      RecordedStep(c.id, c.key, e.record, fields);
      BytesOfFields(e.sequence + 1, e.actionCount + 1, reply, EndingOf(c, e.actionCount + 1, bytes, reply));
      var r := Add(c.id, c.key, e.record, AddStep(fields));
      SumAppend(Steps(e.record.entries), r.entries[|e.record.entries|]);
    }
  }

  lemma BytesOfFields(sequence: nat, actionCount: nat, reply: Reply, ending: Ending)
    requires !reply.NotJson?
    ensures var f := FieldsOf(sequence, actionCount, reply, ending);
      f.requestBytes == reply.request && f.responseBytes == reply.response &&
      f.sequence == sequence && f.actionCount == actionCount
  {
  }

  lemma ResetIsAccounted(c: Setup, manifest: Value)
    ensures Accounted(c, Reset(c, manifest), 0)
  {
    hide Chained;
    NoSteps(c.id, c.key);
    AdditionKeepsChain(c.id, c.key, EMPTY, AddMeta("manifest", manifest));
    MetaIsNoStep("manifest", manifest);
    StepsAppend([], MetaEntry("manifest", manifest));
  }

  lemma {:induction false} RunIsAccounted(c: Setup, manifest: Value, calls: seq<Call>)
    ensures Accounted(c, RunAll(c, Reset(c, manifest), calls), Raised(c, Reset(c, manifest), calls))
  {
    hide Accounted, Step, Reset, GradeOf;
    ResetIsAccounted(c, manifest);
    if calls != [] {
      var front := calls[..|calls| - 1];
      RunIsAccounted(c, manifest, front);
      var before := RunAll(c, Reset(c, manifest), front);
      var raised := Raised(c, Reset(c, manifest), front);
      match calls[|calls| - 1]
      case StepCall(reply) => StepConserves(c, before, raised, reply);
      case GradeCall => SameCounters(c, before, Perform(c, before, GradeCall), raised);
      case CloseCall => SameCounters(c, before, Perform(c, before, CloseCall), raised);
    }
  }

  lemma SameCounters(c: Setup, e: Episode, f: Episode, raised: nat)
    requires Accounted(c, e, raised)
    requires f.record == e.record && f.actionCount == e.actionCount && f.sequence == e.sequence
    requires f.totalBytes == e.totalBytes && f.ended == e.ended
    ensures Accounted(c, f, raised)
  {
  }

  lemma StepsOfList(c: Setup, r: Record)
    ensures Steps(ToList(c.version, c.id, c.key, r)) == Steps(r.entries)
  {
    hide Header;
    HeaderOfRecord(c.version, c.id, c.key, r);
    assert "step"[0] != "meta"[0];
    SkipFirst(Header(c.version, c.id, c.key, r), r.entries);
  }

  lemma {:induction false} SkipFirst(e: Entry, entries: seq<Entry>)
    requires !IsStep(e)
    ensures Steps([e] + entries) == Steps(entries)
  {
    hide IsStep;
    if entries == [] {
      assert [e] + entries == [] + [e];
      StepsAppend([], e);
    } else {
      var front := entries[..|entries| - 1];
      SkipFirst(e, front);
      assert ([e] + entries)[..|entries|] == [e] + front;
    }
  }

  /**
   Conservation over every run since the reset. The verifier's recount of the transcript, which it finds
   authentic, is the online byte counter and the online action counter less the steps that raised; and as
   long as the episode has not ended the recount is within the limits.
   */
  lemma RecountAgrees(c: Setup, manifest: Value, calls: seq<Call>)
    ensures var e := RunAll(c, Reset(c, manifest), calls);
      var list := ToList(c.version, c.id, c.key, e.record);
      && Accepted(c.id, c.key, list)
      && |Steps(list)| + Raised(c, Reset(c, manifest), calls) == e.actionCount == e.sequence
      && SumBytes(Steps(list)) == e.totalBytes
      && (!e.ended ==> BoundedResources(c.limits, list))
  {
    hide Reset, RunAll, Raised, SumBytes, Steps, Accepted, ToList;
    RunIsAccounted(c, manifest, calls);
    var e := RunAll(c, Reset(c, manifest), calls);
    StepsOfList(c, e.record);
    WellRecordedIsAccepted(c.version, c.id, c.key, e.record);
  }

  // ---------------------------------------------------------------- how an episode ends

  // The ending of one step made from an accounted state that has not ended.
  function EndingFrom(c: Setup, e: Episode, reply: Reply): Ending
    requires !reply.NotJson?
  {
    EndingOf(c, e.actionCount + 1, e.totalBytes + reply.request + reply.response, reply)
  }

  /**
   What an ending says about the verdict on resources. A step that goes on, or that runs into the fake
   clock, was checked and is bounded; one cut off for its bytes is not; one cut off for the action limit
   is not either, unless so many steps raised that the recorded ones still fit. The check is skipped when
   the episode terminates, uses up its steps or loses the gateway, and then the last step decides.
   */
  lemma EndingDecidesBounds(c: Setup, e: Episode, raised: nat, reply: Reply)
    requires Accounted(c, e, raised) && e.connected && !e.ended && !reply.NotJson?
    ensures var e' := Step(c, e, reply);
      var bounded := BoundedResources(c.limits, ToList(c.version, c.id, c.key, e'.record));
      var steps := e.actionCount + 1 - raised;
      match EndingFrom(c, e, reply)
      case GoesOn => bounded && !e'.ended
      case Exceeds(FakeClock) => bounded && e'.ended
      case Exceeds(Bytes) => !bounded && e'.ended && e'.actionCount <= c.limits.actionLimit
      case Exceeds(_) =>
        && e'.ended && e'.actionCount > c.limits.actionLimit
        && (bounded <==> steps <= c.limits.actionLimit && e'.totalBytes <= c.limits.byteLimit)
      case _ => e'.ended && (bounded <==> steps <= c.limits.actionLimit && e'.totalBytes <= c.limits.byteLimit)
  {
    hide Add, WellRecorded, SumBytes, Steps, GradeOf, FieldsOf, ToList;
    StepConserves(c, e, raised, reply);
    StepsOfList(c, Step(c, e, reply).record);
  }

  /** With no raised step, truncation for the action or byte limit makes the verdict on resources false. */
  lemma TruncationIsUnbounded(c: Setup, manifest: Value, calls: seq<Call>, reply: Reply)
    requires Raised(c, Reset(c, manifest), calls) == 0 && !reply.NotJson?
    requires var e := RunAll(c, Reset(c, manifest), calls); e.connected && !e.ended
    requires var ending := EndingFrom(c, RunAll(c, Reset(c, manifest), calls), reply);
      ending == Exceeds(Actions) || ending == Exceeds(Bytes)
    ensures var e := RunAll(c, Reset(c, manifest), calls + [StepCall(reply)]);
      e.ended && !BoundedResources(c.limits, ToList(c.version, c.id, c.key, e.record))
  {
    hide Reset, Step, BoundedResources, ToList, Accounted;
    RunIsAccounted(c, manifest, calls);
    assert (calls + [StepCall(reply)])[..|calls|] == calls;
    EndingDecidesBounds(c, RunAll(c, Reset(c, manifest), calls), 0, reply);
  }

  /** The step that closes the incident is not checked: it may go over the byte limit, and is graded so. */
  lemma TerminatingStepMayOvershoot(c: Setup, manifest: Value)
    ensures var reply := Answered(STATUS_TOOL, "", "ok", "", 0, true, 0, c.limits.byteLimit + 1);
      var e := Step(c, Reset(c, manifest), reply);
      e.ended && e.grade.Graded? && e.grade.grade.authentic && !e.grade.grade.bounded
  {
    hide Add, WellRecorded, SumBytes, Steps, FieldsOf, Accepted, ToList, BoundedResources, Reset;
    var reply := Answered(STATUS_TOOL, "", "ok", "", 0, true, 0, c.limits.byteLimit + 1);
    var e := Reset(c, manifest);
    ResetIsAccounted(c, manifest);
    ResetIsOpen(c, manifest);
    EndingDecidesBounds(c, e, 0, reply);
    StepConserves(c, e, 0, reply);
    WellRecordedIsAccepted(c.version, c.id, c.key, Step(c, e, reply).record);
  }

  lemma ResetIsOpen(c: Setup, manifest: Value)
    ensures var e := Reset(c, manifest);
      e.connected && !e.ended && e.grade.NotGraded? && e.actionCount == 0 && e.totalBytes == 0
  {
  }

  /** Steps that raise use up the action limit online, but the verifier does not see them. */
  lemma RaisedStepsAreNotRecounted(c: Setup, manifest: Value, reply: Reply)
    requires c.limits.actionLimit == 1 && c.maxSteps == Unbounded
    requires reply == Answered("workspace.read", "", "ok", "", 0, false, 0, 0)
    ensures var before := RunAll(c, Reset(c, manifest), [StepCall(NotJson)]);
      var e := RunAll(c, Reset(c, manifest), [StepCall(NotJson), StepCall(reply)]);
      && EndingFrom(c, before, reply) == Exceeds(Actions) && e.ended
      && BoundedResources(c.limits, ToList(c.version, c.id, c.key, e.record))
  {
    hide Add, WellRecorded, SumBytes, Steps, FieldsOf, Accepted, ToList, BoundedResources;
    var e0 := Reset(c, manifest);
    ResetIsAccounted(c, manifest);
    StepConserves(c, e0, 0, NotJson);
    var e1 := Step(c, e0, NotJson);
    assert [StepCall(NotJson)][..0] == [];
    assert [StepCall(NotJson), StepCall(reply)][..1] == [StepCall(NotJson)];
    assert RunAll(c, e0, [StepCall(NotJson)]) == e1;
    assert reply.tool != STATUS_TOOL by { assert reply.tool[0] != STATUS_TOOL[0]; }
    EndingDecidesBounds(c, e1, 1, reply);
  }

  // ---------------------------------------------------------------- what the steps say

  predicate Flagged(e: Entry) {
    Get(e, Terminated) == Bool(true) || Get(e, Truncated) == Bool(true)
  }

  // The steps number themselves in increasing order, and exactly the one that ended the episode is flagged.
  ghost predicate Marked(e: Episode, raised: nat) {
    var steps := Steps(e.record.entries);
    && (forall i :: 0 <= i < |steps| ==>
          Get(steps[i], Sequence) == Get(steps[i], ActionCount) && i + 1 <= NumberOf(Get(steps[i], Sequence)) <= i + 1 + raised)
    && (forall i, k :: 0 <= i < k < |steps| ==> NumberOf(Get(steps[i], Sequence)) < NumberOf(Get(steps[k], Sequence)))
    && (forall i :: 0 <= i < |steps| ==> NumberOf(Get(steps[i], Sequence)) <= e.sequence)
    && (forall i :: 0 <= i < |steps| ==> (Flagged(steps[i]) <==> e.ended && i == |steps| - 1))
    && (e.ended ==> steps != [])
  }

  lemma StepSaysWhatHappened(id: Identity, key: string, r: Record, sequence: nat, actionCount: nat, reply: Reply, ending: Ending)
    requires !reply.NotJson?
    ensures var r' := Add(id, key, r, AddStep(FieldsOf(sequence, actionCount, reply, ending)));
      var e := r'.entries[|r.entries|];
      && |r'.entries| == |r.entries| + 1 && Steps(r'.entries) == Steps(r.entries) + [e]
      && Get(e, Sequence) == Number(sequence) && Get(e, ActionCount) == Number(actionCount)
      && Get(e, RequestBytes) == Number(reply.request) && Get(e, ResponseBytes) == Number(reply.response)
      && Get(e, ToolName) == Text(reply.tool) && Get(e, ArgumentsDigest) == Text(reply.argumentsDigest)
      && Get(e, ResultDigest) == Text(reply.resultDigest) && Get(e, RewardDelta) == Real(0.0)
      && Get(e, FakeTick) == Number(if reply.Unavailable? then 0 else reply.tick)
      && Get(e, ErrorCode) == Text(if reply.Unavailable? then "gateway_unavailable" else reply.code)
      && Get(e, Terminated) == Bool(ending == Terminates)
      && Get(e, Truncated) == Bool(ending != GoesOn && ending != Terminates)
      && (Flagged(e) <==> ending != GoesOn)
  {
    hide BodyOf, DigestOfStep, StepAuthentic, Sealed, StepBody;
    var f := FieldsOf(sequence, actionCount, reply, ending);
    var body := StepBody(id, f, r.prev);
    StepBodyFields(id, f, r.prev);
    StepBodyNumbers(id, f, r.prev);
    StepBodyTexts(id, f, r.prev);
    SealedKeepsBody(key, body);
    BodySurvivesSealing(id, key, f, r.prev);
    StepsAppend(r.entries, Sealed(key, body));
  }

  lemma StepBodyTexts(id: Identity, f: StepFields, prev: Value)
    ensures ToolName in BODY_FIELDS && Terminated in BODY_FIELDS && Truncated in BODY_FIELDS && FakeTick in BODY_FIELDS
    ensures ArgumentsDigest in BODY_FIELDS && ErrorCode in BODY_FIELDS && ResultDigest in BODY_FIELDS && RewardDelta in BODY_FIELDS
    ensures var body := StepBody(id, f, prev);
      && body[ToolName] == Text(f.tool) && body[Terminated] == Bool(f.terminated) && body[Truncated] == Bool(f.truncated)
      && body[FakeTick] == Number(f.tick) && body[ErrorCode] == Text(f.successCode) && body[RewardDelta] == Real(f.rewardDelta)
      && body[ArgumentsDigest] == Text(f.argumentsDigest) && body[ResultDigest] == Text(f.resultDigest)
  {
  }

  // One more recorded step, with the next number, flagged when it ends the episode.
  lemma MarkOneMore(e: Episode, f: Episode, raised: nat, step: Entry)
    requires Marked(e, raised) && !e.ended && Steps(f.record.entries) == Steps(e.record.entries) + [step]
    requires e.sequence == |Steps(e.record.entries)| + raised && f.sequence == e.sequence + 1
    requires Get(step, Sequence) == Get(step, ActionCount) == Number(f.sequence) && (Flagged(step) <==> f.ended)
    ensures Marked(f, raised)
  {
    hide Get, Flagged, Steps;
  }

  lemma RaiseOneMore(e: Episode, f: Episode, raised: nat)
    requires Marked(e, raised) && f.record == e.record && f.ended == e.ended && e.sequence <= f.sequence
    ensures Marked(f, raised + 1)
  {
    hide Get, Flagged, Steps;
  }

  lemma StepMarks(c: Setup, e: Episode, raised: nat, reply: Reply)
    requires Accounted(c, e, raised) && Marked(e, raised)
    ensures Marked(Step(c, e, reply), raised + if reply.NotJson? && e.connected && !e.ended then 1 else 0)
  {
    hide Add, WellRecorded, SumBytes, Steps, GradeOf, StepBytes, FieldsOf, Get, Flagged, Marked;
    var f := Step(c, e, reply);
    if !e.connected || e.ended {
    } else if reply.NotJson? {
      RaiseOneMore(e, f, raised);
    } else {
      var bytes := e.totalBytes + reply.request + reply.response;
      StepSaysWhatHappened(c.id, c.key, e.record, e.sequence + 1, e.actionCount + 1, reply,
                           EndingOf(c, e.actionCount + 1, bytes, reply));
      MarkOneMore(e, f, raised, f.record.entries[|e.record.entries|]);
    }
  }

  lemma NothingMarked(c: Setup, manifest: Value)
    ensures Marked(Reset(c, manifest), 0)
  {
    hide Chained;
    MetaIsNoStep("manifest", manifest);
    StepsAppend([], MetaEntry("manifest", manifest));
  }

  lemma SameMarks(e: Episode, f: Episode, raised: nat)
    requires Marked(e, raised) && f.record == e.record && f.sequence == e.sequence && f.ended == e.ended
    ensures Marked(f, raised)
  {
  }

  /**
   Over every run since a reset the recorded steps number themselves in increasing order, without a gap
   when no step raised, and a step says that the episode ended exactly if it is the one that ended it.
   */
  lemma {:induction false} StepsMarkTheEnd(c: Setup, manifest: Value, calls: seq<Call>)
    ensures Marked(RunAll(c, Reset(c, manifest), calls), Raised(c, Reset(c, manifest), calls))
  {
    hide Accounted, Marked, Step, Reset, GradeOf;
    if calls == [] {
      NothingMarked(c, manifest);
    } else {
      var front := calls[..|calls| - 1];
      StepsMarkTheEnd(c, manifest, front);
      RunIsAccounted(c, manifest, front);
      var before := RunAll(c, Reset(c, manifest), front);
      var raised := Raised(c, Reset(c, manifest), front);
      match calls[|calls| - 1]
      case StepCall(reply) => StepMarks(c, before, raised, reply);
      case GradeCall => SameMarks(before, Perform(c, before, GradeCall), raised);
      case CloseCall => SameMarks(before, Perform(c, before, CloseCall), raised);
    }
  }

  // ---------------------------------------------------------------- grades

  /** What the grade of any record says: whether it is chained, how many steps it has, and whether they are within limits. */
  lemma GradedExactly(c: Setup, r: Record)
    ensures var g := GradeOf(c, r);
      && (g.authentic <==> WellRecorded(c.id, c.key, r))
      && g.actionCount == |Steps(r.entries)|
      && (g.bounded <==> |Steps(r.entries)| <= c.limits.actionLimit && SumBytes(Steps(r.entries)) <= c.limits.byteLimit)
  {
    hide WellRecorded, SumBytes, Steps, Accepted, ToList;
    StepsOfList(c, r);
    AcceptedIsWellRecorded(c.version, c.id, c.key, r);
  }

  /**
   So a first grade of a connected episode, over every run since a reset, is authentic, counts the actions less
   those that raised, and is bounded exactly if these and the bytes sent are within their limits.
   */
  lemma GradeTellsRun(c: Setup, manifest: Value, calls: seq<Call>)
    requires var e := RunAll(c, Reset(c, manifest), calls); e.connected && e.grade.NotGraded?
    ensures var e := RunAll(c, Reset(c, manifest), calls);
      var slot := Perform(c, e, GradeCall).grade;
      var count := e.actionCount - Raised(c, Reset(c, manifest), calls);
      && slot.Graded? && slot.grade.authentic && slot.grade.actionCount == count
      && (slot.grade.bounded <==> count <= c.limits.actionLimit && e.totalBytes <= c.limits.byteLimit)
  {
    hide Reset, RunAll, Raised, SumBytes, Steps, WellRecorded, GradeOf;
    RunIsAccounted(c, manifest, calls);
    GradedExactly(c, RunAll(c, Reset(c, manifest), calls).record);
  }

  /** A grade, once computed, stays: whatever is called afterwards. */
  lemma {:induction false} GradeIsFrozen(c: Setup, e: Episode, calls: seq<Call>)
    requires e.grade.Graded?
    ensures RunAll(c, e, calls).grade == e.grade
  {
    hide Add, GradeOf, FieldsOf;
    if calls != [] {
      GradeIsFrozen(c, e, calls[..|calls| - 1]);
    }
  }

  /** Closing disconnects, and after it nothing moves: no step is taken and no grade computed, until a reset. */
  lemma {:induction false} ClosedIsFrozen(c: Setup, e: Episode, calls: seq<Call>)
    ensures Perform(c, e, CloseCall) == e.(connected := false)
    ensures RunAll(c, e.(connected := false), calls) == e.(connected := false)
  {
    hide Add, GradeOf, FieldsOf, EndingOf;
    if calls != [] {
      ClosedIsFrozen(c, e, calls[..|calls| - 1]);
    }
  }

  /** An ended episode is never written to again, so its first grade is the grade of its final transcript. */
  lemma {:induction false} EndedIsFinal(c: Setup, e: Episode, calls: seq<Call>)
    requires e.ended
    ensures var f := RunAll(c, e, calls);
      && f.ended && f.record == e.record && f.actionCount == e.actionCount && f.totalBytes == e.totalBytes
      && (e.grade.NotGraded? && f.grade.Graded? ==> f.grade.grade == GradeOf(c, f.record))
  {
    hide Add, GradeOf, FieldsOf, EndingOf;
    if calls != [] {
      EndedIsFinal(c, e, calls[..|calls| - 1]);
    }
  }
}

/**
 The authenticated transcript of an episode, and the verifier's check of it.

 Entries are JSON objects. Digests and message authentication codes are symbolic values: the constructor
 of the hash applied to what is hashed, so that equal digests have equal content, MACs under different
 keys differ, and no digest equals a plain string.
 */
module Transcripts {

  // The field names an entry may have; `OtherField` is any further name.
  datatype Field =
    | Kind | Sequence | FakeTick | ToolName | ArgumentsDigest | ErrorCode | ResultDigest | RewardDelta
    | Terminated | Truncated | ActionCount | RequestBytes | ResponseBytes
    | SessionId | InstanceId | Split | Seed | ProfileBinding | PreviousDigest
    | AuthTag | StepDigest | Version | TranscriptDigest | ChainMac | FinalPrev | MetaKey | MetaValue
    | OtherField(name: string)

  type Entry = map<Field, Value>

  datatype Value =
    | Null
    | Bool(b: bool)
    | Number(n: int)
    | Real(r: real)
    | Text(s: string)
    | Object(fields: map<Field, Value>)
    | Array(items: seq<Value>)
    | StepHash(body: map<Field, Value>)
    | ListHash(entries: seq<map<Field, Value>>)
    | Mac(key: string, payload: map<Field, Value>)

  datatype Identity = Identity(sessionId: string, instanceId: string, split: string, seed: int, profileBinding: string)

  // What the episode records about one step.
  datatype StepFields = StepFields(
    sequence: int, tick: int, tool: string, argumentsDigest: string, successCode: string, resultDigest: string,
    rewardDelta: real, terminated: bool, truncated: bool, actionCount: int, requestBytes: int, responseBytes: int)

  // A transcript being recorded: the entries so far and the digest of the last step.
  datatype Record = Record(entries: seq<Entry>, prev: Value)

  datatype Addition = AddStep(fields: StepFields) | AddMeta(key: string, value: Value)

  const GENESIS := Text("genesis")
  const STEP := Text("step")
  const META := Text("meta")

  const EMPTY := Record([], GENESIS)

  const BODY_FIELDS: set<Field> := {
    Kind, Sequence, FakeTick, ToolName, ArgumentsDigest, ErrorCode, ResultDigest, RewardDelta, Terminated, Truncated,
    ActionCount, RequestBytes, ResponseBytes, SessionId, InstanceId, Split, Seed, ProfileBinding, PreviousDigest}

  // dict.get: a missing field reads as null.
  function Get(e: Entry, f: Field): Value {
    if f in e then e[f] else Null
  }

  predicate IsStep(e: Entry) {
    Get(e, Kind) == STEP
  }

  function Steps(entries: seq<Entry>): (r: seq<Entry>)
    ensures forall i :: 0 <= i < |r| ==> IsStep(r[i])
    ensures |r| <= |entries|
  {
    if entries == [] then []
    else
      var front, last := Steps(entries[..|entries| - 1]), entries[|entries| - 1];
      if IsStep(last) then front + [last] else front
  }

  lemma StepsAppend(entries: seq<Entry>, e: Entry)
    ensures Steps(entries + [e]) == if IsStep(e) then Steps(entries) + [e] else Steps(entries)
  {
    assert (entries + [e])[..|entries|] == entries;
  }

  // ---------------------------------------------------------------- recording

  // The value of each field of a step body.
  function StepValue(id: Identity, s: StepFields, prev: Value, f: Field): Value {
    match f
    case Kind => STEP
    case Sequence => Number(s.sequence)
    case FakeTick => Number(s.tick)
    case ToolName => Text(s.tool)
    case ArgumentsDigest => Text(s.argumentsDigest)
    case ErrorCode => Text(s.successCode)
    case ResultDigest => Text(s.resultDigest)
    case RewardDelta => Real(s.rewardDelta)
    case Terminated => Bool(s.terminated)
    case Truncated => Bool(s.truncated)
    case ActionCount => Number(s.actionCount)
    case RequestBytes => Number(s.requestBytes)
    case ResponseBytes => Number(s.responseBytes)
    case SessionId => Text(id.sessionId)
    case InstanceId => Text(id.instanceId)
    case Split => Text(id.split)
    case Seed => Number(id.seed)
    case ProfileBinding => Text(id.profileBinding)
    case PreviousDigest => prev
    case _ => Null
  }

  function StepBody(id: Identity, s: StepFields, prev: Value): Entry {
    map f | f in BODY_FIELDS :: StepValue(id, s, prev, f)
  }

  // The digest of a step covers its body and its tag.
  function DigestOfStep(key: string, body: Entry): Value {
    StepHash(body[AuthTag := Mac(key, body)])
  }

  function Sealed(key: string, body: Entry): Entry {
    body[AuthTag := Mac(key, body)][StepDigest := DigestOfStep(key, body)]
  }

  function MetaEntry(key: string, value: Value): Entry {
    map[Kind := META, MetaKey := Text(key), MetaValue := value]
  }

  function Add(id: Identity, key: string, r: Record, op: Addition): Record {
    match op
    case AddStep(f) =>
      var body := StepBody(id, f, r.prev);
      Record(r.entries + [Sealed(key, body)], DigestOfStep(key, body))
    case AddMeta(k, v) => Record(r.entries + [MetaEntry(k, v)], r.prev)
  }

  function AddAll(id: Identity, key: string, ops: seq<Addition>): Record {
    if ops == [] then EMPTY
    else Add(id, key, AddAll(id, key, ops[..|ops| - 1]), ops[|ops| - 1])
  }

  function ListDigest(entries: seq<Entry>): Value {
    ListHash(Steps(entries))
  }

  function ChainTag(id: Identity, key: string, listDigest: Value, finalPrev: Value): Value {
    Mac(key, map[SessionId := Text(id.sessionId), InstanceId := Text(id.instanceId), Split := Text(id.split),
                 Seed := Number(id.seed), ProfileBinding := Text(id.profileBinding),
                 TranscriptDigest := listDigest, FinalPrev := finalPrev])
  }

  function Header(version: string, id: Identity, key: string, r: Record): Entry {
    map[Kind := META, Version := Text(version), InstanceId := Text(id.instanceId), Split := Text(id.split),
        Seed := Number(id.seed), SessionId := Text(id.sessionId), ProfileBinding := Text(id.profileBinding),
        TranscriptDigest := ListDigest(r.entries), ChainMac := ChainTag(id, key, ListDigest(r.entries), r.prev)]
  }

  function ToList(version: string, id: Identity, key: string, r: Record): seq<Entry> {
    [Header(version, id, key, r)] + r.entries
  }

  // ---------------------------------------------------------------- what acceptance means

  // The authenticated part of an entry; missing fields count as null.
  function BodyOf(e: Entry): Entry {
    map f | f in BODY_FIELDS :: Get(e, f)
  }

  predicate Names(e: Entry, id: Identity) {
    && Get(e, SessionId) == Text(id.sessionId)
    && Get(e, InstanceId) == Text(id.instanceId)
    && Get(e, Split) == Text(id.split)
    && Get(e, Seed) == Number(id.seed)
    && Get(e, ProfileBinding) == Text(id.profileBinding)
  }

  predicate StepAuthentic(id: Identity, key: string, e: Entry, prev: Value) {
    && Get(e, AuthTag) == Mac(key, BodyOf(e))
    && Get(e, PreviousDigest) == prev
    && Names(e, id)
    && Get(e, StepDigest) == DigestOfStep(key, BodyOf(e))
  }

  function LastDigest(steps: seq<Entry>): Value {
    if steps == [] then GENESIS else Get(steps[|steps| - 1], StepDigest)
  }

  predicate Chained(id: Identity, key: string, steps: seq<Entry>) {
    forall i :: 0 <= i < |steps| ==> StepAuthentic(id, key, steps[i], LastDigest(steps[..i]))
  }

  predicate Accepted(id: Identity, key: string, list: seq<Entry>) {
    && list != []
    && Get(list[0], Kind) == META && Names(list[0], id)
    && Chained(id, key, Steps(list[1..]))
    && Get(list[0], TranscriptDigest) == ListDigest(list[1..])
    && Get(list[0], ChainMac) == ChainTag(id, key, ListDigest(list[1..]), LastDigest(Steps(list[1..])))
  }

  lemma ChainedFront(id: Identity, key: string, steps: seq<Entry>, e: Entry)
    ensures Chained(id, key, steps + [e]) <==> Chained(id, key, steps) && StepAuthentic(id, key, e, LastDigest(steps))
  {
    var all := steps + [e];
    assert all[..|steps|] == steps;
    forall i | 0 <= i < |steps| ensures all[..i] == steps[..i] && all[i] == steps[i] {
    }
    if Chained(id, key, all) {
      assert StepAuthentic(id, key, all[|steps|], LastDigest(all[..|steps|]));
      forall i | 0 <= i < |steps| ensures StepAuthentic(id, key, steps[i], LastDigest(steps[..i])) {
        assert StepAuthentic(id, key, all[i], LastDigest(all[..i]));
      }
    }
  }

  lemma ChainedPrefix(id: Identity, key: string, steps: seq<Entry>, n: nat)
    requires Chained(id, key, steps) && n <= |steps|
    ensures Chained(id, key, steps[..n])
  {
    forall i | 0 <= i < n ensures StepAuthentic(id, key, steps[..n][i], LastDigest(steps[..n][..i])) {
      assert steps[..n][..i] == steps[..i];
      assert StepAuthentic(id, key, steps[i], LastDigest(steps[..i]));
    }
  }

  /** The verifier's loop: it accepts exactly the transcripts above. */
  method VerifyTranscript(list: seq<Entry>, id: Identity, key: string) returns (accepted: bool)
    ensures accepted <==> Accepted(id, key, list)
  {
    hide BodyOf, StepAuthentic, Names, ChainTag, Steps, Chained;
    if list == [] { return false; }
    var header := list[0];
    if Get(header, Kind) != META || !Names(header, id) { return false; }
    var rest := list[1..];
    var prev := GENESIS;
    var steps: seq<Entry> := [];
    assert rest[..0] == [];
    NoSteps(id, key);
    for i := 0 to |rest|
      invariant steps == Steps(rest[..i])
      invariant prev == LastDigest(steps)
      invariant Chained(id, key, steps)
    {
      var entry := rest[i];
      assert rest[..i + 1] == rest[..i] + [entry];
      StepsAppend(rest[..i], entry);
      if !IsStep(entry) { continue; }
      ChainedFront(id, key, steps, entry);
      if !StepAuthentic(id, key, entry, prev) {
        StepsPrefix(rest, i + 1);
        if Chained(id, key, Steps(rest)) { ChainedPrefix(id, key, Steps(rest), |steps| + 1); }
        return false;
      }
      prev := Get(entry, StepDigest);
      steps := steps + [entry];
    }
    assert rest[..|rest|] == rest;
    var digest := ListHash(steps);
    if Get(header, TranscriptDigest) != digest { return false; }
    return Get(header, ChainMac) == ChainTag(id, key, digest, prev);
  }

  lemma NoSteps(id: Identity, key: string)
    ensures Steps([]) == [] && Chained(id, key, [])
  {
  }

  lemma {:induction false} StepsPrefix(entries: seq<Entry>, n: nat)
    requires n <= |entries|
    ensures |Steps(entries[..n])| <= |Steps(entries)| && Steps(entries)[..|Steps(entries[..n])|] == Steps(entries[..n])
  {
    if n == |entries| {
      assert entries[..n] == entries;
    } else {
      StepsPrefix(entries[..|entries| - 1], n);
      assert entries[..|entries| - 1][..n] == entries[..n];
    }
  }

  // ---------------------------------------------------------------- what is recorded is accepted

  lemma SealedKeepsBody(key: string, body: Entry)
    requires body.Keys == BODY_FIELDS
    ensures var e := Sealed(key, body);
      && BodyOf(e) == body
      && Get(e, AuthTag) == Mac(key, body) && Get(e, StepDigest) == DigestOfStep(key, body)
      && forall f :: f in BODY_FIELDS ==> Get(e, f) == body[f]
  {
    hide DigestOfStep;
    var e := Sealed(key, body);
    forall k | k in BODY_FIELDS ensures Get(e, k) == body[k] {
      assert k != AuthTag && k != StepDigest;
    }
    assert BodyOf(e) == body;
  }

  lemma StepBodyFields(id: Identity, f: StepFields, prev: Value)
    ensures var body := StepBody(id, f, prev);
      && body.Keys == BODY_FIELDS
      && body[Kind] == STEP && body[PreviousDigest] == prev && Names(body, id)
  {
    var body := StepBody(id, f, prev);
    assert Kind in BODY_FIELDS && PreviousDigest in BODY_FIELDS && SessionId in BODY_FIELDS && InstanceId in BODY_FIELDS;
    assert Split in BODY_FIELDS && Seed in BODY_FIELDS && ProfileBinding in BODY_FIELDS;
    assert body.Keys == BODY_FIELDS;
  }

  lemma BodySurvivesSealing(id: Identity, key: string, f: StepFields, prev: Value)
    ensures var e := Sealed(key, StepBody(id, f, prev));
      && IsStep(e) && StepAuthentic(id, key, e, prev)
      && Get(e, StepDigest) == DigestOfStep(key, StepBody(id, f, prev))
  {
    hide DigestOfStep, BodyOf, Sealed, StepBody;
    var body := StepBody(id, f, prev);
    StepBodyFields(id, f, prev);
    SealedKeepsBody(key, body);
    var e := Sealed(key, body);
    assert Kind in BODY_FIELDS && PreviousDigest in BODY_FIELDS && SessionId in BODY_FIELDS && InstanceId in BODY_FIELDS;
    assert Split in BODY_FIELDS && Seed in BODY_FIELDS && ProfileBinding in BODY_FIELDS;
  }

  lemma MetaIsNoStep(key: string, value: Value)
    ensures !IsStep(MetaEntry(key, value))
    ensures Get(MetaEntry(key, value), MetaKey) == Text(key) && Get(MetaEntry(key, value), MetaValue) == value
  {
    assert "step"[0] != "meta"[0];
  }

  ghost predicate WellRecorded(id: Identity, key: string, r: Record) {
    Chained(id, key, Steps(r.entries)) && r.prev == LastDigest(Steps(r.entries))
  }

  lemma AdditionKeepsChain(id: Identity, key: string, r: Record, op: Addition)
    requires WellRecorded(id, key, r)
    ensures WellRecorded(id, key, Add(id, key, r, op))
  {
    hide StepBody, Sealed, BodyOf, StepAuthentic, Chained, DigestOfStep, MetaEntry, Get;
    match op
    case AddStep(f) =>
      var e := Sealed(key, StepBody(id, f, r.prev));
      BodySurvivesSealing(id, key, f, r.prev);
      StepsAppend(r.entries, e);
      ChainedFront(id, key, Steps(r.entries), e);
    case AddMeta(k, v) =>
      MetaIsNoStep(k, v);
      StepsAppend(r.entries, MetaEntry(k, v));
  }

  lemma {:induction false} RecordsAreWellRecorded(id: Identity, key: string, ops: seq<Addition>)
    ensures WellRecorded(id, key, AddAll(id, key, ops))
  {
    hide Add;
    if ops != [] {
      RecordsAreWellRecorded(id, key, ops[..|ops| - 1]);
      AdditionKeepsChain(id, key, AddAll(id, key, ops[..|ops| - 1]), ops[|ops| - 1]);
    }
  }

  lemma HeaderOfRecord(version: string, id: Identity, key: string, r: Record)
    ensures var h := Header(version, id, key, r);
      && Get(h, Kind) == META && Names(h, id) && Get(h, Version) == Text(version)
      && Get(h, TranscriptDigest) == ListDigest(r.entries)
      && Get(h, ChainMac) == ChainTag(id, key, ListDigest(r.entries), r.prev)
  {
  }

  /** The list of a record is accepted exactly if its steps are chained and it carries the digest of the last one. */
  lemma AcceptedIsWellRecorded(version: string, id: Identity, key: string, r: Record)
    ensures Accepted(id, key, ToList(version, id, key, r)) <==> WellRecorded(id, key, r)
  {
    hide Chained, Steps, Header, Names, ChainTag, LastDigest, ListDigest;
    HeaderOfRecord(version, id, key, r);
    var list := ToList(version, id, key, r);
    assert list[1..] == r.entries;
    if Accepted(id, key, list) {
      ChainTagIsInjective(id, key, ListDigest(r.entries), r.prev, id, key, ListDigest(r.entries), LastDigest(Steps(r.entries)));
    }
  }

  lemma WellRecordedIsAccepted(version: string, id: Identity, key: string, r: Record)
    requires WellRecorded(id, key, r)
    ensures Accepted(id, key, ToList(version, id, key, r))
  {
    hide Accepted, ToList, WellRecorded;
    AcceptedIsWellRecorded(version, id, key, r);
  }

  /** Whatever steps and notes are added, in whatever order, the verifier accepts the transcript. */
  lemma RecordedIsAccepted(version: string, id: Identity, key: string, ops: seq<Addition>)
    ensures Accepted(id, key, ToList(version, id, key, AddAll(id, key, ops)))
  {
    hide WellRecorded, Accepted, ToList;
    RecordsAreWellRecorded(id, key, ops);
    WellRecordedIsAccepted(version, id, key, AddAll(id, key, ops));
  }

  // ---------------------------------------------------------------- what is accepted was recorded

  lemma ChainTagIsInjective(id: Identity, key: string, d: Value, p: Value, id2: Identity, key2: string, d2: Value, p2: Value)
    requires ChainTag(id, key, d, p) == ChainTag(id2, key2, d2, p2)
    ensures id == id2 && key == key2 && d == d2 && p == p2
  {
    var m, m2 := ChainTag(id, key, d, p).payload, ChainTag(id2, key2, d2, p2).payload;
    assert m[SessionId] == m2[SessionId] && m[InstanceId] == m2[InstanceId] && m[Split] == m2[Split];
    assert m[Seed] == m2[Seed] && m[ProfileBinding] == m2[ProfileBinding];
    assert m[TranscriptDigest] == m2[TranscriptDigest] && m[FinalPrev] == m2[FinalPrev];
  }

  /**
   Two accepted transcripts with the same header tag are transcripts of the same episode under the same
   key, with identical steps: none edited, dropped, repeated, reordered or taken from elsewhere.
   */
  lemma SameTagSameSteps(id: Identity, key: string, list: seq<Entry>, id2: Identity, key2: string, list2: seq<Entry>)
    requires Accepted(id, key, list) && Accepted(id2, key2, list2)
    requires Get(list[0], ChainMac) == Get(list2[0], ChainMac)
    ensures id == id2 && key == key2 && Steps(list[1..]) == Steps(list2[1..])
  {
    hide ChainTag, Chained, Names, Steps, LastDigest;
    ChainTagIsInjective(id, key, ListDigest(list[1..]), LastDigest(Steps(list[1..])),
                        id2, key2, ListDigest(list2[1..]), LastDigest(Steps(list2[1..])));
  }

  /**
   Even without the digest of the whole list the chain alone fixes every authenticated body: two chains
   that end in the same step digest agree body by body. The walk goes backwards and both chains reach
   the genesis value, which no digest equals, together.
   */
  lemma {:induction false} SameEndSameBodies(id: Identity, key: string, a: seq<Entry>, b: seq<Entry>)
    requires Chained(id, key, a) && Chained(id, key, b) && LastDigest(a) == LastDigest(b)
    ensures |a| == |b| && forall i :: 0 <= i < |a| ==> BodyOf(a[i]) == BodyOf(b[i])
    decreases |a|
  {
    hide StepAuthentic, BodyOf, Chained, Get;
    if a != [] { LastLink(id, key, a); }
    if b != [] { LastLink(id, key, b); }
    if a != [] && b != [] {
      SameDigestSameBody(key, a[|a| - 1], b[|b| - 1]);
      SameEndSameBodies(id, key, a[..|a| - 1], b[..|b| - 1]);
      forall i | 0 <= i < |a| ensures BodyOf(a[i]) == BodyOf(b[i]) {
        if i < |a| - 1 {
          assert a[..|a| - 1][i] == a[i] && b[..|b| - 1][i] == b[i];
        }
      }
    }
  }

  lemma LastLink(id: Identity, key: string, steps: seq<Entry>)
    requires Chained(id, key, steps) && steps != []
    ensures var front, last := steps[..|steps| - 1], steps[|steps| - 1];
      && Chained(id, key, front)
      && Get(last, PreviousDigest) == LastDigest(front)
      && Get(last, StepDigest) == DigestOfStep(key, BodyOf(last)) != GENESIS
  {
    hide Names, BodyOf;
    assert StepAuthentic(id, key, steps[|steps| - 1], LastDigest(steps[..|steps| - 1]));
    ChainedPrefix(id, key, steps, |steps| - 1);
  }

  lemma SameDigestSameBody(key: string, x: Entry, y: Entry)
    requires DigestOfStep(key, BodyOf(x)) == DigestOfStep(key, BodyOf(y))
    ensures BodyOf(x) == BodyOf(y) && Get(x, PreviousDigest) == Get(y, PreviousDigest)
  {
    var u, v := BodyOf(x)[AuthTag := Mac(key, BodyOf(x))], BodyOf(y)[AuthTag := Mac(key, BodyOf(y))];
    assert u[AuthTag] == v[AuthTag];
    assert PreviousDigest in BODY_FIELDS;
    assert BodyOf(x)[PreviousDigest] == BodyOf(y)[PreviousDigest];
  }

  /** A step digest covers the tag with the body: equal digests mean the same body and the same key. */
  lemma DigestFixesKey(key: string, body: Entry, key2: string, body2: Entry)
    requires AuthTag !in body && AuthTag !in body2 && DigestOfStep(key, body) == DigestOfStep(key2, body2)
    ensures key == key2 && body == body2
  {
    var u, v := body[AuthTag := Mac(key, body)], body2[AuthTag := Mac(key2, body2)];
    assert u == v && u[AuthTag] == v[AuthTag];
  }

  /**
   Every step of an accepted transcript names the episode: session, instance, split, seed and profile. A step of
   another episode is refused even if it is sealed under the same key and chained in its place.
   */
  lemma AcceptedNamesEpisode(id: Identity, key: string, list: seq<Entry>, i: nat)
    requires Accepted(id, key, list) && i < |Steps(list[1..])|
    ensures var e := Steps(list[1..])[i];
      && Get(e, SessionId) == Text(id.sessionId) && Get(e, InstanceId) == Text(id.instanceId)
      && Get(e, Split) == Text(id.split) && Get(e, Seed) == Number(id.seed)
      && Get(e, ProfileBinding) == Text(id.profileBinding)
      && Get(e, AuthTag) == Mac(key, BodyOf(e))
      && Get(e, PreviousDigest) == (if i == 0 then Text("genesis") else Get(Steps(list[1..])[i - 1], StepDigest))
  {
    hide BodyOf, DigestOfStep, ChainTag, Steps;
    var steps := Steps(list[1..]);
    assert StepAuthentic(id, key, steps[i], LastDigest(steps[..i]));
  }

  /**
   Under the header of a recorded transcript, the entries that follow it are accepted exactly when their
   steps are the recorded steps. So every change to the steps is caught, and, since notes are not steps,
   adding, changing, moving or removing notes is not.
   */
  lemma AcceptedExactly(version: string, id: Identity, key: string, ops: seq<Addition>, entries: seq<Entry>)
    ensures var r := AddAll(id, key, ops);
      Accepted(id, key, [Header(version, id, key, r)] + entries) <==> Steps(entries) == Steps(r.entries)
  {
    hide Chained, Steps, Header, Names, ChainTag, AddAll, LastDigest, Get;
    var r := AddAll(id, key, ops);
    var list := [Header(version, id, key, r)] + entries;
    assert list[1..] == entries;
    RecordsAreWellRecorded(id, key, ops);
    HeaderOfRecord(version, id, key, r);
    if Accepted(id, key, list) {
      RecordedIsAccepted(version, id, key, ops);
      assert ToList(version, id, key, r)[1..] == r.entries;
      SameTagSameSteps(id, key, list, id, key, ToList(version, id, key, r));
    }
  }

  /** Acceptance depends on the header and the subsequence of steps alone, for any header whatever. */
  lemma OnlyStepsMatter(id: Identity, key: string, header: Entry, a: seq<Entry>, b: seq<Entry>)
    requires Steps(a) == Steps(b)
    ensures Accepted(id, key, [header] + a) <==> Accepted(id, key, [header] + b)
  {
    hide Chained, Steps, Names, ChainTag, LastDigest, Get;
    assert ([header] + a)[1..] == a && ([header] + b)[1..] == b;
  }

  // ---------------------------------------------------------------- the recorder

  class Transcript {
    const version: string
    const identity: Identity
    const key: string
    var entries: seq<Entry>
    var prevDigest: Value

    function View(): Record
      reads this
    {
      Record(entries, prevDigest)
    }

    ghost predicate Valid()
      reads this
    {
      WellRecorded(identity, key, View())
    }

    constructor (version: string, identity: Identity, key: string)
      ensures Valid() && View() == EMPTY
      ensures this.version == version && this.identity == identity && this.key == key
    {
      this.version, this.identity, this.key := version, identity, key;
      entries, prevDigest := [], GENESIS;
    }

    method RecordStep(f: StepFields)
      requires Valid()
      modifies this
      ensures Valid() && View() == Add(identity, key, old(View()), AddStep(f))
    {
      hide StepBody, Chained, Steps, DigestOfStep;
      AdditionKeepsChain(identity, key, View(), AddStep(f));
      var body := StepBody(identity, f, prevDigest);
      var tag := Mac(key, body);
      var digest := DigestOfStep(key, body);
      var entry := body[AuthTag := tag];
      entry := entry[StepDigest := digest];
      entries := entries + [entry];
      prevDigest := digest;
    }

    method RecordMeta(metaKey: string, value: Value)
      requires Valid()
      modifies this
      ensures Valid() && View() == Add(identity, key, old(View()), AddMeta(metaKey, value))
    {
      hide Chained, Steps;
      AdditionKeepsChain(identity, key, View(), AddMeta(metaKey, value));
      entries := entries + [MetaEntry(metaKey, value)];
    }
  }
}

/**
 The bounded event log: every scope keeps at most `limit` of its newest events for replay, deleting a run
 takes its events out, and readers follow a scope page by page with a cursor.
 */
module EventLog {
  import opened Wrappers

  datatype Scope = RunScope(id: string) | BatchScope(id: string)

  // `mentions` is the run that the data of the event names, if it names one.
  datatype Event = Event(id: nat, scope: Scope, mentions: Option<string>, data: string)

  // Identifiers are never given twice, whatever is deleted.
  datatype Log = Log(events: seq<Event>, lastId: nat)

  datatype Call =
    | Append(scope: Scope, mentions: Option<string>, data: string)
    | DeleteRun(runId: string, batchId: string, lastOfBatch: bool)

  const EMPTY := Log([], 0)

  const PAGE := 200

  // ---------------------------------------------------------------- filtering

  function Filter(s: seq<Event>, keep: Event -> bool): (r: seq<Event>)
    ensures |r| <= |s|
  {
    if s == [] then []
    else
      var front, last := Filter(s[..|s| - 1], keep), s[|s| - 1];
      if keep(last) then front + [last] else front
  }

  lemma {:induction false} FilterMembers(s: seq<Event>, keep: Event -> bool)
    ensures forall e :: e in Filter(s, keep) <==> e in s && keep(e)
  {
    if s != [] {
      FilterMembers(s[..|s| - 1], keep);
      assert s == s[..|s| - 1] + [s[|s| - 1]];
    }
  }

  function Of(scope: Scope): Event -> bool {
    (e: Event) => e.scope == scope
  }

  function Newer(scope: Scope, cutoff: nat): Event -> bool {
    (e: Event) => !(e.scope == scope && e.id <= cutoff)
  }

  function After(cursor: nat): Event -> bool {
    (e: Event) => e.id > cursor
  }

  // What deleting a run leaves: not its own events, not the events of its batch that name it, and none
  // of the batch when it was the last run.
  function Surviving(runId: string, batchId: string, lastOfBatch: bool): Event -> bool {
    (e: Event) =>
      e.scope != RunScope(runId) &&
      !(e.scope == BatchScope(batchId) && (lastOfBatch || e.mentions == Some(runId)))
  }

  predicate Ascending(s: seq<Event>) {
    forall i, j :: 0 <= i < j < |s| ==> s[i].id < s[j].id
  }

  lemma FilterAppend(s: seq<Event>, e: Event, keep: Event -> bool)
    ensures Filter(s + [e], keep) == if keep(e) then Filter(s, keep) + [e] else Filter(s, keep)
  {
    assert (s + [e])[..|s|] == s;
  }

  lemma {:induction false} FilterCommutes(s: seq<Event>, p: Event -> bool, q: Event -> bool)
    ensures Filter(Filter(s, p), q) == Filter(Filter(s, q), p)
  {
    if s != [] {
      var front, last := s[..|s| - 1], s[|s| - 1];
      FilterCommutes(front, p, q);
      FilterAppend(Filter(front, p), last, q);
      FilterAppend(Filter(front, q), last, p);
    }
  }

  lemma {:induction false} FilterAscends(s: seq<Event>, keep: Event -> bool)
    requires Ascending(s)
    ensures Ascending(Filter(s, keep))
  {
    if s != [] {
      var front, last := s[..|s| - 1], s[|s| - 1];
      FilterAscends(front, keep);
      FilterMembers(front, keep);
      forall e | e in Filter(front, keep) ensures e.id < last.id {
        var i :| 0 <= i < |front| && front[i] == e;
      }
    }
  }

  // When a prefix is dropped and the rest kept, what is left is the rest.
  lemma {:induction false} FilterIsRest(s: seq<Event>, keep: Event -> bool, m: nat)
    requires m <= |s|
    requires forall i :: 0 <= i < |s| ==> (keep(s[i]) <==> m <= i)
    ensures Filter(s, keep) == s[m..]
  {
    if s != [] {
      var n := |s| - 1;
      var front := s[..n];
      forall i | 0 <= i < n ensures keep(front[i]) <==> m <= i {
        assert front[i] == s[i];
      }
      if m <= n {
        FilterIsRest(front, keep, m);
        assert keep(s[n]);
        assert s[m..] == front[m..] + [s[n]];
      } else {
        FilterIsRest(front, keep, n);
        assert !keep(s[n]);
        assert front[n..] == [] && s[m..] == [];
      }
    }
  }

  lemma {:induction false} FilterOfAll(s: seq<Event>, keep: Event -> bool)
    requires forall e :: e in s ==> keep(e)
    ensures Filter(s, keep) == s
  {
    FilterIsRest(s, keep, 0);
  }

  ghost predicate IsSuffix(s: seq<Event>, t: seq<Event>) {
    |s| <= |t| && s == t[|t| - |s|..]
  }

  lemma {:induction false} FilterKeepsSuffix(s: seq<Event>, t: seq<Event>, keep: Event -> bool)
    requires IsSuffix(s, t)
    ensures IsSuffix(Filter(s, keep), Filter(t, keep))
  {
    if s != [] {
      var s1, t1, last := s[..|s| - 1], t[..|t| - 1], t[|t| - 1];
      assert s[|s| - 1] == last;
      assert IsSuffix(s1, t1);
      FilterKeepsSuffix(s1, t1, keep);
    }
  }

  // ---------------------------------------------------------------- operations

  function Inserted(log: Log, scope: Scope, mentions: Option<string>, data: string): Log {
    Log(log.events + [Event(log.lastId + 1, scope, mentions, data)], log.lastId + 1)
  }

  // The event at position `limit` of the scope, newest first, and all older ones go.
  function Trimmed(events: seq<Event>, scope: Scope, limit: nat): seq<Event> {
    var scoped := Filter(events, Of(scope));
    if |scoped| <= limit then events
    else Filter(events, Newer(scope, scoped[|scoped| - 1 - limit].id))
  }

  function Apply(log: Log, limit: nat, call: Call): Log {
    match call
    case Append(scope, mentions, data) =>
      var log1 := Inserted(log, scope, mentions, data);
      log1.(events := Trimmed(log1.events, scope, limit))
    case DeleteRun(runId, batchId, lastOfBatch) =>
      log.(events := Filter(log.events, Surviving(runId, batchId, lastOfBatch)))
  }

  // The same without any limit: the history that is still to be told.
  function ApplyLive(log: Log, call: Call): Log {
    match call
    case Append(scope, mentions, data) => Inserted(log, scope, mentions, data)
    case DeleteRun(runId, batchId, lastOfBatch) =>
      log.(events := Filter(log.events, Surviving(runId, batchId, lastOfBatch)))
  }

  function RunAll(limit: nat, calls: seq<Call>): Log {
    if calls == [] then EMPTY
    else Apply(RunAll(limit, calls[..|calls| - 1]), limit, calls[|calls| - 1])
  }

  function Live(calls: seq<Call>): Log {
    if calls == [] then EMPTY
    else ApplyLive(Live(calls[..|calls| - 1]), calls[|calls| - 1])
  }

  function EventsAfter(log: Log, scope: Scope, cursor: nat, limit: nat): seq<Event> {
    var found := Filter(Filter(log.events, Of(scope)), After(cursor));
    if |found| <= limit then found else found[..limit]
  }

  // ---------------------------------------------------------------- retention

  ghost predicate Numbered(log: Log) {
    Ascending(log.events) && forall e :: e in log.events ==> 1 <= e.id <= log.lastId
  }

  lemma InsertKeepsNumbers(log: Log, scope: Scope, mentions: Option<string>, data: string)
    requires Numbered(log)
    ensures Numbered(Inserted(log, scope, mentions, data))
  {
    forall i | 0 <= i < |log.events| ensures log.events[i].id <= log.lastId {
      assert log.events[i] in log.events;
    }
  }

  lemma FilterKeepsNumbers(log: Log, keep: Event -> bool)
    requires Numbered(log)
    ensures Numbered(log.(events := Filter(log.events, keep)))
  {
    FilterAscends(log.events, keep);
    FilterMembers(log.events, keep);
  }

  lemma ApplyKeepsNumbers(log: Log, limit: nat, call: Call)
    requires Numbered(log)
    ensures Numbered(Apply(log, limit, call)) && Numbered(ApplyLive(log, call))
  {
    hide Numbered, Filter;
    match call
    case Append(scope, mentions, data) =>
      var log1 := Inserted(log, scope, mentions, data);
      InsertKeepsNumbers(log, scope, mentions, data);
      var scoped := Filter(log1.events, Of(scope));
      if |scoped| > limit {
        FilterKeepsNumbers(log1, Newer(scope, scoped[|scoped| - 1 - limit].id));
      }
    case DeleteRun(runId, batchId, lastOfBatch) =>
      FilterKeepsNumbers(log, Surviving(runId, batchId, lastOfBatch));
  }

  function Newest(s: seq<Event>, limit: nat): seq<Event> {
    if |s| <= limit then s else s[|s| - limit..]
  }

  /** Trimming leaves exactly the newest `limit` events of the scope, and every other scope as it was. */
  lemma TrimKeepsNewest(events: seq<Event>, scope: Scope, limit: nat, other: Scope)
    requires Ascending(events)
    ensures Filter(Trimmed(events, scope, limit), Of(scope)) == Newest(Filter(events, Of(scope)), limit)
    ensures other != scope ==> Filter(Trimmed(events, scope, limit), Of(other)) == Filter(events, Of(other))
  {
    hide Filter;
    var scoped := Filter(events, Of(scope));
    if |scoped| > limit {
      var m := |scoped| - limit;
      var newer := Newer(scope, scoped[m - 1].id);
      FilterCommutes(events, newer, Of(scope));
      NewerSplits(events, scope, m);
      FilterIsRest(scoped, newer, m);
      assert Newest(scoped, limit) == scoped[m..];
      if other != scope {
        FilterCommutes(events, newer, Of(other));
        OthersAreNewer(events, scope, scoped[m - 1].id, other);
        FilterOfAll(Filter(events, Of(other)), newer);
      }
    }
  }

  lemma NewerSplits(events: seq<Event>, scope: Scope, m: nat)
    requires Ascending(events) && 1 <= m <= |Filter(events, Of(scope))|
    ensures var scoped := Filter(events, Of(scope));
      forall i :: 0 <= i < |scoped| ==> (Newer(scope, scoped[m - 1].id)(scoped[i]) <==> m <= i)
  {
    hide Filter;
    var scoped := Filter(events, Of(scope));
    FilterAscends(events, Of(scope));
    FilterMembers(events, Of(scope));
    forall i | 0 <= i < |scoped| ensures scoped[i].scope == scope {
      assert scoped[i] in scoped && Of(scope)(scoped[i]);
    }
  }

  lemma OthersAreNewer(events: seq<Event>, scope: Scope, cutoff: nat, other: Scope)
    requires other != scope
    ensures forall e :: e in Filter(events, Of(other)) ==> Newer(scope, cutoff)(e)
  {
    hide Filter;
    FilterMembers(events, Of(other));
    forall e | e in Filter(events, Of(other)) ensures Newer(scope, cutoff)(e) {
      assert Of(other)(e);
    }
  }

  ghost predicate Retains(log: Log, live: Log, limit: nat, scope: Scope) {
    var kept, history := Filter(log.events, Of(scope)), Filter(live.events, Of(scope));
    log.lastId == live.lastId && |kept| <= limit && IsSuffix(kept, history)
  }

  // What an append does to the retained events and to the history of any scope.
  lemma AppendScoped(log: Log, limit: nat, call: Call, scope: Scope)
    requires Numbered(log) && call.Append?
    ensures var e := Event(log.lastId + 1, call.scope, call.mentions, call.data);
      var kept := Filter(log.events, Of(scope));
      && Filter(Apply(log, limit, call).events, Of(scope)) ==
           (if scope == call.scope then Newest(kept + [e], limit) else kept)
      && Filter(ApplyLive(log, call).events, Of(scope)) == (if scope == call.scope then kept + [e] else kept)
  {
    hide Filter, Trimmed, Numbered, Ascending, Of, Newest;
    var log1 := Inserted(log, call.scope, call.mentions, call.data);
    var e := log1.events[|log.events|];
    InsertKeepsNumbers(log, call.scope, call.mentions, call.data);
    NumberedAscends(log1);
    OfScope(scope, e);
    FilterAppend(log.events, e, Of(scope));
    TrimKeepsNewest(log1.events, call.scope, limit, scope);
  }

  lemma AppendRetains(log: Log, live: Log, limit: nat, call: Call, scope: Scope)
    requires Numbered(log) && Numbered(live) && Retains(log, live, limit, scope) && call.Append?
    ensures Retains(Apply(log, limit, call), ApplyLive(live, call), limit, scope)
  {
    hide Filter, Trimmed, Numbered, IsSuffix, Of, Newest;
    AppendScoped(log, limit, call, scope);
    AppendScoped(live, limit, call, scope);
    var e := Event(log.lastId + 1, call.scope, call.mentions, call.data);
    NewestIsSuffix(Filter(log.events, Of(scope)), Filter(live.events, Of(scope)), e, limit);
  }

  lemma NewestIsSuffix(kept: seq<Event>, history: seq<Event>, e: Event, limit: nat)
    requires IsSuffix(kept, history)
    ensures IsSuffix(Newest(kept + [e], limit), history + [e]) && |Newest(kept + [e], limit)| <= limit
  {
    hide IsSuffix;
    SuffixSnoc(kept, history, e);
    if |kept| + 1 > limit {
      SuffixOfSuffix(kept + [e], history + [e], limit);
    }
  }

  lemma OfScope(scope: Scope, e: Event)
    ensures Of(scope)(e) <==> e.scope == scope
  {
  }

  lemma SuffixSnoc(s: seq<Event>, t: seq<Event>, e: Event)
    requires IsSuffix(s, t)
    ensures IsSuffix(s + [e], t + [e])
  {
  }

  lemma NumberedAscends(log: Log)
    requires Numbered(log)
    ensures Ascending(log.events)
  {
  }

  lemma SuffixOfSuffix(s: seq<Event>, t: seq<Event>, n: nat)
    requires IsSuffix(s, t) && n <= |s|
    ensures IsSuffix(s[|s| - n..], t)
  {
  }

  lemma DeleteRetains(log: Log, live: Log, limit: nat, call: Call, scope: Scope)
    requires Retains(log, live, limit, scope) && call.DeleteRun?
    ensures Retains(Apply(log, limit, call), ApplyLive(live, call), limit, scope)
  {
    var keep := Surviving(call.runId, call.batchId, call.lastOfBatch);
    FilterCommutes(log.events, keep, Of(scope));
    FilterCommutes(live.events, keep, Of(scope));
    FilterKeepsSuffix(Filter(log.events, Of(scope)), Filter(live.events, Of(scope)), keep);
  }

  /**
   Over every interleaving of appends and run deletions: ids strictly increase in the log, and what is
   retained of a scope is a suffix, of at most `limit` events, of everything ever appended to it less
   what run deletions took out.
   */
  lemma {:induction false} RetainedIsSuffix(limit: nat, calls: seq<Call>, scope: Scope)
    ensures Numbered(RunAll(limit, calls)) && Numbered(Live(calls))
    ensures Retains(RunAll(limit, calls), Live(calls), limit, scope)
  {
    hide Numbered, Retains, Apply, ApplyLive, Filter;
    if calls == [] {
      NothingRetained(limit, scope);
    } else {
      var front, last := calls[..|calls| - 1], calls[|calls| - 1];
      RetainedIsSuffix(limit, front, scope);
      ApplyKeepsNumbers(RunAll(limit, front), limit, last);
      ApplyKeepsNumbers(Live(front), limit, last);
      if last.Append? {
        AppendRetains(RunAll(limit, front), Live(front), limit, last, scope);
      } else {
        DeleteRetains(RunAll(limit, front), Live(front), limit, last, scope);
      }
    }
  }

  lemma NothingRetained(limit: nat, scope: Scope)
    ensures Numbered(EMPTY) && Retains(EMPTY, EMPTY, limit, scope)
  {
  }

  // Whether a deletion can take events of the scope.
  predicate Touches(call: Call, scope: Scope) {
    call.DeleteRun? && (scope == RunScope(call.runId) || scope == BatchScope(call.batchId))
  }

  /** While no deletion touches a scope, exactly the newest `limit` of its events are retained. */
  lemma {:induction false} UntouchedScopeIsFull(limit: nat, calls: seq<Call>, scope: Scope)
    requires forall i :: 0 <= i < |calls| ==> !Touches(calls[i], scope)
    ensures var history := Filter(Live(calls).events, Of(scope));
      |Filter(RunAll(limit, calls).events, Of(scope))| == if |history| <= limit then |history| else limit
  {
    hide Numbered, Retains, Filter, Apply, ApplyLive;
    if calls == [] {
      EmptyFilter(Of(scope));
    } else {
      var front, last := calls[..|calls| - 1], calls[|calls| - 1];
      UntouchedScopeIsFull(limit, front, scope);
      var log, live := RunAll(limit, front), Live(front);
      RetainedIsSuffix(limit, front, scope);
      assert log.lastId == live.lastId by { SameLastId(log, live, limit, scope); }
      if last.Append? {
        AppendCounts(log, live, limit, last, scope);
      } else {
        UntouchedByDelete(log, last, limit, scope);
        UntouchedByDelete(live, last, limit, scope);
      }
    }
  }

  lemma AppendCounts(log: Log, live: Log, limit: nat, call: Call, scope: Scope)
    requires Numbered(log) && Numbered(live) && log.lastId == live.lastId && call.Append?
    requires var history := Filter(live.events, Of(scope));
      |Filter(log.events, Of(scope))| == if |history| <= limit then |history| else limit
    ensures var history := Filter(ApplyLive(live, call).events, Of(scope));
      |Filter(Apply(log, limit, call).events, Of(scope))| == if |history| <= limit then |history| else limit
  {
    hide Filter, Apply, ApplyLive, Numbered, Of;
    AppendScoped(log, limit, call, scope);
    AppendScoped(live, limit, call, scope);
  }

  lemma UntouchedByDelete(log: Log, call: Call, limit: nat, scope: Scope)
    requires call.DeleteRun? && !Touches(call, scope)
    ensures Filter(Apply(log, limit, call).events, Of(scope)) == Filter(log.events, Of(scope))
    ensures Filter(ApplyLive(log, call).events, Of(scope)) == Filter(log.events, Of(scope))
  {
    hide Filter;
    var keep := Surviving(call.runId, call.batchId, call.lastOfBatch);
    FilterCommutes(log.events, keep, Of(scope));
    FilterMembers(log.events, Of(scope));
    forall e | e in Filter(log.events, Of(scope)) ensures keep(e) {
      assert Of(scope)(e);
    }
    FilterOfAll(Filter(log.events, Of(scope)), keep);
  }

  lemma EmptyFilter(keep: Event -> bool)
    ensures Filter([], keep) == []
  {
  }

  lemma SameLastId(log: Log, live: Log, limit: nat, scope: Scope)
    requires Retains(log, live, limit, scope)
    ensures log.lastId == live.lastId
  {
  }

  /**
   What deleting a run takes: all events of the run, the events of its batch that name it, all events of
   the batch when it was the last run, and not one event more.
   */
  lemma DeletionTakesExactly(log: Log, limit: nat, runId: string, batchId: string, lastOfBatch: bool, e: Event)
    requires e in log.events
    ensures e !in Apply(log, limit, DeleteRun(runId, batchId, lastOfBatch)).events <==>
      || e.scope == RunScope(runId)
      || (e.scope == BatchScope(batchId) && e.mentions == Some(runId))
      || (e.scope == BatchScope(batchId) && lastOfBatch)
  {
    FilterMembers(log.events, Surviving(runId, batchId, lastOfBatch));
  }

  // ---------------------------------------------------------------- readers

  // A reader of one scope: where it began, its cursor, and what it has been sent, in order.
  datatype Reader = Reader(scope: Scope, start: nat, cursor: nat, received: seq<Event>)

  datatype Turn = Write(call: Call) | Poll

  // One poll sends a page and leaves the cursor at its last event.
  function Polled(log: Log, r: Reader): Reader {
    var page := EventsAfter(log, r.scope, r.cursor, PAGE);
    if page == [] then r else r.(cursor := page[|page| - 1].id, received := r.received + page)
  }

  function LogOf(limit: nat, log: Log, turns: seq<Turn>): Log {
    if turns == [] then log
    else
      var before := LogOf(limit, log, turns[..|turns| - 1]);
      match turns[|turns| - 1]
      case Write(call) => Apply(before, limit, call)
      case Poll => before
  }

  function ReaderOf(limit: nat, log: Log, r: Reader, turns: seq<Turn>): Reader {
    if turns == [] then r
    else
      var front := turns[..|turns| - 1];
      var before := ReaderOf(limit, log, r, front);
      match turns[|turns| - 1]
      case Write(_) => before
      case Poll => Polled(LogOf(limit, log, front), before)
  }

  // In order and once, only events of the scope past the start, and none passed over that is still there.
  ghost predicate Faithful(log: Log, r: Reader) {
    && Ascending(r.received)
    && (forall e :: e in r.received ==> e.scope == r.scope && r.start < e.id <= r.cursor)
    && r.start <= r.cursor && (r.cursor <= log.lastId || r.cursor == r.start)
    && (forall e :: e in log.events && e.scope == r.scope && r.start < e.id <= r.cursor ==> e in r.received)
  }

  lemma FoundEvents(log: Log, scope: Scope, cursor: nat)
    requires Numbered(log)
    ensures var found := Filter(Filter(log.events, Of(scope)), After(cursor));
      && Ascending(found)
      && forall e :: e in found <==> e in log.events && e.scope == scope && e.id > cursor
  {
    hide Filter;
    var scoped := Filter(log.events, Of(scope));
    FilterAscends(log.events, Of(scope));
    FilterAscends(scoped, After(cursor));
    FilterMembers(log.events, Of(scope));
    FilterMembers(scoped, After(cursor));
    forall e ensures Of(scope)(e) <==> e.scope == scope {
    }
    forall e ensures After(cursor)(e) <==> e.id > cursor {
    }
  }

  // A page of the events of a scope past a cursor: in id order, at most `limit` of them, and an event is
  // left to a later page only if this one is full and the event comes after it.
  ghost predicate IsPage(page: seq<Event>, log: Log, scope: Scope, cursor: nat, limit: nat) {
    && |page| <= limit && Ascending(page)
    && (forall e :: e in page ==> e in log.events && e.scope == scope && e.id > cursor)
    && (forall e :: e in log.events && e.scope == scope && e.id > cursor ==>
          e in page || (|page| == limit && (page != [] ==> e.id > page[|page| - 1].id)))
  }

  /** What is read past a cursor is the page there. */
  lemma EventsAfterIsPage(log: Log, scope: Scope, cursor: nat, limit: nat)
    requires Numbered(log)
    ensures IsPage(EventsAfter(log, scope, cursor, limit), log, scope, cursor, limit)
  {
    hide Filter, Of, After, Numbered;
    var found := Filter(Filter(log.events, Of(scope)), After(cursor));
    FoundEvents(log, scope, cursor);
    var page := EventsAfter(log, scope, cursor, limit);
    forall i | 0 <= i < |page| ensures page[i] == found[i] {
    }
    forall e | e in page ensures e in found {
      var i :| 0 <= i < |page| && page[i] == e;
      assert found[i] == e;
    }
    forall e | e in found ensures e in page || (|page| == limit && (page != [] ==> e.id > page[|page| - 1].id)) {
      var i :| 0 <= i < |found| && found[i] == e;
      if i < |page| { assert page[i] == e; }
    }
  }

  lemma JoinAscends(s: seq<Event>, t: seq<Event>, middle: nat)
    requires Ascending(s) && Ascending(t)
    requires (forall e :: e in s ==> e.id <= middle) && (forall e :: e in t ==> middle < e.id)
    ensures Ascending(s + t)
  {
    forall i, j | 0 <= i < |s| && 0 <= j < |t| ensures s[i].id < t[j].id {
      assert s[i] in s && t[j] in t;
    }
  }

  lemma LastIsLargest(s: seq<Event>)
    requires Ascending(s) && s != []
    ensures s[|s| - 1] in s && forall e :: e in s ==> e.id <= s[|s| - 1].id
  {
    forall e | e in s ensures e.id <= s[|s| - 1].id {
      var i :| 0 <= i < |s| && s[i] == e;
    }
  }

  lemma PollKeepsFaith(log: Log, r: Reader)
    requires Numbered(log) && Faithful(log, r)
    ensures Faithful(log, Polled(log, r))
  {
    hide EventsAfter, Ascending;
    EventsAfterIsPage(log, r.scope, r.cursor, PAGE);
    var page := EventsAfter(log, r.scope, r.cursor, PAGE);
    if page != [] {
      LastIsLargest(page);
      JoinAscends(r.received, page, r.cursor);
    }
  }

  // A write adds at most one event, past the last id.
  lemma NothingNewBefore(log: Log, limit: nat, call: Call)
    ensures forall e :: e in Apply(log, limit, call).events ==> e in log.events || e.id == log.lastId + 1
  {
    hide Filter;
    match call
    case Append(scope, mentions, data) =>
      var log1 := Inserted(log, scope, mentions, data);
      var scoped := Filter(log1.events, Of(scope));
      if |scoped| > limit {
        FilterMembers(log1.events, Newer(scope, scoped[|scoped| - 1 - limit].id));
      }
    case DeleteRun(runId, batchId, lastOfBatch) =>
      FilterMembers(log.events, Surviving(runId, batchId, lastOfBatch));
  }

  lemma WriteKeepsFaith(log: Log, limit: nat, r: Reader, call: Call)
    requires Numbered(log) && Faithful(log, r)
    ensures Faithful(Apply(log, limit, call), r)
  {
    hide Ascending, Filter;
    var log' := Apply(log, limit, call);
    NothingNewBefore(log, limit, call);
    forall e | e in log'.events && e.scope == r.scope && r.start < e.id <= r.cursor ensures e in r.received {
      assert e in log.events;
    }
  }

  /**
   Over every interleaving of writes and polls a reader receives events of its scope in id order, none
   twice, and at no moment has it passed over an event that is still retained. After a poll that sent
   nothing it has received every retained event after its start. It may start anywhere, even past the
   last id given so far.
   */
  lemma {:induction false} ReaderIsFaithful(limit: nat, log: Log, scope: Scope, start: nat, turns: seq<Turn>)
    requires Numbered(log)
    ensures var end := LogOf(limit, log, turns);
      var r := ReaderOf(limit, log, Reader(scope, start, start, []), turns);
      && Numbered(end) && Faithful(end, r)
      && r.scope == scope && r.start == start
      && (EventsAfter(end, scope, r.cursor, PAGE) == [] ==>
            forall e :: e in end.events && e.scope == scope && e.id > start ==> e in r.received)
  {
    hide Numbered, Faithful, Apply, EventsAfter, Polled;
    var r0 := Reader(scope, start, start, []);
    if turns == [] {
      NothingReceived(log, r0);
    } else {
      var front := turns[..|turns| - 1];
      var before, r1 := LogOf(limit, log, front), ReaderOf(limit, log, r0, front);
      ReaderIsFaithful(limit, log, scope, start, front);
      match turns[|turns| - 1]
      case Write(call) =>
        ApplyKeepsNumbers(before, limit, call);
        WriteKeepsFaith(before, limit, r1, call);
      case Poll =>
        PollKeepsFaith(before, r1);
        assert Polled(before, r1).scope == scope && Polled(before, r1).start == start by { PolledKeeps(before, r1); }
    }
    EmptyPageMeansAll(LogOf(limit, log, turns), ReaderOf(limit, log, r0, turns));
  }

  lemma PolledKeeps(log: Log, r: Reader)
    ensures Polled(log, r).scope == r.scope && Polled(log, r).start == r.start
  {
  }

  lemma NothingReceived(log: Log, r: Reader)
    requires r.received == [] && r.start == r.cursor
    ensures Faithful(log, r)
  {
  }

  lemma EmptyPageMeansAll(log: Log, r: Reader)
    requires Numbered(log) && Faithful(log, r)
    ensures EventsAfter(log, r.scope, r.cursor, PAGE) == [] ==>
      forall e :: e in log.events && e.scope == r.scope && e.id > r.start ==> e in r.received
  {
    hide EventsAfter;
    EventsAfterIsPage(log, r.scope, r.cursor, PAGE);
  }
}

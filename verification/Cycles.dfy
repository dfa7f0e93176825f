/**
 Detection of a model that repeats itself: a cycle of successful read-only calls at the end of the
 timeline, and streaks of one failing call repeated unchanged.

 The texts that are compared are part of the call: the runner compares the canonical JSON of arguments
 and result, the report compares their printed form.
 */
module Cycles {
  import opened Wrappers

  const READ_ONLY: set<string> := {"release.status", "workspace.read", "telemetry.logs", "telemetry.trace", "state.inspect"}

  datatype Call = Call(
    tool: string, success: bool, arguments: string, result: string, signature: string, sequence: Option<int>)

  datatype Key = Key(tool: string, arguments: string, result: string)

  function KeyOf(c: Call): Key {
    Key(c.tool, c.arguments, c.result)
  }

  predicate IsRead(c: Call) {
    c.success && c.tool in READ_ONLY
  }

  // The longest suffix of successful read-only calls.
  function ReadSuffix(timeline: seq<Call>): (r: seq<Call>)
    ensures |r| <= |timeline|
  {
    if timeline == [] || !IsRead(timeline[|timeline| - 1]) then []
    else ReadSuffix(timeline[..|timeline| - 1]) + [timeline[|timeline| - 1]]
  }

  /** It is a suffix, all of it reads, and it cannot be longer. */
  lemma {:induction false} ReadSuffixIsLongest(timeline: seq<Call>)
    ensures var r := ReadSuffix(timeline);
      && r == timeline[|timeline| - |r|..]
      && (forall i :: 0 <= i < |r| ==> r[i].success && r[i].tool in READ_ONLY)
      && (|r| < |timeline| ==>
            !(timeline[|timeline| - |r| - 1].success && timeline[|timeline| - |r| - 1].tool in READ_ONLY))
  {
    if timeline != [] && IsRead(timeline[|timeline| - 1]) {
      ReadSuffixIsLongest(timeline[..|timeline| - 1]);
    }
  }

  function Keys(calls: seq<Call>): (r: seq<Key>)
    ensures |r| == |calls| && forall i :: 0 <= i < |r| ==> r[i] == KeyOf(calls[i])
  {
    seq(|calls|, i requires 0 <= i < |calls| => KeyOf(calls[i]))
  }

  /** Two calls count as the same exactly if tool, arguments and result are. */
  lemma SameCall(c: Call, d: Call)
    ensures KeyOf(c) == KeyOf(d) <==> c.tool == d.tool && c.arguments == d.arguments && c.result == d.result
  {
  }

  // ---------------------------------------------------------------- repetition

  function Power<T>(block: seq<T>, k: nat): seq<T> {
    if k == 0 then [] else block + Power(block, k - 1)
  }

  predicate EndsWith<T(==)>(s: seq<T>, t: seq<T>) {
    |t| <= |s| && s[|s| - |t|..] == t
  }

  function Last<T>(s: seq<T>, p: nat): seq<T>
    requires p <= |s|
  {
    s[|s| - p..]
  }

  // The last block of length p stands at the end at least k times.
  predicate RepeatsAtEnd<T(==)>(s: seq<T>, p: nat, k: nat) {
    p <= |s| && EndsWith(s, Power(Last(s, p), k))
  }

  predicate IsCycle<T(==)>(s: seq<T>, p: nat) {
    1 <= p && RepeatsAtEnd(s, p, 2)
  }

  // The shortest cycle within the bound, and how often it stands at the end.
  ghost predicate Found<T>(s: seq<T>, bound: int, p: nat, k: nat) {
    && p <= bound && IsCycle(s, p)
    && (forall q: nat :: q < p ==> !IsCycle(s, q))
    && k >= 2 && RepeatsAtEnd(s, p, k) && !RepeatsAtEnd(s, p, k + 1)
  }

  ghost predicate NotFound<T>(s: seq<T>, bound: int) {
    forall q: nat :: q <= bound ==> !IsCycle(s, q)
  }

  lemma {:induction false} PowerLength<T>(block: seq<T>, k: nat)
    ensures |Power(block, k)| == k * |block|
  {
    if k > 0 {
      PowerLength(block, k - 1);
      assert k * |block| == (k - 1) * |block| + |block|;
    }
  }

  lemma {:induction false} PowerSnoc<T>(block: seq<T>, k: nat)
    ensures Power(block, k + 1) == Power(block, k) + block
  {
    if k > 0 {
      PowerSnoc(block, k - 1);
      assert block + (Power(block, k - 1) + block) == (block + Power(block, k - 1)) + block;
    } else {
      assert block + [] == [] + block;
    }
  }

  lemma TwiceNeedsRoom<T>(s: seq<T>, p: nat)
    requires IsCycle(s, p)
    ensures 2 * p <= |s|
  {
    PowerTwice(Last(s, p));
  }

  lemma PowerTwice<T>(block: seq<T>)
    ensures Power(block, 1) == block && Power(block, 2) == block + block
  {
    assert Power(block, 1) == block + [] == block;
  }

  lemma FewerRepeats<T>(s: seq<T>, p: nat, k: nat)
    requires RepeatsAtEnd(s, p, k + 1)
    ensures RepeatsAtEnd(s, p, k)
  {
    var block := Last(s, p);
    assert Power(block, k + 1) == block + Power(block, k);
    assert Power(block, k + 1)[|block|..] == Power(block, k);
    assert s[|s| - |Power(block, k)|..] == s[|s| - |Power(block, k + 1)|..][|block|..];
  }

  lemma {:induction false} RepeatsDownTo<T>(s: seq<T>, p: nat, k: nat, j: nat)
    requires RepeatsAtEnd(s, p, k) && j <= k
    ensures RepeatsAtEnd(s, p, j)
  {
    hide RepeatsAtEnd;
    if j < k {
      FewerRepeats(s, p, k - 1);
      RepeatsDownTo(s, p, k - 1, j);
    }
  }

  /** The count is maximal: the block stands at the end j times exactly for j up to the count. */
  lemma FoundCountsExactly<T>(s: seq<T>, bound: int, p: nat, k: nat, j: nat)
    requires Found(s, bound, p, k)
    ensures RepeatsAtEnd(s, p, j) <==> j <= k
  {
    hide RepeatsAtEnd;
    if j <= k {
      RepeatsDownTo(s, p, k, j);
    } else if RepeatsAtEnd(s, p, j) {
      RepeatsDownTo(s, p, j, k + 1);
    }
  }

  // The last p elements, when they are a power, end in their root twice.
  lemma PowerEndsTwice<T>(s: seq<T>, p: nat, block: seq<T>, j: nat)
    requires 1 <= p <= |s| && j >= 2 && Power(block, j) == Last(s, p)
    ensures |block| < p && IsCycle(s, |block|)
  {
    hide Power;
    PowerSnoc(block, j - 1);
    PowerSnoc(block, j - 2);
    PowerTwice(block);
    var front := Power(block, j - 2);
    assert front + block + block == front + (block + block);
    assert Last(s, p) == front + (block + block);
    PowerRootIsNotEmpty(block, j);
    assert s[|s| - |block + block|..] == Last(s, p)[|front|..] == block + block;
    assert s[|s| - |block|..] == s[|s| - |block + block|..][|block|..] == block;
  }

  lemma {:induction false} PowerRootIsNotEmpty<T>(block: seq<T>, j: nat)
    requires Power(block, j) != []
    ensures block != []
  {
    if block == [] { PowerOfNothing<T>(j); }
  }

  lemma {:induction false} PowerOfNothing<T>(j: nat)
    ensures Power<T>([], j) == []
  {
    if j > 0 { PowerOfNothing<T>(j - 1); }
  }

  /** The cycle found is not itself a repetition of something shorter. */
  lemma FoundIsPrimitive<T>(s: seq<T>, bound: int, p: nat, k: nat, block: seq<T>, j: nat)
    requires Found(s, bound, p, k) && j >= 2
    ensures Power(block, j) != Last(s, p)
  {
    hide Power;
    if Power(block, j) == Last(s, p) {
      PowerEndsTwice(s, p, block, j);
      assert false;
    }
  }

  /** What is found is determined by the calls: no two answers fit. */
  lemma FoundIsUnique<T>(s: seq<T>, bound: int, p: nat, k: nat, p2: nat, k2: nat)
    requires Found(s, bound, p, k) && Found(s, bound, p2, k2)
    ensures p == p2 && k == k2
  {
    hide RepeatsAtEnd;
    assert IsCycle(s, p) && IsCycle(s, p2);
    assert p == p2;
    FoundCountsExactly(s, bound, p, k, k2);
    FoundCountsExactly(s, bound, p, k2, k);
  }

  // ---------------------------------------------------------------- two comparisons, one answer

  // Two sequences in which the same positions hold equal elements.
  ghost predicate SamePattern<S, T>(s: seq<S>, t: seq<T>) {
    |s| == |t| && forall i, j :: 0 <= i < |s| && 0 <= j < |s| ==> (s[i] == s[j] <==> t[i] == t[j])
  }

  // The last k blocks of length p, compared element by element with what stands p later.
  ghost predicate Shifted<T>(s: seq<T>, p: nat, k: nat) {
    (k + 1) * p <= |s| && forall i :: |s| - (k + 1) * p <= i < |s| - p ==> s[i] == s[i + p]
  }

  lemma NextBlock<T>(s: seq<T>, p: nat, k: nat)
    requires RepeatsAtEnd(s, p, k + 1)
    ensures (k + 1) * p == k * p + p <= |s|
    ensures s[|s| - (k + 1) * p..|s| - k * p] == Last(s, p)
    ensures s[|s| - k * p..] == Power(Last(s, p), k)
  {
    var block := Last(s, p);
    PowerLength(block, k);
    PowerLength(block, k + 1);
    var tail := s[|s| - (k + 1) * p..];
    assert tail == block + Power(block, k);
    assert s[|s| - (k + 1) * p..|s| - k * p] == tail[..p];
    assert s[|s| - k * p..] == tail[p..];
  }

  lemma AddBlock<T>(s: seq<T>, p: nat, k: nat)
    requires (k + 1) * p == k * p + p <= |s|
    requires s[|s| - (k + 1) * p..|s| - k * p] == Last(s, p)
    requires s[|s| - k * p..] == Power(Last(s, p), k)
    ensures RepeatsAtEnd(s, p, k + 1)
  {
    PowerLength(Last(s, p), k + 1);
    assert s[|s| - (k + 1) * p..] == s[|s| - (k + 1) * p..|s| - k * p] + s[|s| - k * p..];
  }

  lemma {:induction false} RepeatsAreShifted<T>(s: seq<T>, p: nat, k: nat)
    requires RepeatsAtEnd(s, p, k + 1)
    ensures Shifted(s, p, k)
  {
    hide RepeatsAtEnd, Power;
    NextBlock(s, p, k);
    if k > 0 {
      FewerRepeats(s, p, k);
      RepeatsAreShifted(s, p, k - 1);
      NextBlock(s, p, k - 1);
      var m := |s| - (k + 1) * p;
      forall i | m <= i < m + p ensures s[i] == s[i + p] {
        assert s[i] == s[m..m + p][i - m] && s[i + p] == s[m + p..m + 2 * p][i - m];
      }
    }
  }

  lemma {:induction false} ShiftedRepeats<T>(s: seq<T>, p: nat, k: nat)
    requires Shifted(s, p, k)
    ensures RepeatsAtEnd(s, p, k + 1)
  {
    hide RepeatsAtEnd, Power;
    if k == 0 {
      assert p <= |s|;
      assert RepeatsAtEnd(s, p, 1) by { PowerTwice(Last(s, p)); OnceAtEnd(s, p); }
    } else {
      assert (k + 1) * p == k * p + p && k * p == (k - 1) * p + p;
      ShiftedRepeats(s, p, k - 1);
      NextBlock(s, p, k - 1);
      var m := |s| - (k + 1) * p;
      forall i | m <= i < m + p ensures s[i] == s[i + p] {
      }
      assert s[m..m + p] == s[m + p..m + 2 * p];
      assert s[|s| - k * p..] == Power(Last(s, p), k) by { RepeatsAsPower(s, p, k); }
      AddBlock(s, p, k);
    }
  }

  lemma OnceAtEnd<T>(s: seq<T>, p: nat)
    requires p <= |s|
    ensures RepeatsAtEnd(s, p, 1)
  {
    PowerTwice(Last(s, p));
  }

  lemma RepeatsAsPower<T>(s: seq<T>, p: nat, k: nat)
    requires RepeatsAtEnd(s, p, k)
    ensures k * p <= |s| && s[|s| - k * p..] == Power(Last(s, p), k)
  {
    PowerLength(Last(s, p), k);
  }

  lemma SamePatternSameRepeats<S, T>(s: seq<S>, t: seq<T>, p: nat, k: nat)
    requires SamePattern(s, t) && k >= 1
    ensures RepeatsAtEnd(s, p, k) <==> RepeatsAtEnd(t, p, k)
  {
    hide RepeatsAtEnd;
    if RepeatsAtEnd(s, p, k) {
      RepeatsAreShifted(s, p, k - 1);
      assert Shifted(t, p, k - 1);
      ShiftedRepeats(t, p, k - 1);
    }
    if RepeatsAtEnd(t, p, k) {
      RepeatsAreShifted(t, p, k - 1);
      assert Shifted(s, p, k - 1);
      ShiftedRepeats(s, p, k - 1);
    }
  }

  /**
   The answer depends only on which calls count as equal. So two detectors that compare calls by
   different texts, but tell the same calls apart, find the same cycle and count.
   */
  lemma SamePatternSameAnswer<S, T>(s: seq<S>, t: seq<T>, bound: int, p: nat, k: nat)
    requires SamePattern(s, t)
    ensures Found(s, bound, p, k) <==> Found(t, bound, p, k)
    ensures NotFound(s, bound) <==> NotFound(t, bound)
  {
    hide SamePattern, RepeatsAtEnd;
    forall q: nat ensures IsCycle(s, q) <==> IsCycle(t, q) {
      SamePatternSameRepeats(s, t, q, 2);
    }
    if k >= 1 {
      SamePatternSameRepeats(s, t, p, k);
      SamePatternSameRepeats(s, t, p, k + 1);
    }
  }

  // ---------------------------------------------------------------- the detectors

  /** The trailing reads, collected from the end and put back in order. */
  method CollectReads(timeline: seq<Call>) returns (suffix: seq<Call>)
    ensures suffix == ReadSuffix(timeline)
  {
    hide IsRead, ReadSuffix;
    NoReads();
    suffix := [];
    var i := |timeline|;
    assert timeline[..i] == timeline;
    while i > 0
      invariant 0 <= i <= |timeline|
      invariant ReadSuffix(timeline) == ReadSuffix(timeline[..i]) + suffix
    {
      var entry := timeline[i - 1];
      ReadSuffixStep(timeline[..i]);
      assert timeline[..i][..i - 1] == timeline[..i - 1];
      if !IsRead(entry) { return; }
      assert ReadSuffix(timeline[..i - 1]) + [entry] + suffix == ReadSuffix(timeline[..i - 1]) + ([entry] + suffix);
      suffix := [entry] + suffix;
      i := i - 1;
    }
  }

  lemma ReadSuffixStep(timeline: seq<Call>)
    requires timeline != []
    ensures var n := |timeline| - 1;
      ReadSuffix(timeline) == if IsRead(timeline[n]) then ReadSuffix(timeline[..n]) + [timeline[n]] else []
  {
  }

  lemma NoReads()
    ensures ReadSuffix([]) == []
  {
  }

  /** Counts how often the last block of length p stands at the end, and where its first copy begins. */
  method CountRepeats(keys: seq<Key>, p: nat) returns (repeats: nat, cursor: nat)
    requires 1 <= p <= |keys|
    ensures repeats >= 1 && RepeatsAtEnd(keys, p, repeats) && !RepeatsAtEnd(keys, p, repeats + 1)
    ensures cursor == |keys| - repeats * p
  {
    hide RepeatsAtEnd, Power;
    var pattern := keys[|keys| - p..];
    repeats, cursor := 1, |keys| - p;
    OnceAtEnd(keys, p);
    while cursor >= p && keys[cursor - p..cursor] == pattern
      invariant 1 <= repeats && cursor <= |keys| && cursor == |keys| - repeats * p
      invariant RepeatsAtEnd(keys, p, repeats)
    {
      RepeatsAsPower(keys, p, repeats);
      assert (repeats + 1) * p == repeats * p + p;
      AddBlock(keys, p, repeats);
      repeats := repeats + 1;
      cursor := cursor - p;
    }
    if RepeatsAtEnd(keys, p, repeats + 1) {
      NextBlock(keys, p, repeats);
      assert false;
    }
  }

  lemma OneRepeatIsNoCycle<T>(s: seq<T>, p: nat, k: nat)
    requires RepeatsAtEnd(s, p, k) && !RepeatsAtEnd(s, p, k + 1) && k >= 1
    ensures RepeatsAtEnd(s, p, 2) <==> k >= 2
  {
    hide RepeatsAtEnd;
    if k >= 2 { RepeatsDownTo(s, p, k, 2); }
  }

  /** The runner's detector: tries cycle lengths in increasing order. */
  method RepeatedReadOnlyCycle(timeline: seq<Call>, maxCycleLength: int) returns (cycle: Option<(nat, nat)>)
    ensures match cycle
      case Some(c) => Found(Keys(ReadSuffix(timeline)), maxCycleLength, c.0, c.1)
      case None => NotFound(Keys(ReadSuffix(timeline)), maxCycleLength)
  {
    hide RepeatsAtEnd, ReadSuffix;
    var calls := CollectReads(timeline);
    var suffix := Keys(calls);
    var bound := if maxCycleLength < |suffix| / 2 then maxCycleLength else |suffix| / 2;
    var p := 1;
    while p <= bound
      invariant 1 <= p
      invariant forall q: nat :: q < p ==> !IsCycle(suffix, q)
    {
      var repeats, cursor := CountRepeats(suffix, p);
      OneRepeatIsNoCycle(suffix, p, repeats);
      if repeats >= 2 { return Some((p, repeats)); }
      p := p + 1;
    }
    forall q: nat | q <= maxCycleLength ensures !IsCycle(suffix, q) {
      if IsCycle(suffix, q) { TwiceNeedsRoom(suffix, q); }
    }
    cycle := None;
  }

  lemma CursorInTimeline(timeline: seq<Call>, calls: seq<Call>, p: nat, repeats: nat, cursor: nat)
    requires |calls| <= |timeline| && calls == timeline[|timeline| - |calls|..]
    requires p >= 1 && repeats >= 1 && cursor == |calls| - repeats * p
    ensures 1 <= p * repeats <= |calls| && calls[cursor] == timeline[|timeline| - p * repeats]
  {
    assert repeats * p == p * repeats;
    assert p * repeats >= 1;
  }

  datatype CycleFinding = CycleFinding(length: nat, repeats: nat, sequence: Option<int>)

  /** The report's detector: the same search up to length 4, pointing at the first call of the repetition. */
  method RepeatedReadOnlyCycleFinding(timeline: seq<Call>) returns (finding: Option<CycleFinding>)
    ensures match finding
      case Some(f) =>
        && Found(Keys(ReadSuffix(timeline)), 4, f.length, f.repeats)
        && 1 <= f.length * f.repeats <= |ReadSuffix(timeline)|
        && f.sequence == timeline[|timeline| - f.length * f.repeats].sequence
      case None => NotFound(Keys(ReadSuffix(timeline)), 4)
  {
    hide RepeatsAtEnd, ReadSuffix;
    var calls := CollectReads(timeline);
    var suffix := Keys(calls);
    var bound := if 4 < |suffix| / 2 then 4 else |suffix| / 2;
    var p := 1;
    while p <= bound
      invariant 1 <= p
      invariant forall q: nat :: q < p ==> !IsCycle(suffix, q)
    {
      var repeats, cursor := CountRepeats(suffix, p);
      OneRepeatIsNoCycle(suffix, p, repeats);
      if repeats >= 2 {
        ReadSuffixIsLongest(timeline);
        CursorInTimeline(timeline, calls, p, repeats, cursor);
        return Some(CycleFinding(p, repeats, calls[cursor].sequence));
      }
      p := p + 1;
    }
    forall q: nat | q <= 4 ensures !IsCycle(suffix, q) {
      if IsCycle(suffix, q) { TwiceNeedsRoom(suffix, q); }
    }
    finding := None;
  }

  // ---------------------------------------------------------------- repeated failures

  // Calls start .. start + count - 1 fail in one and the same way, and neither neighbour does.
  predicate IsStreak(timeline: seq<Call>, start: nat, count: nat) {
    && count >= 1 && start + count <= |timeline|
    && (forall i :: start <= i < start + count ==> !timeline[i].success && timeline[i].signature == timeline[start].signature)
    && (start > 0 ==> timeline[start - 1].success || timeline[start - 1].signature != timeline[start].signature)
    && (start + count < |timeline| ==>
          timeline[start + count].success || timeline[start + count].signature != timeline[start].signature)
  }

  datatype Streak = Streak(start: nat, count: nat)

  // The streaks of two or more calls that begin before n, in order.
  ghost predicate ListsStreaks(timeline: seq<Call>, streaks: seq<Streak>, n: nat) {
    && (forall k :: 0 <= k < |streaks| ==>
          IsStreak(timeline, streaks[k].start, streaks[k].count) && streaks[k].count >= 2 && streaks[k].start < n)
    && (forall j, k :: 0 <= j < k < |streaks| ==> streaks[j].start < streaks[k].start)
    && (forall start: nat, count: nat :: count >= 2 && start < n && IsStreak(timeline, start, count) ==>
          Streak(start, count) in streaks)
  }

  // Where the running streak stands: it began at start and reaches up to i, or there is none.
  ghost predicate Running(timeline: seq<Call>, i: nat, start: nat, count: nat) {
    && i <= |timeline| && start + count == i
    && (count == 0 ==> i == 0 || timeline[i - 1].success)
    && (count > 0 ==>
          && (forall k :: start <= k < i ==> !timeline[k].success && timeline[k].signature == timeline[start].signature)
          && (start > 0 ==> timeline[start - 1].success || timeline[start - 1].signature != timeline[start].signature))
  }

  lemma StreakIsMaximal(timeline: seq<Call>, a: nat, m: nat, b: nat, n: nat)
    requires IsStreak(timeline, a, m) && IsStreak(timeline, b, n) && a <= b < a + m
    ensures a == b && m == n
  {
  }

  lemma CloseStreak(timeline: seq<Call>, streaks: seq<Streak>, i: nat, start: nat, count: nat)
    requires Running(timeline, i, start, count) && ListsStreaks(timeline, streaks, start)
    requires i < |timeline| && count > 0 ==> timeline[i].success || timeline[i].signature != timeline[start].signature
    ensures ListsStreaks(timeline, if count >= 2 then streaks + [Streak(start, count)] else streaks, i)
  {
    var closed := if count >= 2 then streaks + [Streak(start, count)] else streaks;
    if count > 0 {
      assert IsStreak(timeline, start, count);
    }
    forall s: nat, n: nat | n >= 2 && s < i && IsStreak(timeline, s, n) ensures Streak(s, n) in closed {
      if s >= start {
        StreakIsMaximal(timeline, start, count, s, n);
        assert closed[|streaks|] == Streak(s, n);
      } else {
        assert Streak(s, n) in streaks;
      }
    }
  }

  lemma SuccessStartsNoStreak(timeline: seq<Call>, streaks: seq<Streak>, i: nat)
    requires ListsStreaks(timeline, streaks, i) && i < |timeline| && timeline[i].success
    ensures ListsStreaks(timeline, streaks, i + 1)
  {
    forall s: nat, n: nat | n >= 2 && s < i + 1 && IsStreak(timeline, s, n) ensures Streak(s, n) in streaks {
      assert !timeline[s].success;
    }
  }

  /** One pass with a running signature and count lists exactly the maximal streaks of two or more, in order. */
  method RepeatedFailures(timeline: seq<Call>) returns (streaks: seq<Streak>)
    ensures ListsStreaks(timeline, streaks, |timeline|)
  {
    hide IsStreak, ListsStreaks;
    streaks := [];
    var current: Option<string> := None;
    var start, count := 0, 0;
    assert ListsStreaks(timeline, [], 0) by { NoStreaksYet(timeline); }
    for i := 0 to |timeline|
      invariant Running(timeline, i, start, count)
      invariant current.Some? <==> count > 0
      invariant count > 0 ==> current == Some(timeline[start].signature)
      invariant ListsStreaks(timeline, streaks, start)
    {
      var entry := timeline[i];
      if entry.success {
        CloseStreak(timeline, streaks, i, start, count);
        if count >= 2 { streaks := streaks + [Streak(start, count)]; }
        SuccessStartsNoStreak(timeline, streaks, i);
        current, start, count := None, i + 1, 0;
      } else if current == Some(entry.signature) {
        count := count + 1;
      } else {
        CloseStreak(timeline, streaks, i, start, count);
        if count >= 2 { streaks := streaks + [Streak(start, count)]; }
        current, start, count := Some(entry.signature), i, 1;
      }
    }
    CloseStreak(timeline, streaks, |timeline|, start, count);
    if count >= 2 { streaks := streaks + [Streak(start, count)]; }
  }

  lemma NoStreaksYet(timeline: seq<Call>)
    ensures ListsStreaks(timeline, [], 0)
  {
  }
}

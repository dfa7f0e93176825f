/**
 Aliases of tool names for providers that restrict function names.

 The hexadecimal digest suffix of a name at an attempt is a parameter: twelve digits, and different for
 the attempts that can be needed, of which there are no more than there are names.
 */
module ToolNames {

  type Suffix = (string, nat) -> string

  const MAX_LENGTH := 64

  predicate IsHeadChar(c: char) {
    'A' <= c <= 'Z' || 'a' <= c <= 'z' || c == '_'
  }

  predicate IsNameChar(c: char) {
    IsHeadChar(c) || '0' <= c <= '9' || c == '-'
  }

  predicate OnlyNameChars(s: string) {
    forall i :: 0 <= i < |s| ==> IsNameChar(s[i])
  }

  // What a provider accepts: a letter or underscore, then at most 63 letters, digits, underscores, hyphens.
  predicate IsProviderName(s: string) {
    1 <= |s| <= MAX_LENGTH && IsHeadChar(s[0]) && OnlyNameChars(s)
  }

  function Cleaned(s: string): (r: string)
    ensures |r| == |s| && OnlyNameChars(r)
  {
    seq(|s|, i requires 0 <= i < |s| => if IsNameChar(s[i]) then s[i] else '_')
  }

  function Base(name: string): (r: string)
    ensures r != "" && IsHeadChar(r[0]) && OnlyNameChars(r)
  {
    var c := Cleaned(name);
    if c == "" || !IsHeadChar(c[0]) then "tool_" + c else c
  }

  // How many of the names share a base.
  function Sharing(names: seq<string>, base: string): nat {
    if names == [] then 0
    else Sharing(names[..|names| - 1], base) + if Base(names[|names| - 1]) == base then 1 else 0
  }

  predicate IsUnchanged(names: seq<string>, s: string) {
    s in names && IsProviderName(s)
  }

  function Probe(suffix: Suffix, name: string, attempt: nat): string {
    var tail := "_" + suffix(name, attempt);
    var room := if |tail| <= MAX_LENGTH then MAX_LENGTH - |tail| else 0;
    (if |Base(name)| <= room then Base(name) else Base(name)[..room]) + tail
  }

  ghost predicate GoodSuffix(suffix: Suffix, names: seq<string>) {
    && (forall n, k: nat :: n in names ==> |suffix(n, k)| == 12 && OnlyNameChars(suffix(n, k)))
    && (forall n, i: nat, j: nat :: n in names && i < j < |names| ==> suffix(n, i) != suffix(n, j))
  }

  predicate Taken(names: seq<string>, given: seq<string>, s: string) {
    IsUnchanged(names, s) || s in given
  }

  // The first attempt from here on that gives a free alias, or `limit`.
  function FirstFree(suffix: Suffix, names: seq<string>, given: seq<string>, name: string, attempt: nat, limit: nat): (k: nat)
    requires attempt <= limit
    ensures attempt <= k <= limit
    ensures forall i: nat :: attempt <= i < k ==> Taken(names, given, Probe(suffix, name, i))
    ensures k < limit ==> !Taken(names, given, Probe(suffix, name, k))
    decreases limit - attempt
  {
    if attempt == limit || !Taken(names, given, Probe(suffix, name, attempt)) then attempt
    else FirstFree(suffix, names, given, name, attempt + 1, limit)
  }

  predicate KeepsBase(names: seq<string>, given: seq<string>, name: string) {
    |Base(name)| <= MAX_LENGTH && Sharing(names, Base(name)) == 1 && !Taken(names, given, Base(name))
  }

  function Alias(suffix: Suffix, names: seq<string>, given: seq<string>, name: string): string {
    if IsProviderName(name) then name
    else if KeepsBase(names, given, name) then Base(name)
    else Probe(suffix, name, FirstFree(suffix, names, given, name, 0, |names|))
  }

  // The aliases of the first n names, each chosen in view of the ones before it.
  function Aliases(suffix: Suffix, names: seq<string>, n: nat): (r: seq<string>)
    requires n <= |names|
    ensures |r| == n
  {
    if n == 0 then []
    else
      var given := Aliases(suffix, names, n - 1);
      given + [Alias(suffix, names, given, names[n - 1])]
  }

  function Distinct(tools: seq<string>): (r: seq<string>)
    ensures forall n :: n in tools <==> n in r
    ensures forall i, j :: 0 <= i < j < |r| ==> r[i] != r[j]
    ensures |r| <= |tools|
  {
    if tools == [] then []
    else
      var front, last := Distinct(tools[..|tools| - 1]), tools[|tools| - 1];
      assert tools == tools[..|tools| - 1] + [last];
      if last in front then front else front + [last]
  }

  function Zip(keys: seq<string>, values: seq<string>): (m: map<string, string>)
    requires |keys| == |values|
    ensures m.Keys == set k | k in keys
  {
    if keys == [] then map[]
    else
      var n := |keys| - 1;
      assert keys == keys[..n] + [keys[n]];
      Zip(keys[..n], values[..n])[keys[n] := values[n]]
  }

  lemma {:induction false} ZipAt(keys: seq<string>, values: seq<string>, i: nat)
    requires |keys| == |values| && i < |keys|
    requires forall a, b :: 0 <= a < b < |keys| ==> keys[a] != keys[b]
    ensures keys[i] in Zip(keys, values) && Zip(keys, values)[keys[i]] == values[i]
  {
    if i < |keys| - 1 {
      ZipAt(keys[..|keys| - 1], values[..|keys| - 1], i);
    }
  }

  // ---------------------------------------------------------------- aliases of one list

  ghost predicate NoRepeats(names: seq<string>) {
    forall i, j :: 0 <= i < j < |names| ==> names[i] != names[j]
  }

  // What holds of the aliases given so far.
  ghost predicate Sound(names: seq<string>, given: seq<string>) {
    && |given| <= |names|
    && (forall i :: 0 <= i < |given| ==> IsProviderName(given[i]))
    && (forall i :: 0 <= i < |given| && IsProviderName(names[i]) ==> given[i] == names[i])
    && (forall i :: 0 <= i < |given| && IsUnchanged(names, given[i]) ==> given[i] == names[i])
    && NoRepeats(given)
  }

  lemma ProbeIsProviderName(suffix: Suffix, names: seq<string>, name: string, attempt: nat)
    requires GoodSuffix(suffix, names) && name in names
    ensures IsProviderName(Probe(suffix, name, attempt))
  {
  }

  lemma ProbesDiffer(suffix: Suffix, names: seq<string>, name: string, i: nat, j: nat)
    requires GoodSuffix(suffix, names) && name in names && i < j < |names|
    ensures Probe(suffix, name, i) != Probe(suffix, name, j)
  {
    var p, q := Probe(suffix, name, i), Probe(suffix, name, j);
    assert p[|p| - 12..] == suffix(name, i) && q[|q| - 12..] == suffix(name, j);
  }

  lemma {:induction false} ElementsAreFew(s: seq<string>, elements: set<string>)
    requires forall e :: e in elements ==> e in s
    ensures |elements| <= |s|
  {
    if s != [] {
      var front, last := s[..|s| - 1], s[|s| - 1];
      assert s == front + [last];
      ElementsAreFew(front, elements - {last});
      if last in elements {
        assert elements == (elements - {last}) + {last};
      } else {
        assert elements == elements - {last};
      }
    }
  }

  function Probes(suffix: Suffix, name: string, n: nat): set<string> {
    set k: nat | k < n :: Probe(suffix, name, k)
  }

  lemma {:induction false} ProbesAreMany(suffix: Suffix, names: seq<string>, name: string, n: nat)
    requires GoodSuffix(suffix, names) && name in names && n <= |names|
    ensures |Probes(suffix, name, n)| == n
  {
    hide Probe, GoodSuffix;
    if n == 0 {
      assert Probes(suffix, name, 0) == {};
    } else {
      ProbesAreMany(suffix, names, name, n - 1);
      var last := Probe(suffix, name, n - 1);
      forall k: nat | k < n - 1 ensures Probe(suffix, name, k) != last {
        ProbesDiffer(suffix, names, name, k, n - 1);
      }
      assert last !in Probes(suffix, name, n - 1);
      assert Probes(suffix, name, n) == Probes(suffix, name, n - 1) + {last};
    }
  }

  /**
   The pigeonhole behind the probing loop: when a name that must change is given its alias, fewer aliases
   are taken than there are names, so one of that many different probes is free.
   */
  lemma SomeProbeIsFree(suffix: Suffix, names: seq<string>, given: seq<string>)
    requires GoodSuffix(suffix, names) && Sound(names, given)
    requires |given| < |names| && !IsProviderName(names[|given|])
    ensures exists k: nat :: k < |names| && !Taken(names, given, Probe(suffix, names[|given|], k))
  {
    hide Probe, GoodSuffix, IsProviderName;
    var name := names[|given|];
    if forall k: nat | k < |names| :: Taken(names, given, Probe(suffix, name, k)) {
      var pool := given + names[|given| + 1..];
      var probes := Probes(suffix, name, |names|);
      forall s | s in probes ensures s in pool {
        var k: nat :| k < |names| && s == Probe(suffix, name, k);
        TakenIsInPool(names, given, s);
      }
      ElementsAreFew(pool, probes);
      ProbesAreMany(suffix, names, name, |names|);
      assert false;
    }
  }

  lemma TakenIsInPool(names: seq<string>, given: seq<string>, s: string)
    requires Sound(names, given) && |given| < |names| && !IsProviderName(names[|given|])
    requires Taken(names, given, s)
    ensures s in given + names[|given| + 1..]
  {
    hide IsProviderName;
    if IsUnchanged(names, s) {
      var i :| 0 <= i < |names| && names[i] == s;
      if i < |given| {
        assert given[i] == s;
      } else {
        assert names[|given| + 1..][i - |given| - 1] == s;
      }
    }
  }

  lemma AliasKeepsSound(suffix: Suffix, names: seq<string>, given: seq<string>)
    requires GoodSuffix(suffix, names) && NoRepeats(names)
    requires Sound(names, given) && |given| < |names|
    ensures Sound(names, given + [Alias(suffix, names, given, names[|given|])])
  {
    hide Probe, GoodSuffix, OnlyNameChars, IsHeadChar;
    var name := names[|given|];
    var alias := Alias(suffix, names, given, name);
    if !IsProviderName(name) {
      if !KeepsBase(names, given, name) {
        var k := FirstFree(suffix, names, given, name, 0, |names|);
        SomeProbeIsFree(suffix, names, given);
        ProbeIsProviderName(suffix, names, name, k);
      }
      assert !Taken(names, given, alias) && IsProviderName(alias);
    }
    var all := given + [alias];
    if IsProviderName(name) {
      assert IsUnchanged(names, name);
    }
    forall i | 0 <= i < |given| ensures all[i] != alias {
    }
  }

  lemma {:induction false} AliasesAreSound(suffix: Suffix, names: seq<string>, n: nat)
    requires GoodSuffix(suffix, names) && NoRepeats(names) && n <= |names|
    ensures Sound(names, Aliases(suffix, names, n))
  {
    hide GoodSuffix, Alias;
    if n > 0 {
      AliasesAreSound(suffix, names, n - 1);
      AliasKeepsSound(suffix, names, Aliases(suffix, names, n - 1));
    } else {
      assert Sound(names, []);
    }
  }

  // ---------------------------------------------------------------- the table

  datatype ProviderToolNames = ProviderToolNames(
    canonicalToProvider: map<string, string>, providerToCanonical: map<string, string>)
  {
    function ProviderName(name: string): string {
      if name in canonicalToProvider then canonicalToProvider[name] else name
    }

    function CanonicalName(name: string): string {
      if name in providerToCanonical then providerToCanonical[name] else name
    }
  }

  function TableOf(suffix: Suffix, tools: seq<string>): ProviderToolNames {
    var names := Distinct(tools);
    var aliases := Aliases(suffix, names, |names|);
    ProviderToolNames(Zip(names, aliases), Zip(aliases, names))
  }

  /**
   For every list of tools: each listed name comes back from its alias and each alias from its name,
   different names have different aliases, every alias is one the provider accepts, and a name is
   changed only if the provider would refuse it.
   */
  lemma AliasesAreBijective(suffix: Suffix, tools: seq<string>)
    requires GoodSuffix(suffix, Distinct(tools))
    ensures var t := TableOf(suffix, tools);
      && (forall n :: n in tools ==> t.CanonicalName(t.ProviderName(n)) == n)
      && (forall a :: a in t.providerToCanonical ==> t.ProviderName(t.CanonicalName(a)) == a)
      && (forall m, n :: m in tools && n in tools && t.ProviderName(m) == t.ProviderName(n) ==> m == n)
      && (forall n :: n in tools ==> IsProviderName(t.ProviderName(n)))
      && (forall n :: n in tools ==> (t.ProviderName(n) == n <==> IsProviderName(n)))
  {
    hide GoodSuffix, Aliases, IsProviderName, Zip;
    var names := Distinct(tools);
    var aliases := Aliases(suffix, names, |names|);
    AliasesAreSound(suffix, names, |names|);
    var t := TableOf(suffix, tools);
    forall i | 0 <= i < |names|
      ensures t.ProviderName(names[i]) == aliases[i] && t.CanonicalName(aliases[i]) == names[i]
    {
      ZipAt(names, aliases, i);
      ZipAt(aliases, names, i);
    }
    forall n | n in tools
      ensures t.CanonicalName(t.ProviderName(n)) == n
      ensures IsProviderName(t.ProviderName(n)) && (t.ProviderName(n) == n <==> IsProviderName(n))
    {
      var i :| 0 <= i < |names| && names[i] == n;
      assert t.ProviderName(names[i]) == aliases[i];
    }
    forall a | a in t.providerToCanonical ensures t.ProviderName(t.CanonicalName(a)) == a {
      var i :| 0 <= i < |aliases| && aliases[i] == a;
      assert t.CanonicalName(aliases[i]) == names[i];
    }
  }

  // ---------------------------------------------------------------- which alias a name gets

  /**
   The base of a name: every character a provider refuses becomes an underscore, every other one stays, and
   "tool_" goes in front exactly if the name is empty or starts with a digit or a hyphen.
   */
  lemma BaseExactly(name: string)
    ensures var prefixed := name == "" || '0' <= name[0] <= '9' || name[0] == '-';
      var start := if prefixed then 5 else 0;
      && |Base(name)| == start + |name| && (prefixed ==> Base(name)[..5] == "tool_")
      && forall i :: 0 <= i < |name| ==> Base(name)[start + i] == if IsNameChar(name[i]) then name[i] else '_'
  {
  }

  /** A base is shared by one name of a list exactly if no other name has it. */
  lemma {:induction false} SharingNone(names: seq<string>, base: string)
    ensures Sharing(names, base) == 0 <==> forall n :: n in names ==> Base(n) != base
  {
    hide Base;
    if names != [] {
      SharingNone(names[..|names| - 1], base);
      assert names == names[..|names| - 1] + [names[|names| - 1]];
    }
  }

  lemma {:induction false} SharingOne(names: seq<string>, i: nat)
    requires NoRepeats(names) && i < |names|
    ensures Sharing(names, Base(names[i])) == 1 <==> forall j :: 0 <= j < |names| && j != i ==> Base(names[j]) != Base(names[i])
  {
    hide Base;
    var n := |names| - 1;
    var front := names[..n];
    if i < n {
      assert front[i] == names[i];
      SharingOne(front, i);
      assert forall j :: 0 <= j < n ==> front[j] == names[j];
      SharingSome(front, i);
    } else {
      SharingNone(front, Base(names[n]));
      assert forall j :: 0 <= j < n ==> front[j] in front;
    }
  }

  lemma SharingSome(names: seq<string>, i: nat)
    requires i < |names|
    ensures Sharing(names, Base(names[i])) >= 1
  {
    SharingNone(names, Base(names[i]));
  }

  // The base cut to leave room for an underscore and the twelve digits.
  predicate IsProbe(suffix: Suffix, name: string, attempt: nat, alias: string) {
    var cut := if |Base(name)| <= 51 then |Base(name)| else 51;
    alias == Base(name)[..cut] + "_" + suffix(name, attempt)
  }

  lemma ProbeIs(suffix: Suffix, names: seq<string>, name: string, attempt: nat)
    requires GoodSuffix(suffix, names) && name in names
    ensures IsProbe(suffix, name, attempt, Probe(suffix, name, attempt))
  {
    hide Base;
  }

  // The alias is not that of an earlier name, nor a name that stays as it is.
  predicate IsFree(names: seq<string>, given: seq<string>, s: string) {
    (forall j :: 0 <= j < |given| ==> given[j] != s) && forall n :: n in names && n == s ==> !IsProviderName(n)
  }

  ghost predicate IsFirstFreeProbe(suffix: Suffix, names: seq<string>, given: seq<string>, name: string, k: nat, alias: string) {
    && IsProbe(suffix, name, k, alias) && IsFree(names, given, alias)
    && forall j: nat, s :: j < k && IsProbe(suffix, name, j, s) ==> !IsFree(names, given, s)
  }

  lemma FreeIsNotTaken(names: seq<string>, given: seq<string>, s: string)
    ensures IsFree(names, given, s) <==> !Taken(names, given, s)
  {
    hide IsProviderName;
  }

  lemma FirstFreeIs(suffix: Suffix, names: seq<string>, given: seq<string>)
    requires GoodSuffix(suffix, names) && Sound(names, given) && |given| < |names| && !IsProviderName(names[|given|])
    ensures var name := names[|given|]; var k := FirstFree(suffix, names, given, name, 0, |names|);
      IsFirstFreeProbe(suffix, names, given, name, k, Probe(suffix, name, k))
  {
    hide GoodSuffix, IsProviderName, Base, Probe, IsProbe, IsFree, Taken, Sound;
    var name := names[|given|];
    SomeProbeIsFree(suffix, names, given);
    var k := FirstFree(suffix, names, given, name, 0, |names|);
    ProbeIs(suffix, names, name, k);
    FreeIsNotTaken(names, given, Probe(suffix, name, k));
    forall j: nat, s | j < k && IsProbe(suffix, name, j, s) ensures !IsFree(names, given, s) {
      ProbeIs(suffix, names, name, j);
      OneProbe(suffix, name, j, s, Probe(suffix, name, j));
      FreeIsNotTaken(names, given, s);
    }
  }

  // What the alias of a name is, given those of the names before it.
  ghost predicate IsAliasOf(suffix: Suffix, names: seq<string>, given: seq<string>, alias: string)
    requires |given| < |names|
  {
    var i := |given|;
    var base := Base(names[i]);
    if IsProviderName(names[i]) then alias == names[i]
    else if |base| <= 64 && IsFree(names, given, base) && forall j :: 0 <= j < |names| && j != i ==> Base(names[j]) != base
    then alias == base
    else exists k: nat :: IsFirstFreeProbe(suffix, names, given, names[i], k, alias)
  }

  lemma ChosenExactly(suffix: Suffix, names: seq<string>, given: seq<string>)
    requires GoodSuffix(suffix, names) && NoRepeats(names) && Sound(names, given) && |given| < |names|
    ensures IsAliasOf(suffix, names, given, Alias(suffix, names, given, names[|given|]))
  {
    hide GoodSuffix, IsProviderName, Base, Probe, Sharing, IsFirstFreeProbe, IsFree, Taken, Sound, FirstFree;
    SharingOne(names, |given|);
    FreeIsNotTaken(names, given, Base(names[|given|]));
    if !IsProviderName(names[|given|]) { FirstFreeIs(suffix, names, given); }
  }

  /**
   Which alias each name gets, in the order of the list: itself if it is acceptable; else its base, if that is
   short enough, no other name has it, and it is free; else the first free probe.
   */
  lemma AliasExactly(suffix: Suffix, names: seq<string>, i: nat)
    requires GoodSuffix(suffix, names) && NoRepeats(names) && i < |names|
    ensures IsAliasOf(suffix, names, Aliases(suffix, names, |names|)[..i], Aliases(suffix, names, |names|)[i])
  {
    hide GoodSuffix, Sound, Alias, IsAliasOf;
    AliasesPrefix(suffix, names, i + 1, |names|);
    AliasesPrefix(suffix, names, i, |names|);
    AliasesAreSound(suffix, names, i);
    ChosenExactly(suffix, names, Aliases(suffix, names, i));
    assert Aliases(suffix, names, |names|)[i] == Aliases(suffix, names, |names|)[..i + 1][i];
  }

  lemma OneProbe(suffix: Suffix, name: string, attempt: nat, s: string, t: string)
    requires IsProbe(suffix, name, attempt, s) && IsProbe(suffix, name, attempt, t)
    ensures s == t
  {
    hide Base;
  }

  lemma {:induction false} AliasesPrefix(suffix: Suffix, names: seq<string>, m: nat, n: nat)
    requires m <= n <= |names|
    ensures Aliases(suffix, names, n)[..m] == Aliases(suffix, names, m)
  {
    hide Alias;
    if m < n {
      AliasesPrefix(suffix, names, m, n - 1);
      assert Aliases(suffix, names, n)[..m] == Aliases(suffix, names, n - 1)[..m];
    }
  }

  /** The different names of a list stand in the order in which each comes first. */
  lemma {:induction false} DistinctInOrder(tools: seq<string>, j: nat)
    requires j < |tools| && tools[j] !in tools[..j]
    ensures var k := |Distinct(tools[..j])|; k < |Distinct(tools)| && Distinct(tools)[k] == tools[j]
  {
    var n := |tools| - 1;
    if j < n {
      assert tools[..n][..j] == tools[..j];
      DistinctInOrder(tools[..n], j);
    }
  }

  // ---------------------------------------------------------------- the procedure

  /** Counts how many of the names clean up to each base. */
  method CountBases(names: seq<string>) returns (counts: map<string, nat>)
    ensures forall n :: n in names ==> Base(n) in counts && counts[Base(n)] == Sharing(names, Base(n))
  {
    hide Base;
    counts := map[];
    assert names[..0] == [];
    for i := 0 to |names|
      invariant forall b :: (if b in counts then counts[b] else 0) == Sharing(names[..i], b)
      invariant forall k :: 0 <= k < i ==> Base(names[k]) in counts
    {
      var base := Base(names[i]);
      assert names[..i + 1][..i] == names[..i];
      counts := counts[base := (if base in counts then counts[base] else 0) + 1];
    }
    assert names[..|names|] == names;
  }

  /** Tries the digest suffix of attempt 0, 1, 2, ... until an alias is free. */
  method ProbeForAlias(suffix: Suffix, name: string, kept: set<string>, taken: map<string, string>,
                       ghost names: seq<string>, ghost given: seq<string>) returns (alias: string)
    requires GoodSuffix(suffix, names) && Sound(names, given)
    requires |given| < |names| && name == names[|given|] && !IsProviderName(name)
    requires forall s :: s in kept <==> IsUnchanged(names, s)
    requires forall s :: s in taken <==> s in given
    ensures alias == Probe(suffix, name, FirstFree(suffix, names, given, name, 0, |names|))
  {
    hide Probe, GoodSuffix, IsProviderName, Sound, IsUnchanged;
    SomeProbeIsFree(suffix, names, given);
    var attempt := 0;
    alias := Probe(suffix, name, 0);
    while alias in kept || alias in taken
      invariant alias == Probe(suffix, name, attempt)
      invariant forall k: nat :: k < attempt ==> Taken(names, given, Probe(suffix, name, k))
      invariant attempt < |names|
      decreases |names| - attempt
    {
      ghost var free: nat :| free < |names| && !Taken(names, given, Probe(suffix, name, free));
      attempt := attempt + 1;
      alias := Probe(suffix, name, attempt);
    }
    assert FirstFree(suffix, names, given, name, 0, |names|) == attempt;
  }

  /** Drops repeated names, keeping the first of each. */
  method DistinctNames(tools: seq<string>) returns (names: seq<string>)
    ensures names == Distinct(tools)
  {
    names := [];
    assert tools[..0] == [];
    for i := 0 to |tools|
      invariant names == Distinct(tools[..i])
    {
      assert tools[..i + 1][..i] == tools[..i];
      if tools[i] !in names { names := names + [tools[i]]; }
    }
    assert tools[..|tools|] == tools;
  }

  lemma ZipAppend(keys: seq<string>, values: seq<string>, key: string, value: string)
    requires |keys| == |values|
    ensures Zip(keys + [key], values + [value]) == Zip(keys, values)[key := value]
  {
    assert (keys + [key])[..|keys|] == keys && (values + [value])[..|values|] == values;
  }

  lemma AliasesNext(suffix: Suffix, names: seq<string>, i: nat, alias: string)
    requires i < |names| && alias == Alias(suffix, names, Aliases(suffix, names, i), names[i])
    ensures Aliases(suffix, names, i) + [alias] == Aliases(suffix, names, i + 1)
    ensures Zip(names[..i + 1], Aliases(suffix, names, i + 1)) == Zip(names[..i], Aliases(suffix, names, i))[names[i] := alias]
    ensures Zip(Aliases(suffix, names, i + 1), names[..i + 1]) == Zip(Aliases(suffix, names, i), names[..i])[alias := names[i]]
  {
    hide Alias, Zip;
    assert names[..i + 1] == names[..i] + [names[i]];
    ZipAppend(names[..i], Aliases(suffix, names, i), names[i], alias);
    ZipAppend(Aliases(suffix, names, i), names[..i], alias, names[i]);
  }

  /** Chooses the alias of one name, given the aliases of the names before it. */
  method ChooseAlias(suffix: Suffix, names: seq<string>, i: nat, kept: set<string>, counts: map<string, nat>,
                     toCanonical: map<string, string>) returns (alias: string)
    requires GoodSuffix(suffix, names) && NoRepeats(names) && i < |names|
    requires forall s :: s in kept <==> IsUnchanged(names, s)
    requires forall n :: n in names ==> Base(n) in counts && counts[Base(n)] == Sharing(names, Base(n))
    requires forall s :: s in toCanonical <==> s in Aliases(suffix, names, i)
    ensures alias == Alias(suffix, names, Aliases(suffix, names, i), names[i])
  {
    hide GoodSuffix, IsProviderName, Sound, Base, Probe, Aliases, Sharing;
    var name := names[i];
    ghost var given := Aliases(suffix, names, i);
    AliasesAreSound(suffix, names, i);
    if name in kept { return name; }
    var base := Base(name);
    if |base| <= MAX_LENGTH && counts[base] == 1 && base !in kept && base !in toCanonical { return base; }
    alias := ProbeForAlias(suffix, name, kept, toCanonical, names, given);
  }

  /** Builds both directions of the table in one pass over the different names. */
  method BuildTable(tools: seq<string>, suffix: Suffix) returns (table: ProviderToolNames)
    requires GoodSuffix(suffix, Distinct(tools))
    ensures table == TableOf(suffix, tools)
  {
    hide GoodSuffix, IsProviderName, Base, Alias, Zip, Aliases, Distinct, Sharing;
    var names := DistinctNames(tools);
    var counts := CountBases(names);
    var kept := set n | n in names && IsProviderName(n);
    var toProvider: map<string, string>, toCanonical: map<string, string> := map[], map[];
    NoNamesYet(suffix, names);
    for i := 0 to |names|
      invariant toProvider == Zip(names[..i], Aliases(suffix, names, i))
      invariant toCanonical == Zip(Aliases(suffix, names, i), names[..i])
    {
      var alias := ChooseAlias(suffix, names, i, kept, counts, toCanonical);
      AliasesNext(suffix, names, i, alias);
      toProvider := toProvider[names[i] := alias];
      toCanonical := toCanonical[alias := names[i]];
    }
    assert names[..|names|] == names;
    table := ProviderToolNames.ProviderToolNames(toProvider, toCanonical);
  }

  lemma NoNamesYet(suffix: Suffix, names: seq<string>)
    ensures Aliases(suffix, names, 0) == [] && Zip(names[..0], []) == map[] && Zip([], names[..0]) == map[]
  {
  }
}

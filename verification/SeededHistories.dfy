/**
 The three public workloads over the incident history a fixture is seeded with. Neither history satisfies
 the invariant of the repairs: one has two effects under one key, the other two rows for one occurrence.
 Both are sane, and a repair deployed over them passes every public workload, restore or no restore.
 */
module SeededHistories {
  import opened Wrappers
  import opened Settlement
  import opened Journal
  import opened Flows
  import opened RepairInvariant
  import opened Counting
  import opened SaneStore
  import opened Verdict

  const COMMAND_KEY := "cmd_8ef23dbbb32b4cb3aaeb2fb0e2a14ce1"
  const OCCURRENCE := "occ_f42e1a985e8b45f3a6bc9757dd2c6409"
  const PRIMARY := SeededEvent("evt_74c31f146a5d4e198f83b2d7619a0c5e")
  const ADDITIONAL := SeededEvent("evt_c92580b73e124da59b641f037a6e82d4")
  const PAYLOAD := SeededPayload("settlement:Q-41:100")

  function SeededRow(seqNo: nat, id: EventId, tick: nat): JournalRow {
    JournalRow(seqNo, id, COMMAND_KEY, OCCURRENCE, PAYLOAD, tick)
  }

  function SeededRowEffect(name: string, id: EventId, tick: nat): EffectRow {
    EffectRow(SeededEffect(name), OCCURRENCE, 100, SETTLEMENT, id, tick)
  }

  // One event settled twice.
  const TwoEffects: Tables := Tables(
    [SeededRow(1, PRIMARY, 41)], 1,
    [SeededRowEffect("efx_03f1ab9857434fcaaad46d5d1289ce70", PRIMARY, 42),
     SeededRowEffect("efx_aa2874f0c5314c54b136df95e4a8207c", PRIMARY, 44)],
    [], map[], map[(COMMAND_KEY, OCCURRENCE) := PRIMARY])

  // One occurrence journalled twice.
  const TwoRows: Tables := Tables(
    [SeededRow(1, PRIMARY, 41), SeededRow(2, ADDITIONAL, 43)], 2,
    [SeededRowEffect("efx_03f1ab9857434fcaaad46d5d1289ce70", PRIMARY, 42),
     SeededRowEffect("efx_d5899ca5c24e48d39f6e873ab020154b", ADDITIONAL, 44)],
    [], map[], map[(COMMAND_KEY, OCCURRENCE) := ADDITIONAL])

  // The history of a profile, at any moment from the end of its five ticks on.
  function Seeded(profile: nat, since: nat, workloadId: string, faults: Faults): State
    requires profile < 2
  {
    State(45 + since, if profile == 0 then TwoEffects else TwoRows, map[], faults, workloadId)
  }

  lemma SeededIsSane(profile: nat, since: nat, workloadId: string, faults: Faults)
    requires profile < 2
    ensures Sane(Seeded(profile, since, workloadId, faults)) && !Inv(Seeded(profile, since, workloadId, faults))
  {
    var s := Seeded(profile, since, workloadId, faults);
    if profile == 0 {
      assert s.tables.effects[0].sourceEvent == s.tables.effects[1].sourceEvent;
      assert !OneEffectPerKey(s.tables.effects);
    } else {
      assert PRIMARY != ADDITIONAL by { assert PRIMARY.name[4] != ADDITIONAL.name[4]; }
      assert s.tables.journal[0].Pair() == s.tables.journal[1].Pair();
      assert !OneRowPerOccurrence(s.tables.journal);
    }
  }

  // ---------------------------------------------------------------- the public workloads

  const P1: seq<Command> := [Command("cmd_routine_redelivery", "occ_routine_redelivery", "P1", "100")]
  const P2: seq<Command> := [Command("cmd_transient_effect", "occ_transient_effect", "P2", "100")]
  const P3: seq<Command> := [
    Command("cmd_unique_1", "occ_unique_1", "P3", "100"),
    Command("cmd_unique_2", "occ_unique_2", "P3", "100"),
    Command("cmd_unique_3", "occ_unique_3", "P3", "100")]

  const PublicLists: seq<seq<Command>> := [P1, P2, P3]

  ghost predicate NoPublicRows(t: Tables) {
    forall j :: 0 <= j < |PublicLists| ==> AllNew(t, PublicLists[j])
  }

  lemma PublicListsAreApart()
    ensures Apart(PublicLists)
  {
    assert Pairs(P1) == [P1[0].Pair()] && Pairs(P2) == [P2[0].Pair()];
    assert Pairs(P3) == [P3[0].Pair(), P3[1].Pair(), P3[2].Pair()];
    assert P3[0].commandKey[11] == '1' && P3[1].commandKey[11] == '2' && P3[2].commandKey[11] == '3';
    assert P1[0].commandKey[4] == 'r' && P2[0].commandKey[4] == 't' && forall d :: d in P3 ==> d.commandKey[4] == 'u';
  }

  lemma SeededHasNoPublicRows(profile: nat, since: nat, workloadId: string, faults: Faults)
    requires profile < 2
    ensures NoPublicRows(Seeded(profile, since, workloadId, faults).tables)
  {
    hide FirstRow;
    var t := Seeded(profile, since, workloadId, faults).tables;
    forall c | c in P1 || c in P2 || c in P3 ensures RowFor(t, c) == None {
      assert c.commandKey[4] != COMMAND_KEY[4];
      assert forall row :: row in t.journal ==> row.commandKey == COMMAND_KEY;
    }
  }

  /**
   The public workloads over any sane store that has no row of theirs: run in any order and any number of
   times, under either repair, any faults and attempts enough for them, every single run passes.
   */
  lemma PublicRunsPass(s: State, runs: seq<Rerun>)
    requires Sane(s) && NoPublicRows(s.tables) && AllAdmissible(PublicLists, runs)
    ensures forall i :: 0 <= i < |runs| ==>
      RunOne(RunLists(s, PublicLists, runs[..i]), PublicLists, runs[i]).out == Returned(true)
  {
    hide Sane, RunOne, Apart, AllNew, Orderly;
    PublicListsAreApart();
    forall j | 0 <= j < |PublicLists| ensures Orderly(s.tables, PublicLists[j]) {
      NewIsOrderly(s.tables, PublicLists[j]);
    }
    FixedListsAlwaysPass(s, PublicLists, runs);
  }

  /** So they all pass over either seeded history, with no restore before them. */
  lemma SeededPublicRunsPass(profile: nat, since: nat, workloadId: string, faults: Faults, runs: seq<Rerun>)
    requires profile < 2 && AllAdmissible(PublicLists, runs)
    ensures var s := Seeded(profile, since, workloadId, faults);
      forall i :: 0 <= i < |runs| ==>
        RunOne(RunLists(s, PublicLists, runs[..i]), PublicLists, runs[i]).out == Returned(true)
  {
    hide Sane, RunOne, NoPublicRows, Seeded;
    SeededIsSane(profile, since, workloadId, faults);
    SeededHasNoPublicRows(profile, since, workloadId, faults);
    PublicRunsPass(Seeded(profile, since, workloadId, faults), runs);
  }

  // A public run has no cutpoint, and the transient fault in P1 and P2 only.
  function PublicFaults(list: nat): Faults {
    Faults(false, false, list < 2)
  }

  /**
   With the one attempt of the settings that are active in the incident, deploying a repair is not enough:
   P3 passes, but P1 and P2 are refused, under either repair and over any sane store without a row of theirs.
   */
  lemma OneAttemptPassesThirdOnly(f: Flow, s: State, list: nat, workloadId: string)
    requires Repaired(f) && Sane(s) && NoPublicRows(s.tables) && list < 3
    ensures RunWorkload(f, NewRun(s, workloadId, PublicFaults(list)), PublicLists[list], 1).out ==
      if list < 2 then Refused else Returned(true)
  {
    hide Sane, RunWorkload, FirstRow, Orderly, RunLeaves;
    PublicListsAreApart();
    RunIsSane(s, workloadId, PublicFaults(list));
    var t := NewRun(s, workloadId, PublicFaults(list));
    NewIsOrderly(t.tables, PublicLists[list]);
    if list < 2 {
      assert Pending(t.tables, PublicLists[list][0]);
      assert NoneClaimed(t.tables, PublicLists[list]) by { OrderlyIsUnclaimed(t.tables, PublicLists[list]); }
      WorkloadVerdict(f, t, PublicLists[list], 1);
    } else {
      OrderlyPasses(f, t, PublicLists[list], 1);
    }
  }

  lemma OrderlyIsUnclaimed(t: Tables, commands: seq<Command>)
    requires Orderly(t, commands)
    ensures NoneClaimed(t, commands)
  {
  }

  /** P3 fails over a store in which some program journalled its last command ahead of the others. */
  lemma ThirdAheadFails(f: Flow, s: State, budget: int)
    requires Repaired(f) && Sane(s) && NoPublicRows(s.tables) && Enough(budget, s.faults)
    ensures RunWorkload(f, ApplyAll(s, [AppendOp(P3[2])]), P3, budget).out == Returned(false)
  {
    hide Sane, RunWorkload, ApplyAll, AllNew, SettledCommand;
    PublicListsAreApart();
    assert AllNew(s.tables, PublicLists[2]) && Distinct(Pairs(PublicLists[2]));
    LastJournalledAheadFails(f, s, P3, budget);
  }
}

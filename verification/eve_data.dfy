/**
 * The static classification data: the "snowflake" table that maps notable
 * alliance and corporation ids to a cohort label, built lazily on first use,
 * and the id-range test that tells NPC corporations apart.
 */
module EveData {
  import opened Wrappers

  /** The closed id range the game reserves for NPC corporations. */
  const NpcCorporationMin: int := 1_000_000
  const NpcCorporationMax: int := 2_000_000

  /** The four cohort labels the table uses. */
  const Labels: set<string> := {"Legacy", "PanFam", "Winter", "Fire"}

  /** Whether `corporationId` belongs to an NPC corporation. */
  predicate IsNpcCorporation(corporationId: int) {
    corporationId >= NpcCorporationMin && corporationId <= NpcCorporationMax
  }

  /** The ids of each cohort, in the order the source puts them. */
  const LegacyList: seq<int> := [99003214, 498125261, 99004116, 99007289, 99009104, 99010428, 99002367, 99008809, 982284363, 99009082, 99010079, 99007439, 99003838, 99008098]
  const PanFamList: seq<int> := [1727758877, 99005338, 386292982, 1042504553, 99000163, 99003006, 99009289, 99002003, 99007722, 99006411, 99003557]
  const WinterList: seq<int> := [99003581, 99009310, 99007498, 99008278, 99005393, 99006343, 99009275, 99001954, 99009764, 99009977]
  const FireList: seq<int> := [1411711376, 741557221, 99008469, 99009168, 99001648, 99002685, 99002392]

  /** The ids listed in `list`. */
  function Ids(list: seq<int>): (r: set<int>)
    ensures forall id :: id in r <==> id in list
  {
    set id | id in list
  }

  /** The put operations for one cohort: each id of `ids`, in order, with label `cohort`. */
  function CohortEntries(ids: seq<int>, cohort: string): (r: seq<(int, string)>)
    ensures |r| == |ids| && forall i :: 0 <= i < |ids| ==> r[i] == (ids[i], cohort)
  {
    seq(|ids|, i requires 0 <= i < |ids| => (ids[i], cohort))
  }

  /** The 42 put operations of the population, in order. */
  const SnowflakeEntries: seq<(int, string)> :=
    CohortEntries(LegacyList, "Legacy") + CohortEntries(PanFamList, "PanFam")
      + CohortEntries(WinterList, "Winter") + CohortEntries(FireList, "Fire")

  /** `table` after putting each entry in turn; a later put of the same key overrides an earlier one. */
  function Put(table: map<int, string>, entries: seq<(int, string)>): map<int, string>
    decreases |entries|
  {
    if entries == [] then table else Put(table[entries[0].0 := entries[0].1], entries[1..])
  }

  /** The table as it stands once populated. */
  function SnowflakeTable(): map<int, string> {
    Put(map[], SnowflakeEntries)
  }

  /** Every id of `ids` mapped to `cohort`. */
  function CohortTable(ids: set<int>, cohort: string): (r: map<int, string>)
    ensures r.Keys == ids
    ensures forall id :: id in r ==> r[id] == cohort
  {
    map id | id in ids :: cohort
  }

  /** Putting two runs of entries is putting the first, then the second. */
  lemma {:induction false} PutAppend(table: map<int, string>, first: seq<(int, string)>, second: seq<(int, string)>)
    ensures Put(table, first + second) == Put(Put(table, first), second)
    decreases |first|
  {
    if first != [] {
      assert (first + second)[0] == first[0] && (first + second)[1..] == first[1..] + second;
      PutAppend(table[first[0].0 := first[0].1], first[1..], second);
    } else {
      assert first + second == second;
    }
  }

  /** Putting one cohort merges its ids, all with the cohort's label, into the table. */
  lemma {:induction false} PutCohortEntries(table: map<int, string>, ids: seq<int>, cohort: string)
    ensures Put(table, CohortEntries(ids, cohort)) == table + CohortTable(Ids(ids), cohort)
    decreases |ids|
  {
    if ids != [] {
      var entries := CohortEntries(ids, cohort);
      assert entries[1..] == CohortEntries(ids[1..], cohort);
      var next := table[ids[0] := cohort];
      PutCohortEntries(next, ids[1..], cohort);
      var merged := table + CohortTable(Ids(ids), cohort);
      var stepped := next + CohortTable(Ids(ids[1..]), cohort);
      assert stepped.Keys == merged.Keys by {
        assert forall id :: id in ids <==> id == ids[0] || id in ids[1..];
      }
      forall id | id in stepped
        ensures stepped[id] == merged[id]
      {
      }
    }
  }

  /** Merging into the empty table gives the merged table. */
  lemma MergeIntoEmpty(table: map<int, string>)
    ensures map[] + table == table
  {
    var merged := map[] + table;
    assert merged.Keys == table.Keys;
  }

  /** The populated table is the four cohorts merged in order. */
  lemma SnowflakeTableByCohort()
    ensures SnowflakeTable() == CohortTable(Ids(LegacyList), "Legacy") + CohortTable(Ids(PanFamList), "PanFam")
                                + CohortTable(Ids(WinterList), "Winter") + CohortTable(Ids(FireList), "Fire")
  {
    var legacy, panFam := CohortEntries(LegacyList, "Legacy"), CohortEntries(PanFamList, "PanFam");
    var winter, fire := CohortEntries(WinterList, "Winter"), CohortEntries(FireList, "Fire");
    PutAppend(map[], legacy + panFam + winter, fire);
    PutAppend(map[], legacy + panFam, winter);
    PutAppend(map[], legacy, panFam);
    PutCohortEntries(map[], LegacyList, "Legacy");
    MergeIntoEmpty(CohortTable(Ids(LegacyList), "Legacy"));
    PutCohortEntries(Put(map[], legacy), PanFamList, "PanFam");
    PutCohortEntries(Put(map[], legacy + panFam), WinterList, "Winter");
    PutCohortEntries(Put(map[], legacy + panFam + winter), FireList, "Fire");
  }

  /** The ids of each cohort, as sets. */
  const LegacyIds: set<int> := Ids(LegacyList)
  const PanFamIds: set<int> := Ids(PanFamList)
  const WinterIds: set<int> := Ids(WinterList)
  const FireIds: set<int> := Ids(FireList)

  /** The table's keys are exactly the four cohorts. */
  lemma SnowflakeKeysAreCohorts()
    ensures SnowflakeTable().Keys == LegacyIds + PanFamIds + WinterIds + FireIds
  {
    SnowflakeTableByCohort();
  }

  lemma LegacyPanFamDisjoint() ensures LegacyIds !! PanFamIds {}
  lemma LegacyWinterDisjoint() ensures LegacyIds !! WinterIds {}
  lemma LegacyFireDisjoint() ensures LegacyIds !! FireIds {}
  lemma PanFamWinterDisjoint() ensures PanFamIds !! WinterIds {}
  lemma PanFamFireDisjoint() ensures PanFamIds !! FireIds {}
  lemma WinterFireDisjoint() ensures WinterIds !! FireIds {}

  /** No id belongs to two cohorts, so no put overrides another. */
  lemma CohortsAreDisjoint()
    ensures LegacyIds !! PanFamIds && LegacyIds !! WinterIds && LegacyIds !! FireIds
    ensures PanFamIds !! WinterIds && PanFamIds !! FireIds && WinterIds !! FireIds
  {
    LegacyPanFamDisjoint();
    LegacyWinterDisjoint();
    LegacyFireDisjoint();
    PanFamWinterDisjoint();
    PanFamFireDisjoint();
    WinterFireDisjoint();
  }

  /** Whether no id occurs twice in `list`. */
  predicate Distinct(list: seq<int>) {
    forall i, j :: 0 <= i < j < |list| ==> list[i] != list[j]
  }

  /** A list without repeats lists as many ids as it has elements. */
  lemma {:induction false} DistinctIdsSize(list: seq<int>)
    requires Distinct(list)
    ensures |Ids(list)| == |list|
    decreases |list|
  {
    if list != [] {
      var last := list[|list| - 1];
      var init := list[..|list| - 1];
      DistinctIdsSize(init);
      assert Ids(list) == Ids(init) + {last};
      assert last !in Ids(init);
    }
  }

  lemma LegacySize() ensures |LegacyIds| == 14 { assert Distinct(LegacyList); DistinctIdsSize(LegacyList); }
  lemma PanFamSize() ensures |PanFamIds| == 11 { assert Distinct(PanFamList); DistinctIdsSize(PanFamList); }
  lemma WinterSize() ensures |WinterIds| == 10 { assert Distinct(WinterList); DistinctIdsSize(WinterList); }
  lemma FireSize() ensures |FireIds| == 7 { assert Distinct(FireList); DistinctIdsSize(FireList); }

  lemma DisjointUnionSize(a: set<int>, b: set<int>)
    requires a !! b
    ensures |a + b| == |a| + |b|
  {
    assert a * b == {};
  }

  /** The populated table has 42 distinct keys: 14 Legacy, 11 PanFam, 10 Winter and 7 Fire. */
  lemma SnowflakeTableSize()
    ensures |SnowflakeTable()| == 42
  {
    SnowflakeKeysAreCohorts();
    CohortsAreDisjoint();
    LegacySize();
    PanFamSize();
    WinterSize();
    FireSize();
    DisjointUnionSize(LegacyIds, PanFamIds);
    DisjointUnionSize(LegacyIds + PanFamIds, WinterIds);
    DisjointUnionSize(LegacyIds + PanFamIds + WinterIds, FireIds);
  }

  /** Every value in the table is one of the four labels. */
  lemma SnowflakeValuesAreLabels()
    ensures forall id :: id in SnowflakeTable() ==> SnowflakeTable()[id] in Labels
  {
    SnowflakeTableByCohort();
  }

  /** The keys labelled "Legacy" are exactly the Legacy cohort. */
  lemma LegacyLabels()
    ensures forall id :: id in SnowflakeTable() && SnowflakeTable()[id] == "Legacy" <==> id in LegacyIds
  {
    SnowflakeTableByCohort();
    CohortsAreDisjoint();
  }

  /** The keys labelled "PanFam" are exactly the PanFam cohort. */
  lemma PanFamLabels()
    ensures forall id :: id in SnowflakeTable() && SnowflakeTable()[id] == "PanFam" <==> id in PanFamIds
  {
    SnowflakeTableByCohort();
    CohortsAreDisjoint();
  }

  /** The keys labelled "Winter" are exactly the Winter cohort. */
  lemma WinterLabels()
    ensures forall id :: id in SnowflakeTable() && SnowflakeTable()[id] == "Winter" <==> id in WinterIds
  {
    SnowflakeTableByCohort();
    CohortsAreDisjoint();
  }

  /** The keys labelled "Fire" are exactly the Fire cohort. */
  lemma FireLabels()
    ensures forall id :: id in SnowflakeTable() && SnowflakeTable()[id] == "Fire" <==> id in FireIds
  {
    SnowflakeTableByCohort();
  }

  /** One id of each cohort, looked up. */
  lemma SnowflakeSamples()
    ensures 99003214 in SnowflakeTable() && SnowflakeTable()[99003214] == "Legacy"
    ensures 99005338 in SnowflakeTable() && SnowflakeTable()[99005338] == "PanFam"
    ensures 99003581 in SnowflakeTable() && SnowflakeTable()[99003581] == "Winter"
    ensures 741557221 in SnowflakeTable() && SnowflakeTable()[741557221] == "Fire"
  {
    assert LegacyList[0] == 99003214 && PanFamList[1] == 99005338;
    assert WinterList[0] == 99003581 && FireList[1] == 741557221;
    LegacyLabels();
    PanFamLabels();
    WinterLabels();
    FireLabels();
  }

  lemma LegacyAboveNpc() ensures forall id :: id in LegacyIds ==> id > NpcCorporationMax {}
  lemma PanFamAboveNpc() ensures forall id :: id in PanFamIds ==> id > NpcCorporationMax {}
  lemma WinterAboveNpc() ensures forall id :: id in WinterIds ==> id > NpcCorporationMax {}
  lemma FireAboveNpc() ensures forall id :: id in FireIds ==> id > NpcCorporationMax {}

  /** Every cohort id lies above the NPC range. */
  lemma CohortIdsAboveNpc()
    ensures forall id :: id in LegacyIds + PanFamIds + WinterIds + FireIds ==> id > NpcCorporationMax
  {
    LegacyAboveNpc();
    PanFamAboveNpc();
    WinterAboveNpc();
    FireAboveNpc();
  }

  /**
   * No key lies in the NPC range, so a corporation the table flags is never the
   * one the history builder drops as NPC; in particular 0 and negative ids are absent.
   */
  lemma NoSnowflakeIsNpc()
    ensures forall id :: id in SnowflakeTable() ==> !IsNpcCorporation(id) && id > NpcCorporationMax
  {
    SnowflakeKeysAreCohorts();
    CohortIdsAboveNpc();
  }

  /** A table holding `before` overridden by `cohort` on `ids`, and nothing else, is their merge. */
  lemma MergedByPuts(before: map<int, string>, after: map<int, string>, ids: set<int>, cohort: string)
    requires after.Keys == before.Keys + ids
    requires forall id :: id in after ==> after[id] == if id in ids then cohort else before[id]
    ensures after == before + CohortTable(ids, cohort)
  {
    var merged := before + CohortTable(ids, cohort);
    assert after.Keys == merged.Keys;
    forall id | id in after
      ensures after[id] == merged[id]
    {
    }
  }

  /**
   * The static state of the classification data: the table reference, null
   * until the first call to `GetSnowflakes`.
   */
  class Registry {
    var snowflakes: Option<map<int, string>>

    /** The state at class load: no table yet. */
    constructor ()
      ensures snowflakes == None
    {
      snowflakes := None;
    }

    /** Once built, the table is the populated one. */
    ghost predicate Valid()
      reads this
    {
      snowflakes.Some? ==> snowflakes.value == SnowflakeTable()
    }

    /**
     * Returns the table, creating and populating it on the first call only; a
     * later call hands back the stored table without repopulating it.
     */
    method GetSnowflakes() returns (table: map<int, string>)
      requires Valid()
      modifies this
      ensures Valid() && snowflakes == Some(table) && table == SnowflakeTable()
      ensures old(snowflakes).Some? ==> snowflakes == old(snowflakes)
    {
      if snowflakes.Some? {
        return snowflakes.value;
      }
      snowflakes := Some(map[]);
      PopulateSnowflakes();
      table := snowflakes.value;
    }

    /**
     * Puts the 42 entries into the freshly created, empty table, cohort by
     * cohort in the order the source lists them.
     */
    method PopulateSnowflakes()
      requires snowflakes == Some(map[])
      modifies this
      ensures snowflakes == Some(SnowflakeTable())
    {
      var m := snowflakes.value;
      m := PutLegacy(m);
      m := PutPanFam(m);
      m := PutWinter(m);
      m := PutFire(m);
      var legacy, panFam := CohortEntries(LegacyList, "Legacy"), CohortEntries(PanFamList, "PanFam");
      var winter, fire := CohortEntries(WinterList, "Winter"), CohortEntries(FireList, "Fire");
      PutAppend(map[], legacy, panFam);
      PutAppend(map[], legacy + panFam, winter);
      PutAppend(map[], legacy + panFam + winter, fire);
      snowflakes := Some(m);
    }

    /** The Legacy puts. */
    static method PutLegacy(table: map<int, string>) returns (m: map<int, string>)
      ensures m == Put(table, CohortEntries(LegacyList, "Legacy"))
    {
      m := table;
      m := m[99003214 := "Legacy"];
      m := m[498125261 := "Legacy"];
      m := m[99004116 := "Legacy"];
      m := m[99007289 := "Legacy"];
      m := m[99009104 := "Legacy"];
      m := m[99010428 := "Legacy"];
      m := m[99002367 := "Legacy"];
      m := m[99008809 := "Legacy"];
      m := m[982284363 := "Legacy"];
      m := m[99009082 := "Legacy"];
      m := m[99010079 := "Legacy"];
      m := m[99007439 := "Legacy"];
      m := m[99003838 := "Legacy"];
      m := m[99008098 := "Legacy"];
      assert m.Keys == table.Keys + LegacyIds;
      assert forall id :: id in m ==> m[id] == if id in LegacyIds then "Legacy" else table[id];
      MergedByPuts(table, m, LegacyIds, "Legacy");
      PutCohortEntries(table, LegacyList, "Legacy");
    }

    /** The PanFam puts. */
    static method PutPanFam(table: map<int, string>) returns (m: map<int, string>)
      ensures m == Put(table, CohortEntries(PanFamList, "PanFam"))
    {
      m := table;
      m := m[1727758877 := "PanFam"];
      m := m[99005338 := "PanFam"];
      m := m[386292982 := "PanFam"];
      m := m[1042504553 := "PanFam"];
      m := m[99000163 := "PanFam"];
      m := m[99003006 := "PanFam"];
      m := m[99009289 := "PanFam"];
      m := m[99002003 := "PanFam"];
      m := m[99007722 := "PanFam"];
      m := m[99006411 := "PanFam"];
      m := m[99003557 := "PanFam"];
      assert m.Keys == table.Keys + PanFamIds;
      assert forall id :: id in m ==> m[id] == if id in PanFamIds then "PanFam" else table[id];
      MergedByPuts(table, m, PanFamIds, "PanFam");
      PutCohortEntries(table, PanFamList, "PanFam");
    }

    /** The Winter puts. */
    static method PutWinter(table: map<int, string>) returns (m: map<int, string>)
      ensures m == Put(table, CohortEntries(WinterList, "Winter"))
    {
      m := table;
      m := m[99003581 := "Winter"];
      m := m[99009310 := "Winter"];
      m := m[99007498 := "Winter"];
      m := m[99008278 := "Winter"];
      m := m[99005393 := "Winter"];
      m := m[99006343 := "Winter"];
      m := m[99009275 := "Winter"];
      m := m[99001954 := "Winter"];
      m := m[99009764 := "Winter"];
      m := m[99009977 := "Winter"];
      assert m.Keys == table.Keys + WinterIds;
      assert forall id :: id in m ==> m[id] == if id in WinterIds then "Winter" else table[id];
      MergedByPuts(table, m, WinterIds, "Winter");
      PutCohortEntries(table, WinterList, "Winter");
    }

    /** The Fire puts. */
    static method PutFire(table: map<int, string>) returns (m: map<int, string>)
      ensures m == Put(table, CohortEntries(FireList, "Fire"))
    {
      m := table;
      m := m[1411711376 := "Fire"];
      m := m[741557221 := "Fire"];
      m := m[99008469 := "Fire"];
      m := m[99009168 := "Fire"];
      m := m[99001648 := "Fire"];
      m := m[99002685 := "Fire"];
      m := m[99002392 := "Fire"];
      assert m.Keys == table.Keys + FireIds;
      assert forall id :: id in m ==> m[id] == if id in FireIds then "Fire" else table[id];
      MergedByPuts(table, m, FireIds, "Fire");
      PutCohortEntries(table, FireList, "Fire");
    }
  }
}

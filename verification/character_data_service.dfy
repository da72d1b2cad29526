/**
 * The affiliation-history builder: from a character's corporation history feed
 * and each corporation's alliance history feed, build the character's result
 * tree. NPC corporations and "no alliance" records (alliance id 0) are skipped;
 * each kept record ends where the previously kept record of its feed started,
 * the first one "now"; corporations and alliances whose id is in the snowflake
 * table are flagged. Any failed lookup aborts the whole build.
 *
 * `Corporations`, `Alliances` and `CharacterData` say what the build yields.
 * `GetCharacterData` is the source's method, proved to yield exactly that; its
 * two nested loops are `BuildCorporations` and `BuildAlliances`, and one pass
 * of each is `AppendCorporation`/`NewCorporation` and `NewAlliance`.
 */
module CharacterDataService {
  import opened Wrappers
  import opened Gateway
  import opened EveData
  import opened User
  import ComparisonService

  /** End date of a period: the start of the previously kept record, "now" when there is none. */
  function CorporationEnd(previous: Option<CorporationHistory>): string {
    if previous.Some? then previous.value.startDate else ComparisonService.Now
  }

  function AllianceEnd(previous: Option<AllianceHistory>): string {
    if previous.Some? then previous.value.startDate else ComparisonService.Now
  }

  /**
   * The alliance period record `h` yields with end date `end`: its name from the
   * alliance lookup, flagged when its id is a key of `snowflakes`.
   */
  function AllianceOf(h: AllianceHistory, end: string, eve: EveService, snowflakes: map<int, string>)
    : Result<AllianceValue, FetchError>
  {
    match eve.allianceDetails(h.allianceId)
    case None => Failure(FetchError(AllianceDetails, h.allianceId))
    case Some(name) => Success(AllianceValue(h.allianceId, name, h.startDate, end, h.allianceId in snowflakes))
  }

  /**
   * The alliance periods an alliance feed yields, in feed order; `previous` is
   * the last record kept before `feed`.
   */
  function Alliances(feed: seq<AllianceHistory>, previous: Option<AllianceHistory>, eve: EveService, snowflakes: map<int, string>)
    : Result<seq<AllianceValue>, FetchError>
    decreases |feed|
  {
    if feed == [] then Success([])
    else
      var h := feed[0];
      if h.allianceId == 0 then Alliances(feed[1..], previous, eve, snowflakes)
      else match AllianceOf(h, AllianceEnd(previous), eve, snowflakes)
        case Failure(e) => Failure(e)
        case Success(alliance) => Prepend([alliance], Alliances(feed[1..], Some(h), eve, snowflakes))
  }

  /**
   * The corporation period record `h` yields with end date `end`: its name from
   * the corporation lookup, the periods of its whole alliance feed, flagged when
   * its id is a key of `snowflakes`. The lookups happen in that order, and the
   * first failure is the result.
   */
  function CorporationOf(h: CorporationHistory, end: string, eve: EveService, snowflakes: map<int, string>)
    : Result<CorporationValue, FetchError>
  {
    match eve.corporationDetails(h.corporationId)
    case None => Failure(FetchError(CorporationDetails, h.corporationId))
    case Some(name) =>
      match eve.allianceHistory(h.corporationId)
      case None => Failure(FetchError(AllianceHistoryFeed, h.corporationId))
      case Some(allianceFeed) =>
        match Alliances(allianceFeed, None, eve, snowflakes)
        case Failure(e) => Failure(e)
        case Success(alliances) =>
          Success(CorporationValue(h.corporationId, name, h.startDate, end, alliances, h.corporationId in snowflakes))
  }

  /**
   * The corporation periods a corporation feed yields, in feed order; `previous`
   * is the last record kept before `feed`.
   */
  function Corporations(feed: seq<CorporationHistory>, previous: Option<CorporationHistory>, eve: EveService, snowflakes: map<int, string>)
    : Result<seq<CorporationValue>, FetchError>
    decreases |feed|
  {
    if feed == [] then Success([])
    else
      var h := feed[0];
      if IsNpcCorporation(h.corporationId) then Corporations(feed[1..], previous, eve, snowflakes)
      else match CorporationOf(h, CorporationEnd(previous), eve, snowflakes)
        case Failure(e) => Failure(e)
        case Success(corporation) => Prepend([corporation], Corporations(feed[1..], Some(h), eve, snowflakes))
  }

  /** What `getCharacterData` yields for `characterId`. */
  function CharacterData(characterId: int, eve: EveService): Result<CharacterValue, FetchError> {
    match eve.characterDetails(characterId)
    case None => Failure(FetchError(CharacterDetails, characterId))
    case Some(name) =>
      match eve.corporationHistory(characterId)
      case None => Failure(FetchError(CorporationHistoryFeed, characterId))
      case Some(feed) =>
        match Corporations(feed, None, eve, SnowflakeTable())
        case Failure(e) => Failure(e)
        case Success(corporations) => Success(CharacterValue(characterId, name, corporations))
  }

  /** The records of a corporation feed that are not NPC corporations, in feed order. */
  function KeptCorporations(feed: seq<CorporationHistory>): (r: seq<CorporationHistory>)
    ensures forall h :: h in r ==> h in feed && !IsNpcCorporation(h.corporationId)
    ensures forall h :: h in feed && !IsNpcCorporation(h.corporationId) ==> h in r
  {
    if feed == [] then []
    else if IsNpcCorporation(feed[0].corporationId) then KeptCorporations(feed[1..])
    else [feed[0]] + KeptCorporations(feed[1..])
  }

  /** The records of an alliance feed that name an alliance (id not 0), in feed order. */
  function KeptAlliances(feed: seq<AllianceHistory>): (r: seq<AllianceHistory>)
    ensures forall h :: h in r ==> h in feed && h.allianceId != 0
    ensures forall h :: h in feed && h.allianceId != 0 ==> h in r
  {
    if feed == [] then []
    else if feed[0].allianceId == 0 then KeptAlliances(feed[1..])
    else [feed[0]] + KeptAlliances(feed[1..])
  }

  /**
   * Filtering keeps order and multiplicity: the kept records of a feed split
   * in two are the kept records of the first part, then those of the second.
   */
  lemma {:induction false} KeptCorporationsOfConcat(first: seq<CorporationHistory>, second: seq<CorporationHistory>)
    ensures KeptCorporations(first + second) == KeptCorporations(first) + KeptCorporations(second)
    decreases |first|
  {
    if first == [] {
      assert first + second == second;
    } else {
      assert (first + second)[0] == first[0] && (first + second)[1..] == first[1..] + second;
      KeptCorporationsOfConcat(first[1..], second);
    }
  }

  lemma {:induction false} KeptAlliancesOfConcat(first: seq<AllianceHistory>, second: seq<AllianceHistory>)
    ensures KeptAlliances(first + second) == KeptAlliances(first) + KeptAlliances(second)
    decreases |first|
  {
    if first == [] {
      assert first + second == second;
    } else {
      assert (first + second)[0] == first[0] && (first + second)[1..] == first[1..] + second;
      KeptAlliancesOfConcat(first[1..], second);
    }
  }

  /** The end date the cursor gives the `i`-th kept record. */
  function CorporationEndAt(kept: seq<CorporationHistory>, i: nat, previous: Option<CorporationHistory>): string
    requires i < |kept|
  {
    if i == 0 then CorporationEnd(previous) else kept[i - 1].startDate
  }

  function AllianceEndAt(kept: seq<AllianceHistory>, i: nat, previous: Option<AllianceHistory>): string
    requires i < |kept|
  {
    if i == 0 then AllianceEnd(previous) else kept[i - 1].startDate
  }

  /** An alliance period built from record `h` with end date `end`. */
  predicate AllianceFrom(a: AllianceValue, h: AllianceHistory, end: string, eve: EveService, snowflakes: map<int, string>) {
    && a.id == h.allianceId
    && eve.allianceDetails(h.allianceId) == Some(a.name)
    && a.startDate == h.startDate
    && a.endDate == end
    && (a.isSpecial <==> a.id in snowflakes)
  }

  /**
   * A corporation period built from record `h` with end date `end`: its
   * alliances are everything the corporation's whole alliance feed yields.
   */
  predicate CorporationFrom(c: CorporationValue, h: CorporationHistory, end: string, eve: EveService, snowflakes: map<int, string>) {
    && c.id == h.corporationId
    && eve.corporationDetails(h.corporationId) == Some(c.name)
    && c.playerStartDate == h.startDate
    && c.playerEndDate == end
    && (c.isSpecial <==> c.id in snowflakes)
    && eve.allianceHistory(h.corporationId).Some?
    && Alliances(eve.allianceHistory(h.corporationId).value, None, eve, snowflakes) == Success(c.alliances)
  }

  /** Each alliance period of `values` is built from the kept record at its index, ending where the cursor says. */
  predicate AlliancesFromKept(values: seq<AllianceValue>, kept: seq<AllianceHistory>, previous: Option<AllianceHistory>,
                              eve: EveService, snowflakes: map<int, string>) {
    |values| == |kept| &&
    forall i {:trigger values[i]} :: 0 <= i < |kept| ==> AllianceFrom(values[i], kept[i], AllianceEndAt(kept, i, previous), eve, snowflakes)
  }

  /** Each corporation period of `values` is built from the kept record at its index, ending where the cursor says. */
  predicate CorporationsFromKept(values: seq<CorporationValue>, kept: seq<CorporationHistory>, previous: Option<CorporationHistory>,
                                 eve: EveService, snowflakes: map<int, string>) {
    |values| == |kept| &&
    forall i {:trigger values[i]} :: 0 <= i < |kept| ==> CorporationFrom(values[i], kept[i], CorporationEndAt(kept, i, previous), eve, snowflakes)
  }

  /** A period built from `h` followed by periods for the records after it, whose cursor starts at `h`. */
  lemma AlliancesFromKeptCons(a: AllianceValue, rest: seq<AllianceValue>, h: AllianceHistory, restKept: seq<AllianceHistory>,
                              previous: Option<AllianceHistory>, eve: EveService, snowflakes: map<int, string>)
    requires AllianceFrom(a, h, AllianceEnd(previous), eve, snowflakes)
    requires AlliancesFromKept(rest, restKept, Some(h), eve, snowflakes)
    ensures AlliancesFromKept([a] + rest, [h] + restKept, previous, eve, snowflakes)
  {
    var values, kept := [a] + rest, [h] + restKept;
    forall i | 0 <= i < |kept|
      ensures AllianceFrom(values[i], kept[i], AllianceEndAt(kept, i, previous), eve, snowflakes)
    {
      if i > 0 {
        assert values[i] == rest[i - 1] && kept[i] == restKept[i - 1];
        assert AllianceEndAt(kept, i, previous) == AllianceEndAt(restKept, i - 1, Some(h));
      }
    }
  }

  lemma CorporationsFromKeptCons(c: CorporationValue, rest: seq<CorporationValue>, h: CorporationHistory, restKept: seq<CorporationHistory>,
                                 previous: Option<CorporationHistory>, eve: EveService, snowflakes: map<int, string>)
    requires CorporationFrom(c, h, CorporationEnd(previous), eve, snowflakes)
    requires CorporationsFromKept(rest, restKept, Some(h), eve, snowflakes)
    ensures CorporationsFromKept([c] + rest, [h] + restKept, previous, eve, snowflakes)
  {
    var values, kept := [c] + rest, [h] + restKept;
    forall i | 0 <= i < |kept|
      ensures CorporationFrom(values[i], kept[i], CorporationEndAt(kept, i, previous), eve, snowflakes)
    {
      if i > 0 {
        assert values[i] == rest[i - 1] && kept[i] == restKept[i - 1];
        assert CorporationEndAt(kept, i, previous) == CorporationEndAt(restKept, i - 1, Some(h));
      }
    }
  }

  /**
   * On success, one alliance period per kept record, in feed order: id, name,
   * start date and flag from that record, end date from the cursor (the previous
   * kept record's start, or "now"); skipped records do not move the cursor.
   */
  lemma {:induction false} AlliancesFollowFeed(feed: seq<AllianceHistory>, previous: Option<AllianceHistory>,
                                               eve: EveService, snowflakes: map<int, string>)
    ensures var r := Alliances(feed, previous, eve, snowflakes);
            r.Success? ==> AlliancesFromKept(r.value, KeptAlliances(feed), previous, eve, snowflakes)
    decreases |feed|
  {
    if feed != [] {
      var h := feed[0];
      if h.allianceId == 0 {
        AlliancesFollowFeed(feed[1..], previous, eve, snowflakes);
      } else {
        AlliancesFollowFeed(feed[1..], Some(h), eve, snowflakes);
        var r := Alliances(feed, previous, eve, snowflakes);
        if r.Success? {
          var rest := Alliances(feed[1..], Some(h), eve, snowflakes);
          AlliancesFromKeptCons(r.value[0], rest.value, h, KeptAlliances(feed[1..]), previous, eve, snowflakes);
          assert r.value == [r.value[0]] + rest.value;
        }
      }
    }
  }

  /**
   * On success, one corporation period per non-NPC record, in feed order: id,
   * name, start date and flag from that record, end date from the cursor, and
   * the corporation's whole alliance feed as its alliances.
   */
  lemma {:induction false} CorporationsFollowFeed(feed: seq<CorporationHistory>, previous: Option<CorporationHistory>,
                                                  eve: EveService, snowflakes: map<int, string>)
    ensures var r := Corporations(feed, previous, eve, snowflakes);
            r.Success? ==> CorporationsFromKept(r.value, KeptCorporations(feed), previous, eve, snowflakes)
    decreases |feed|
  {
    if feed != [] {
      var h := feed[0];
      if IsNpcCorporation(h.corporationId) {
        CorporationsFollowFeed(feed[1..], previous, eve, snowflakes);
      } else {
        CorporationsFollowFeed(feed[1..], Some(h), eve, snowflakes);
        var r := Corporations(feed, previous, eve, snowflakes);
        if r.Success? {
          var rest := Corporations(feed[1..], Some(h), eve, snowflakes);
          CorporationsFromKeptCons(r.value[0], rest.value, h, KeptCorporations(feed[1..]), previous, eve, snowflakes);
          assert r.value == [r.value[0]] + rest.value;
        }
      }
    }
  }

  /** No NPC corporation is ever in the result. */
  lemma NoNpcCorporation(feed: seq<CorporationHistory>, previous: Option<CorporationHistory>, eve: EveService, snowflakes: map<int, string>)
    ensures var r := Corporations(feed, previous, eve, snowflakes);
            r.Success? ==> forall i :: 0 <= i < |r.value| ==> !IsNpcCorporation(r.value[i].id)
  {
    CorporationsFollowFeed(feed, previous, eve, snowflakes);
    var r := Corporations(feed, previous, eve, snowflakes);
    var kept := KeptCorporations(feed);
    if r.Success? {
      forall i | 0 <= i < |r.value| ensures !IsNpcCorporation(r.value[i].id) {
        assert kept[i] in kept;
      }
    }
  }

  /** No alliance period has alliance id 0. */
  lemma NoAllianceZero(feed: seq<AllianceHistory>, previous: Option<AllianceHistory>, eve: EveService, snowflakes: map<int, string>)
    ensures var r := Alliances(feed, previous, eve, snowflakes);
            r.Success? ==> forall i :: 0 <= i < |r.value| ==> r.value[i].id != 0
  {
    AlliancesFollowFeed(feed, previous, eve, snowflakes);
    var r := Alliances(feed, previous, eve, snowflakes);
    var kept := KeptAlliances(feed);
    if r.Success? {
      forall i | 0 <= i < |r.value| ensures r.value[i].id != 0 {
        assert kept[i] in kept;
      }
    }
  }

  /** Every alliance detail lookup an alliance feed asks for succeeds. */
  predicate AllianceLookupsSucceed(feed: seq<AllianceHistory>, eve: EveService) {
    forall h :: h in feed && h.allianceId != 0 ==> eve.allianceDetails(h.allianceId).Some?
  }

  /** Every lookup a corporation feed asks for succeeds, its alliance feeds' lookups included. */
  predicate CorporationLookupsSucceed(feed: seq<CorporationHistory>, eve: EveService) {
    forall h :: h in feed && !IsNpcCorporation(h.corporationId) ==>
      && eve.corporationDetails(h.corporationId).Some?
      && eve.allianceHistory(h.corporationId).Some?
      && AllianceLookupsSucceed(eve.allianceHistory(h.corporationId).value, eve)
  }

  /** An alliance feed yields a result exactly when each of its lookups succeeds. */
  lemma {:induction false} AlliancesSucceedIff(feed: seq<AllianceHistory>, previous: Option<AllianceHistory>,
                                               eve: EveService, snowflakes: map<int, string>)
    ensures Alliances(feed, previous, eve, snowflakes).Success? <==> AllianceLookupsSucceed(feed, eve)
    decreases |feed|
  {
    if feed != [] {
      var h := feed[0];
      assert forall g :: g in feed <==> g == h || g in feed[1..];
      if h.allianceId == 0 {
        AlliancesSucceedIff(feed[1..], previous, eve, snowflakes);
      } else {
        AlliancesSucceedIff(feed[1..], Some(h), eve, snowflakes);
      }
    }
  }

  /** A corporation feed yields a result exactly when each of its lookups succeeds. */
  lemma {:induction false} CorporationsSucceedIff(feed: seq<CorporationHistory>, previous: Option<CorporationHistory>,
                                                  eve: EveService, snowflakes: map<int, string>)
    ensures Corporations(feed, previous, eve, snowflakes).Success? <==> CorporationLookupsSucceed(feed, eve)
    decreases |feed|
  {
    if feed != [] {
      var h := feed[0];
      assert forall g :: g in feed <==> g == h || g in feed[1..];
      if IsNpcCorporation(h.corporationId) {
        CorporationsSucceedIff(feed[1..], previous, eve, snowflakes);
      } else {
        CorporationsSucceedIff(feed[1..], Some(h), eve, snowflakes);
        if eve.allianceHistory(h.corporationId).Some? {
          AlliancesSucceedIff(eve.allianceHistory(h.corporationId).value, None, eve, snowflakes);
        }
      }
    }
  }

  /**
   * The build succeeds exactly when every lookup succeeds: the character's
   * details and history, and each kept record's lookups. On success the
   * character carries the requested id, the fetched name and the periods of
   * its feed.
   */
  lemma CharacterDataSucceedsIff(characterId: int, eve: EveService)
    ensures CharacterData(characterId, eve).Success? <==>
            && eve.characterDetails(characterId).Some?
            && eve.corporationHistory(characterId).Some?
            && CorporationLookupsSucceed(eve.corporationHistory(characterId).value, eve)
    ensures CharacterData(characterId, eve).Success? ==>
            var c := CharacterData(characterId, eve).value;
            && c.id == characterId
            && eve.characterDetails(characterId) == Some(c.name)
            && Corporations(eve.corporationHistory(characterId).value, None, eve, SnowflakeTable()) == Success(c.corporations)
  {
    if eve.characterDetails(characterId).Some? && eve.corporationHistory(characterId).Some? {
      CorporationsSucceedIff(eve.corporationHistory(characterId).value, None, eve, SnowflakeTable());
    }
  }

  /** A feed of NPC corporations only yields no corporation at all, whatever the lookups do. */
  lemma {:induction false} OnlyNpcCorporationsYieldNothing(feed: seq<CorporationHistory>, previous: Option<CorporationHistory>,
                                                           eve: EveService, snowflakes: map<int, string>)
    requires forall i :: 0 <= i < |feed| ==> IsNpcCorporation(feed[i].corporationId)
    ensures Corporations(feed, previous, eve, snowflakes) == Success([])
    decreases |feed|
  {
    if feed != [] {
      OnlyNpcCorporationsYieldNothing(feed[1..], previous, eve, snowflakes);
    }
  }

  /**
   * Two player corporations, listed oldest first: the first listed gets "now"
   * and the second ends at the first one's start. The cursor assumes the feed
   * lists the newest record first.
   */
  lemma OldestFirstFeed(eve: EveService, snowflakes: map<int, string>)
    requires eve.corporationDetails(500).Some? && eve.corporationDetails(600).Some?
    requires eve.allianceHistory(500) == Some([]) && eve.allianceHistory(600) == Some([])
    ensures var r := Corporations([CorporationHistory(500, false, 1, "2020-01-01T00:00:00Z"),
                                   CorporationHistory(600, false, 2, "2022-06-01T00:00:00Z")], None, eve, snowflakes);
            && r.Success? && |r.value| == 2
            && r.value[0].id == 500 && r.value[0].playerEndDate == "now"
            && r.value[1].id == 600 && r.value[1].playerEndDate == "2020-01-01T00:00:00Z"
  {
    var feed := [CorporationHistory(500, false, 1, "2020-01-01T00:00:00Z"),
                 CorporationHistory(600, false, 2, "2022-06-01T00:00:00Z")];
    assert feed[1..][1..] == [];
  }

  /** One failing alliance lookup, deep inside the tree, fails the whole build with that lookup's error. */
  lemma FailingAllianceLookupFailsTheBuild(characterId: int, eve: EveService)
    requires eve.characterDetails(characterId).Some?
    requires eve.corporationHistory(characterId) == Some([CorporationHistory(600, false, 1, "2022-06-01T00:00:00Z")])
    requires eve.corporationDetails(600).Some?
    requires eve.allianceHistory(600) == Some([AllianceHistory(700, 1, "2022-07-01T00:00:00Z")])
    requires eve.allianceDetails(700) == None
    ensures CharacterData(characterId, eve) == Failure(FetchError(AllianceDetails, 700))
  {
  }

  /** The records from `i` on, unfolded once: the record at `i`, then those after it. */
  lemma DropOne<T>(feed: seq<T>, i: nat)
    requires i < |feed|
    ensures feed[i..][0] == feed[i] && feed[i..][1..] == feed[i + 1..]
  {
  }

  /**
   * One kept alliance record of `getCharacterData`'s inner loop: the alliance
   * lookup, the new object, and its flag when the snowflake registry holds its id.
   */
  method NewAlliance(h: AllianceHistory, endDate: string, eve: EveService, eveData: Registry)
    returns (r: Result<Alliance, FetchError>)
    requires eveData.Valid()
    modifies eveData
    ensures eveData.Valid()
    ensures r.Success? <==> AllianceOf(h, endDate, eve, SnowflakeTable()).Success?
    ensures r.Success? ==> fresh(r.value) && r.value.Model() == AllianceOf(h, endDate, eve, SnowflakeTable()).value
    ensures r.Failure? ==> r.error == AllianceOf(h, endDate, eve, SnowflakeTable()).error
  {
    var startDate := h.startDate;
    var details := eve.allianceDetails(h.allianceId);
    if details.None? {
      return Failure(FetchError(AllianceDetails, h.allianceId));
    }
    var alliance := new Alliance(h.allianceId, details.value, startDate, endDate);
    var snowflakes := eveData.GetSnowflakes();
    if alliance.id in snowflakes {
      alliance.SetSpecial(true);
    }
    return Success(alliance);
  }

  /**
   * `getCharacterData`'s inner loop: the alliances of one corporation's alliance
   * feed, as new objects, flagged through the snowflake registry.
   */
  method BuildAlliances(feed: seq<AllianceHistory>, eve: EveService, eveData: Registry)
    returns (r: Result<seq<Alliance>, FetchError>)
    requires eveData.Valid()
    modifies eveData
    ensures eveData.Valid()
    ensures r.Success? <==> Alliances(feed, None, eve, SnowflakeTable()).Success?
    ensures r.Success? ==> (forall a :: a in r.value ==> fresh(a)) && AllianceModels(r.value) == Alliances(feed, None, eve, SnowflakeTable()).value
    ensures r.Failure? ==> r.error == Alliances(feed, None, eve, SnowflakeTable()).error
  {
    ghost var spec := Alliances(feed, None, eve, SnowflakeTable());
    var alliances: seq<Alliance> := [];
    var previous: Option<AllianceHistory> := None;
    for i := 0 to |feed|
      invariant eveData.Valid()
      invariant forall a :: a in alliances ==> fresh(a)
      invariant spec == Prepend(AllianceModels(alliances), Alliances(feed[i..], previous, eve, SnowflakeTable()))
    {
      var h := feed[i];
      DropOne(feed, i);
      if h.allianceId == 0 {
        continue;
      }
      var endDate := if previous.Some? then previous.value.startDate else ComparisonService.Now;
      var alliance := NewAlliance(h, endDate, eve, eveData);
      if alliance.Failure? {
        return Failure(alliance.error);
      }
      ghost var before := AllianceModels(alliances);
      alliances := alliances + [alliance.value];
      previous := Some(h);
      assert AllianceModels(alliances) == before + [alliance.value.Model()];
      PrependTwice(before, [alliance.value.Model()], Alliances(feed[i + 1..], previous, eve, SnowflakeTable()));
    }
    assert feed[|feed|..] == [];
    assert AllianceModels(alliances) + [] == AllianceModels(alliances);
    return Success(alliances);
  }

  /**
   * One kept corporation record of `getCharacterData`'s outer loop: the
   * corporation lookup, the alliance feed and its alliances, the new object, and
   * its flag when the snowflake registry holds its id.
   */
  method NewCorporation(h: CorporationHistory, endDate: string, eve: EveService, eveData: Registry)
    returns (r: Result<Corporation, FetchError>)
    requires eveData.Valid()
    modifies eveData
    ensures eveData.Valid()
    ensures r.Success? <==> CorporationOf(h, endDate, eve, SnowflakeTable()).Success?
    ensures r.Success? ==> fresh(r.value) && r.value.Model() == CorporationOf(h, endDate, eve, SnowflakeTable()).value
    ensures r.Failure? ==> r.error == CorporationOf(h, endDate, eve, SnowflakeTable()).error
  {
    var startDate := h.startDate;
    var details := eve.corporationDetails(h.corporationId);
    if details.None? {
      return Failure(FetchError(CorporationDetails, h.corporationId));
    }
    var allianceFeed := eve.allianceHistory(h.corporationId);
    if allianceFeed.None? {
      return Failure(FetchError(AllianceHistoryFeed, h.corporationId));
    }
    var alliances := BuildAlliances(allianceFeed.value, eve, eveData);
    if alliances.Failure? {
      return Failure(alliances.error);
    }
    var corporation := new Corporation(h.corporationId, details.value, startDate, endDate, alliances.value);
    var snowflakes := eveData.GetSnowflakes();
    if corporation.id in snowflakes {
      corporation.SetSpecial(true);
    }
    return Success(corporation);
  }

  /**
   * One pass of `getCharacterData`'s outer loop over a kept record: the new
   * corporation appended to those built so far, which keep their values.
   */
  method AppendCorporation(corporations: seq<Corporation>, h: CorporationHistory, endDate: string, eve: EveService, eveData: Registry)
    returns (r: Result<seq<Corporation>, FetchError>)
    requires eveData.Valid()
    modifies eveData
    ensures eveData.Valid()
    ensures r.Success? <==> CorporationOf(h, endDate, eve, SnowflakeTable()).Success?
    ensures r.Success? ==> CorporationModels(r.value) == old(CorporationModels(corporations)) + [CorporationOf(h, endDate, eve, SnowflakeTable()).value]
    ensures r.Failure? ==> r.error == CorporationOf(h, endDate, eve, SnowflakeTable()).error
  {
    var corporation := NewCorporation(h, endDate, eve, eveData);
    if corporation.Failure? {
      return Failure(corporation.error);
    }
    assert CorporationModels(corporations) == old(CorporationModels(corporations));
    r := Success(corporations + [corporation.value]);
    assert CorporationModels(r.value) == CorporationModels(corporations) + [corporation.value.Model()];
  }

  /**
   * `getCharacterData`'s outer loop: the corporations of a character's
   * corporation feed, as new objects, each with its alliances.
   */
  method BuildCorporations(feed: seq<CorporationHistory>, eve: EveService, eveData: Registry)
    returns (r: Result<seq<Corporation>, FetchError>)
    requires eveData.Valid()
    modifies eveData
    ensures eveData.Valid()
    ensures r.Success? <==> Corporations(feed, None, eve, SnowflakeTable()).Success?
    ensures r.Success? ==> CorporationModels(r.value) == Corporations(feed, None, eve, SnowflakeTable()).value
    ensures r.Failure? ==> r.error == Corporations(feed, None, eve, SnowflakeTable()).error
  {
    ghost var spec := Corporations(feed, None, eve, SnowflakeTable());
    var corporations: seq<Corporation> := [];
    var previous: Option<CorporationHistory> := None;
    for i := 0 to |feed|
      invariant eveData.Valid()
      invariant spec == Prepend(CorporationModels(corporations), Corporations(feed[i..], previous, eve, SnowflakeTable()))
    {
      var h := feed[i];
      DropOne(feed, i);
      if IsNpcCorporation(h.corporationId) {
        continue;
      }
      var endDate := if previous.Some? then previous.value.startDate else ComparisonService.Now;
      ghost var before := CorporationModels(corporations);
      var extended := AppendCorporation(corporations, h, endDate, eve, eveData);
      if extended.Failure? {
        return Failure(extended.error);
      }
      corporations := extended.value;
      previous := Some(h);
      PrependTwice(before, [CorporationOf(h, endDate, eve, SnowflakeTable()).value], Corporations(feed[i + 1..], previous, eve, SnowflakeTable()));
    }
    assert feed[|feed|..] == [];
    assert CorporationModels(corporations) + [] == CorporationModels(corporations);
    return Success(corporations);
  }

  /**
   * `getCharacterData`: fetches the character's details and corporation history
   * and builds its result tree. A failed lookup returns its error and nothing else.
   */
  method GetCharacterData(characterId: int, eve: EveService, eveData: Registry)
    returns (r: Result<Character, FetchError>)
    requires eveData.Valid()
    modifies eveData
    ensures eveData.Valid()
    ensures r.Success? <==> CharacterData(characterId, eve).Success?
    ensures r.Success? ==> fresh(r.value) && r.value.Model() == CharacterData(characterId, eve).value
    ensures r.Failure? ==> r.error == CharacterData(characterId, eve).error
  {
    var character := eve.characterDetails(characterId);
    if character.None? {
      return Failure(FetchError(CharacterDetails, characterId));
    }
    var history := eve.corporationHistory(characterId);
    if history.None? {
      return Failure(FetchError(CorporationHistoryFeed, characterId));
    }
    var corporations := BuildCorporations(history.value, eve, eveData);
    if corporations.Failure? {
      return Failure(corporations.error);
    }
    var result := new Character(characterId, character.value, corporations.value);
    return Success(result);
  }
}

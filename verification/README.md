# smells-like-PAPI-2: the affiliation-history core, in Dafny

smells-like-PAPI-2 is a web tool that reconstructs an EVE Online character's
affiliation history. It reads the character's corporation history and each
corporation's alliance history from the game's remote API. From these it
builds a tree: a `Character` holds `Corporation` membership periods, and each
period holds the `Alliance` periods of that corporation. Along the way it:

- drops NPC corporations (ids 1 000 000 to 2 000 000) and "no alliance"
  records (alliance id 0);
- ends each period where the previously kept record of the same feed started,
  and ends the first kept record "now";
- flags every corporation and alliance whose id is in a fixed "snowflake"
  table.

Around that builder sit an inclusive interval-overlap test over date strings,
a process-wide list of error messages, and a helper that reads a character id
out of a profile URL.

The model has one module per core source file, plus `Wrappers` (result
types), `Gateway` (the feed records and the remote lookups) and `Strings` (the
Java text routines the core calls). It keeps the source's own form:

- The builder `getCharacterData` is an imperative method over heap objects:
  - `CharacterDataService.GetCharacterData` runs `BuildCorporations` and then
    the `Character` constructor;
  - `BuildCorporations` is the outer loop; one pass over a kept record is
    `AppendCorporation`, whose new object is made by `NewCorporation`;
  - `BuildAlliances` is the inner loop, and `NewAlliance` is one pass of it.
  - Each is proved against the value-level functions `CharacterData`,
    `Corporations`, `Alliances`, `CorporationOf` and `AllianceOf`. Those
    functions carry the lemmas about the result: one period per kept record,
    in feed order, with the right end dates and flags, and success exactly
    when every lookup succeeds.
- The three `user` records are classes with setters. Each object's value is
  read off by a `Model()` function. The two list-holding `toString`s are
  proved to yield the comma-separated list text.
- `EveData`'s lazily built static map is a `Registry` object. Its 42 puts are
  proved to give a table of four disjoint cohorts.
- `ErrorNotificationManager`'s static list is a `Manager` object.
- `ComparisonService` and `SearchHelper` are pure functions with lemmas.

The remote API is a value of type `Gateway.EveService`: one total lookup
function per endpoint. `None` stands for any failed request, which the source
reports as an `IOException`.

Three behaviours of the code are worth knowing:

- Any failed lookup, however deep in the tree, aborts the whole build with
  that lookup's error. The builder never records a message in
  `ErrorNotificationManager`, and no branch is skipped and kept going.
  `FailingAllianceLookupFailsTheBuild` states this for a failing alliance 700.
- The end-date cursor gives the first kept record of a feed "now", and each
  later kept record the start date of the kept record before it. So the code
  is right only for feeds that list the newest period first.
  `OldestFirstFeed` shows what an oldest-first feed of corporations 500 and
  600 yields: 500 ends "now" and 600 ends at 500's start.
- A record that is skipped does not move the cursor.

## Model

| member | source | states |
|---|---|---|
| CharacterDataService.GetCharacterData | src/main/java/com/smell/application/structure/CharacterDataService.java:29-69 | returns a new `Character` whose value is `CharacterData` exactly when that succeeds, and otherwise the error of the first failing lookup (details, then history, then the first failing nested lookup); the snowflake registry stays valid |
| CharacterDataService.BuildCorporations | src/main/java/com/smell/application/structure/CharacterDataService.java:32-66 | the outer loop yields corporation objects whose values are exactly `Corporations(feed, None, …)`, or that function's error, the first failure of the walk |
| CharacterDataService.AppendCorporation | src/main/java/com/smell/application/structure/CharacterDataService.java:40-65 | one pass over a kept record: succeeds exactly when `CorporationOf` does; then the objects built so far keep their values and the new corporation's value is appended after them |
| CharacterDataService.NewCorporation | src/main/java/com/smell/application/structure/CharacterDataService.java:40-64 | a new object whose value is `CorporationOf(h, end, …)`: corporation lookup, then alliance feed, then its alliances, and flagged exactly when its id is a snowflake key; on a failed lookup, that lookup's error |
| CharacterDataService.BuildAlliances | src/main/java/com/smell/application/structure/CharacterDataService.java:47-61 | the inner loop yields new alliance objects whose values are exactly `Alliances(feed, None, …)`, or its error |
| CharacterDataService.NewAlliance | src/main/java/com/smell/application/structure/CharacterDataService.java:53-59 | a new object whose value is `AllianceOf(h, end, …)`: id, looked-up name, start date, the given end date, flagged exactly when its id is a snowflake key |
| CharacterDataService.KeptCorporations | src/main/java/com/smell/application/structure/CharacterDataService.java:35-38 | the records kept are exactly the feed's non-NPC records |
| CharacterDataService.KeptAlliances | src/main/java/com/smell/application/structure/CharacterDataService.java:49-51 | the records kept are exactly the feed's records with a non-zero alliance id |
| CharacterDataService.KeptCorporationsOfConcat | src/main/java/com/smell/application/structure/CharacterDataService.java:35-38 | skipping NPC records keeps order and multiplicity: the kept records of a feed split in two are those of the first part followed by those of the second |
| CharacterDataService.KeptAlliancesOfConcat | src/main/java/com/smell/application/structure/CharacterDataService.java:49-51 | skipping alliance-0 records keeps order and multiplicity in the same sense |
| CharacterDataService.CorporationsFollowFeed | src/main/java/com/smell/application/structure/CharacterDataService.java:34-66 | on success, one period per non-NPC record in feed order: id, name, start date and flag from that record, end date from the cursor (the previous kept record's start, or "now"), and the corporation's whole alliance feed as its alliances |
| CharacterDataService.AlliancesFollowFeed | src/main/java/com/smell/application/structure/CharacterDataService.java:48-61 | on success, one alliance period per non-zero record in feed order, with id, name, start date and flag from the record and end date from the cursor |
| CharacterDataService.NoNpcCorporation | src/main/java/com/smell/application/structure/CharacterDataService.java:36-38 | no corporation in a result has an NPC id |
| CharacterDataService.NoAllianceZero | src/main/java/com/smell/application/structure/CharacterDataService.java:50-51 | no alliance in a result has id 0 |
| CharacterDataService.AlliancesSucceedIff | src/main/java/com/smell/application/structure/CharacterDataService.java:49-57 | an alliance feed yields a result if and only if the details lookup succeeds for every non-zero record |
| CharacterDataService.CorporationsSucceedIff | src/main/java/com/smell/application/structure/CharacterDataService.java:35-62 | a corporation feed yields a result if and only if, for every non-NPC record, the details lookup, the alliance-feed lookup and all of its alliance lookups succeed |
| CharacterDataService.CharacterDataSucceedsIff | src/main/java/com/smell/application/structure/CharacterDataService.java:29-68 | the build succeeds if and only if the character details, the history feed and every kept record's lookups succeed; then the character has the requested id, the looked-up name and the periods of its feed |
| CharacterDataService.OnlyNpcCorporationsYieldNothing | src/main/java/com/smell/application/structure/CharacterDataService.java:35-38 | a feed of NPC corporations only yields an empty list, with no lookup made |
| CharacterDataService.OldestFirstFeed | src/main/java/com/smell/application/structure/CharacterDataService.java:41 | records 500 then 600 (oldest first): 500 ends "now", 600 ends at 500's start date |
| CharacterDataService.FailingAllianceLookupFailsTheBuild | src/main/java/com/smell/application/structure/CharacterDataService.java:56 | a failing lookup of alliance 700 inside corporation 600 makes the whole build fail with that lookup's error |
| EveData.Registry.GetSnowflakes | src/main/java/com/smell/application/structure/EveData.java:26-35 | returns the populated table; it creates and populates it on the first call only, and a later call leaves the stored table as it was |
| EveData.Registry.PopulateSnowflakes | src/main/java/com/smell/application/structure/EveData.java:38-84 | the 42 puts, cohort by cohort, turn the fresh empty table into `SnowflakeTable()` |
| EveData.Registry.PutLegacy | src/main/java/com/smell/application/structure/EveData.java:39-52 | the 14 Legacy puts are the Legacy entries put in order |
| EveData.Registry.PutPanFam | src/main/java/com/smell/application/structure/EveData.java:54-64 | the 11 PanFam puts are the PanFam entries put in order |
| EveData.Registry.PutWinter | src/main/java/com/smell/application/structure/EveData.java:66-75 | the 10 Winter puts are the Winter entries put in order |
| EveData.Registry.PutFire | src/main/java/com/smell/application/structure/EveData.java:77-83 | the 7 Fire puts are the Fire entries put in order |
| EveData.Registry.constructor | src/main/java/com/smell/application/structure/EveData.java:17 | the table reference starts null |
| EveData.PutAppend | src/main/java/com/smell/application/structure/EveData.java:38-84 | putting two runs of entries is putting the first run, then the second |
| EveData.PutCohortEntries | src/main/java/com/smell/application/structure/EveData.java:38-84 | putting a cohort's entries merges all its ids, each with the cohort's label, over the table |
| EveData.SnowflakeTableByCohort | src/main/java/com/smell/application/structure/EveData.java:38-84 | the populated table is the Legacy, PanFam, Winter and Fire cohorts merged in that order |
| EveData.SnowflakeKeysAreCohorts | src/main/java/com/smell/application/structure/EveData.java:38-84 | the table's keys are exactly the ids of the four cohorts |
| EveData.CohortsAreDisjoint | src/main/java/com/smell/application/structure/EveData.java:38-84 | no id is put in two cohorts, so no put overrides an earlier one |
| EveData.LegacySize | src/main/java/com/smell/application/structure/EveData.java:39-52 | the Legacy puts name 14 distinct ids |
| EveData.PanFamSize | src/main/java/com/smell/application/structure/EveData.java:54-64 | the PanFam puts name 11 distinct ids |
| EveData.WinterSize | src/main/java/com/smell/application/structure/EveData.java:66-75 | the Winter puts name 10 distinct ids |
| EveData.FireSize | src/main/java/com/smell/application/structure/EveData.java:77-83 | the Fire puts name 7 distinct ids |
| EveData.SnowflakeTableSize | src/main/java/com/smell/application/structure/EveData.java:38-84 | the populated table has 42 keys |
| EveData.SnowflakeValuesAreLabels | src/main/java/com/smell/application/structure/EveData.java:38-84 | every value is one of "Legacy", "PanFam", "Winter" and "Fire" |
| EveData.LegacyLabels | src/main/java/com/smell/application/structure/EveData.java:39-52 | an id maps to "Legacy" if and only if it is one of the Legacy puts |
| EveData.PanFamLabels | src/main/java/com/smell/application/structure/EveData.java:54-64 | an id maps to "PanFam" if and only if it is one of the PanFam puts |
| EveData.WinterLabels | src/main/java/com/smell/application/structure/EveData.java:66-75 | an id maps to "Winter" if and only if it is one of the Winter puts |
| EveData.FireLabels | src/main/java/com/smell/application/structure/EveData.java:77-83 | an id maps to "Fire" if and only if it is one of the Fire puts |
| EveData.SnowflakeSamples | src/main/java/com/smell/application/structure/EveData.java:39-78 | 99003214 maps to "Legacy", 99005338 to "PanFam", 99003581 to "Winter" and 741557221 to "Fire" |
| EveData.NoSnowflakeIsNpc | src/main/java/com/smell/application/structure/EveData.java:38-96 | every key lies above the NPC range, so no flagged corporation is one the builder drops as NPC |
| ComparisonService.IsTimeWithinRange | src/main/java/com/smell/application/structure/ComparisonService.java:19-28 | there is an answer if and only if all four bounds parse |
| ComparisonService.OverlapsIffCommonInstant | src/main/java/com/smell/application/structure/ComparisonService.java:27 | for periods whose start is not after their end, the inclusive test holds if and only if some instant lies in both periods |
| ComparisonService.IsTimeWithinRangeIffCommonInstant | src/main/java/com/smell/application/structure/ComparisonService.java:19-28 | on parsable, well-ordered bounds, the answer is true if and only if the two periods share an instant |
| ComparisonService.IsTimeWithinRangeSymmetric | src/main/java/com/smell/application/structure/ComparisonService.java:19-28 | swapping the two periods changes nothing, parse failures included |
| ComparisonService.IsTimeWithinRangeReflexive | src/main/java/com/smell/application/structure/ComparisonService.java:19-28 | a well-ordered period overlaps itself |
| ComparisonService.TouchingPeriodsOverlap | src/main/java/com/smell/application/structure/ComparisonService.java:27 | a period ending at the instant the next one starts overlaps it (both bounds are inclusive) |
| ComparisonService.NowReadsTheClock | src/main/java/com/smell/application/structure/ComparisonService.java:37-43 | the bound "now" reads the UTC clock and is never parsed |
| ComparisonService.OffsetIsIgnored | src/main/java/com/smell/application/structure/ComparisonService.java:41 | only the local date-time of a parsed bound is kept: two bounds with the same local part read alike whatever their offsets |
| ComparisonService.MalformedBoundFails | src/main/java/com/smell/application/structure/ComparisonService.java:22-25 | a bound that is neither "now" nor parsable leaves the call without an answer (the parse exception escapes) |
| ErrorNotificationManager.Added | src/main/java/com/smell/application/structure/ErrorNotificationManager.java:25-34 | adding keeps the earlier messages, puts the message last, and puts the three header lines before it exactly when it is empty |
| ErrorNotificationManager.AddedAllNonEmpty | src/main/java/com/smell/application/structure/ErrorNotificationManager.java:25-34 | adding non-empty messages one by one appends exactly those messages, in order |
| ErrorNotificationManager.AddedAllKeepsPrefix | src/main/java/com/smell/application/structure/ErrorNotificationManager.java:25-34 | any run of additions keeps what was already listed |
| ErrorNotificationManager.Manager.constructor | src/main/java/com/smell/application/structure/ErrorNotificationManager.java:18 | the list starts empty |
| ErrorNotificationManager.Manager.AddErrorMessage | src/main/java/com/smell/application/structure/ErrorNotificationManager.java:25-34 | the new list is `Added(old list, message)` |
| ErrorNotificationManager.Manager.ShowAndClearMessages | src/main/java/com/smell/application/structure/ErrorNotificationManager.java:39-47 | every listed message is shown, in order, then the list is empty; an empty list shows nothing and changes nothing |
| SearchHelper.DropTrailingEmpty | src/main/java/com/smell/application/search/SearchHelper.java:81 | `split` drops only empty pieces, and only at the end; the last kept piece is not empty |
| SearchHelper.SplitEndsWithSegment | src/main/java/com/smell/application/search/SearchHelper.java:81 | after a prefix ending in '/', a non-empty segment without '/' is the last piece of the split |
| SearchHelper.SplitIgnoresTrailingSlash | src/main/java/com/smell/application/search/SearchHelper.java:81 | one trailing '/' after a non-empty last piece does not change the split |
| SearchHelper.LastSegmentDecides | src/main/java/com/smell/application/search/SearchHelper.java:79-89 | only the last segment is parsed, with or without a trailing '/', whatever the earlier segments hold |
| SearchHelper.ExtractRoundTrip | src/main/java/com/smell/application/search/SearchHelper.java:81-84 | a `long` printed after any prefix ending in '/', followed by '/', reads back as that `long` |
| SearchHelper.PlaceholderUrl | src/main/java/com/smell/application/search/SearchHelper.java:50 | the search field's placeholder URL yields 454518485 |
| SearchHelper.NonNumericSegmentGivesNull | src/main/java/com/smell/application/search/SearchHelper.java:81-88 | whatever comes before it, a last segment that is not a `long` gives null, with or without a trailing '/' |
| SearchHelper.EmptyUrlGivesNull | src/main/java/com/smell/application/search/SearchHelper.java:81-88 | the empty URL splits into one empty piece, which does not parse: null |
| SearchHelper.OnlySeparatorsThrows | src/main/java/com/smell/application/search/SearchHelper.java:81-82 | a URL made only of '/' has no piece, so the index exception escapes uncaught |
| Strings.ParseLong | src/main/java/com/smell/application/search/SearchHelper.java:82 | a parsed value is within the `long` range, and is not negative unless the text starts with '-' |
| Strings.ParseLongOfLongToString | src/main/java/com/smell/application/search/SearchHelper.java:82 | parsing a printed `long` gives it back |
| Strings.TerminatedIsJoinThenSeparator | src/main/java/com/smell/application/user/Corporation.java:39-44 | the append-each-then-", " loop builds the joined list followed by exactly one separator, which the truncation removes |
| User.AppendList | src/main/java/com/smell/application/user/Corporation.java:38-47 | the loop, truncation and closing brackets give the head, the parts joined by ", ", then "]}" |
| User.ListTextOfEmpty | src/main/java/com/smell/application/user/Corporation.java:42-46 | an empty list is written "[]" and nothing is truncated |
| User.ListTextHasNoTrailingSeparator | src/main/java/com/smell/application/user/Corporation.java:39-45 | a non-empty list's text ends with its last element followed by "]}", with no ", " between |
| User.ListTextFromLoop | src/main/java/com/smell/application/user/Corporation.java:39-45 | cutting the loop's text by two characters, then closing it, gives the list text |
| User.AllianceTextIdRoundTrip | src/main/java/com/smell/application/user/Alliance.java:26-34 | the digits after "Alliance{id=" in an alliance's text parse back to its id |
| User.Alliance.constructor | src/main/java/com/smell/application/user/Alliance.java:18-23 | stores the four fields; the flag starts false |
| User.Alliance.SetSpecial | src/main/java/com/smell/application/user/Alliance.java:40-42 | only the flag changes |
| User.Alliance.SetId | src/main/java/com/smell/application/user/Alliance.java:48-50 | only the id changes |
| User.Alliance.SetName | src/main/java/com/smell/application/user/Alliance.java:56-58 | only the name changes |
| User.Alliance.SetStartDate | src/main/java/com/smell/application/user/Alliance.java:64-66 | only the start date changes |
| User.Alliance.SetEndDate | src/main/java/com/smell/application/user/Alliance.java:72-74 | only the end date changes |
| User.Corporation.constructor | src/main/java/com/smell/application/user/Corporation.java:21-27 | stores the five fields, keeping the given alliance objects; the flag starts false |
| User.Corporation.ToString | src/main/java/com/smell/application/user/Corporation.java:30-48 | the text is the corporation's fields, then its alliances' own texts separated by ", " inside "alliances=[…]" |
| User.Corporation.SetSpecial | src/main/java/com/smell/application/user/Corporation.java:54-56 | only the flag changes |
| User.Corporation.SetId | src/main/java/com/smell/application/user/Corporation.java:62-64 | only the id changes |
| User.Corporation.SetName | src/main/java/com/smell/application/user/Corporation.java:70-72 | only the name changes |
| User.Corporation.SetPlayerStartDate | src/main/java/com/smell/application/user/Corporation.java:78-80 | only the start date changes |
| User.Corporation.SetPlayerEndDate | src/main/java/com/smell/application/user/Corporation.java:86-88 | only the end date changes |
| User.Corporation.SetAlliances | src/main/java/com/smell/application/user/Corporation.java:94-96 | the corporation now holds the given alliance objects; nothing else changes |
| User.Character.constructor | src/main/java/com/smell/application/user/Character.java:18-22 | stores the three fields; its value holds the values its corporation objects had when it was built |
| User.Character.ToString | src/main/java/com/smell/application/user/Character.java:25-40 | the text is the character's fields, then its corporations' own texts separated by ", " inside "corporations=[…]" |
| User.Character.SetId | src/main/java/com/smell/application/user/Character.java:47-49 | only the id changes |
| User.Character.SetName | src/main/java/com/smell/application/user/Character.java:55-57 | only the name changes |
| User.Character.SetCorporations | src/main/java/com/smell/application/user/Character.java:63-65 | the character now holds the given corporation objects; nothing else changes |

## Left out

- The HTTP client `EveService` and its JSON decoding are not part of this model. Each lookup is a total function in `Gateway.EveService`. `None` stands for every way a request fails with an `IOException`: transport error, non-200 status, or an undecodable or null body.
- The model assumes every decoded detail record has a name and every decoded history array has no null element. The source passes a missing name straight to the constructors, so the object holds `null` and `toString` prints `name='null'`. A null element in a decoded history array makes `List.of` throw a `NullPointerException` (CharacterDataService.java lines 31 and 45), which is not an `IOException`. Neither case is modelled.
- `InterruptedException` and thread interruption are not modelled.
- Only the name of each fetched detail record is read, so the other fields of the records are not modelled. `CorporationHistory.isDeleted` is carried but never read, as in the source.
- Ids are unbounded integers in the model. The feed records hold them as Java `int` (`CorporationHistory`, `AllianceHistory`) and the `Corporation`, `Alliance` and `Character` objects as `long`; the widening from `int` to `long` is exact, and no id arithmetic happens, so nothing wraps. The text round trips require `IsLong`.
- `Long.parseLong` is modelled over ASCII digits. Java also accepts other Unicode decimal digits.
- `ComparisonService.getCurrentUTCTime` is not modelled: it only formats the clock. In `IsTimeWithinRange` the clock and the ISO offset date-time parser are parameters, and a `LocalDateTime` is an integer on the time line.
- Logging and the Vaadin notifications are left out. `ShowAndClearMessages` returns the sequence of messages it would open; the duration and position of the notifications are not modelled. The notification `extractCharacterIdFromUrl` shows on a bad number is not modelled either.
- Getters and the `isSpecial()` accessors are plain field reads.
- The static fields of `EveData` and `ErrorNotificationManager` are objects (`Registry`, `Manager`) passed to the code that uses them. Unsynchronised access from several threads, including the lazy initialisation race in `getSnowflakes`, is not modelled.
- Java lists are Dafny sequences. A `Corporation` or `Character` keeps the caller's `List` by reference in the source and by value here. A later mutation of that list through another reference is therefore not reflected. The builder never mutates a list after handing it over.
- The source adds each new object to its list and then flags it as `getLast()`. The model flags the new object and then appends it. The resulting list is the same.
- ComparisonService.IsTimeWithinRangeSymmetric: the source reads the UTC clock afresh for each "now" bound (ComparisonService.java line 39, called once per bound at lines 22-25); the model reads it once per call, and this lemma holds for "now" bounds only under that single reading. With one reading per bound, ("a","now") against ("now","b") can differ from the swapped call.
- ComparisonService.IsTimeWithinRangeReflexive: likewise assumes one clock reading per call; with one reading per bound, ("now","now") need not overlap itself.
- CharacterDataService.BuildCorporations: does not state that the corporation objects it returns are newly allocated (`BuildAlliances` states this for alliance objects).

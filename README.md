# CDash build bookkeeping, modelled in Dafny

This project models the core of CDash's `Build` class (`models/build.php`). That class records a
submitted build in the `build` table. It links sub-project builds to a parent aggregate build
(`parentid == -1`). It also keeps the parent's error, warning, test, configure and duration tallies in
step with its children's, and it answers history questions about neighbouring builds.

The model has five modules, one file each:

- `Pick` (`pick.dfy`): the "first row" of an unordered SQL result. This is the least element under a
  sort key, with the lowest id breaking ties (physical row order).
- `BuildRow` (`build_row.dfy`): the row record of the `build` table and the pure rules the class
  applies to rows. These are:
  - PHP string truthiness;
  - the `-1` ("not computed") sentinel;
  - the uuid input string;
  - the field rule of `UpdateBuild` and its walk up the parent chain;
  - the lookups behind `LookupParentBuildId`, `CreateParentBuild` and `GetRelatedBuildId`;
  - the parent test and configure tallies;
  - the notification gate.
- `History` (`history.dfy`):
  - the error rows saved with a build, their count and the resolved-error query;
  - the per-test timing step of `ComputeTestTiming` and its tally;
  - the row-by-row assignment in `GetErrorDifferences`, with its defaults.
- `Store` (`store.dfy`): the tables, held in a `Database` object. `build` is a map from id to row,
  with the auto-increment counter. The other tables are `buildtesttime`, `build2test`, `builderror`,
  the sub-project names and the three difference tables, plus an outbox of pull-request comments.
  `Database.Valid` is the table invariant:
  - id 0 is never a row;
  - the next auto-increment id is above every id;
  - uuids are unique.
- `BuildModel` (`build.dfy`): `class Build`.
  - Its fields are the PHP object's own: `Id`, `ParentId`, `SiteId`, `Name`, `Stamp`, `Type`, the
    times, `Command`, `Log`, `InsertErrors`, `Errors`, `PullRequest` and the sub-project fields.
  - Its methods take the `Database` and update both in place.
  - Each method is proved against a specification function of the old state. Examples are
    `UpdateChain`, `ParentCreation`, `TestNumbersAfter`, `TimingWrites`, `DiffValue` and
    `RelatedBuildId`. The properties the source relies on are lemmas about those functions.

The following are parameters rather than code:

- md5 (`hash`);
- `extract_type_from_buildstamp` (`stampType`);
- `sqrt`;
- the project's timing settings (`TimingConfig`).

Times are integers, and text values are strings. The recursion of `UpdateBuild` up the parent chain
takes a `fuel` bound. `ChainFuelIrrelevant` shows the bound does not matter once the chain ends
within it.

Notes on the source:

- The error and warning sentinel test is `== -1`, not a clamp of every negative value
  (`models/build.php:1692-1719`). The `GetNumberOf*Tests` getters clamp `< 0`, while
  `GetNumberOfErrors`/`GetNumberOfWarnings` map only `-1` to 0.
- The "first build" branch of `ComputeTestTiming` (`models/build.php:1145-1164`) is unreachable
  with positive build ids. The method returns early when the previous id is `0`, and the branch
  runs only for a negative previous id. Build ids come from the auto-increment column, so they are
  positive. The model keeps the branch (`TimeFirst`) for completeness, under exactly that
  condition, because its table invariant does not exclude negative ids.
- An insert with an explicit id also moves the auto-increment counter past that id, as MySQL does.

## Model

| member | source | states |
|---|---|---|
| BuildRow.Clamp0 | models/build.php:820-823 | the clamp is non-negative, at least its input, the identity on non-negative input and exactly 0 on negative input |
| BuildRow.ParentLookup | models/build.php:1560-1574 | 0 without a site, name and stamp; otherwise a found id is a parent aggregate (`parentid == -1`) with that site, name and stamp and the lowest such id; 0 exactly when none exists (the project is not compared) |
| BuildRow.TwinLookup | models/build.php:1591-1598 | a found id is a standalone build (`parentid == 0`) with the same name, site, stamp and project; 0 exactly when there is none |
| BuildRow.UuidLookup | models/build.php:680-685 | a found id carries the uuid; 0 exactly when no row has it; with unique uuids it is the only row that has it |
| BuildRow.Reparent | models/build.php:1656-1660 | same ids; every standalone twin now points to the new parent, no twin remains, and nothing but `parentid` changes on any row |
| BuildRow.Promote | models/build.php:1601-1602 | the promoted row gets `parentid == -1`; every other row and field is unchanged |
| BuildRow.RelatedBuildId | models/build.php:359-412 | the result is a candidate under `Related` (same sub-project, parent-only for a parent, the given parent or the same site/type/name/project, earlier or later start); under the sort key `RankKey`, previous/current picks the latest start and next the earliest; 0 exactly when there is no candidate |
| BuildRow.NatToString | models/build.php:2087-2089 | the decimal text of a number is non-empty, and one character long exactly below 10 |
| BuildRow.NatToStringDigits | models/build.php:2087-2089 | every character of the decimal text is a digit |
| BuildRow.NatToStringInjective | models/build.php:2087-2089 | different numbers have different decimal texts |
| BuildRow.UuidInputShape | models/build.php:2087-2089 | the hashed input starts with the stamp and an underscore and ends with an underscore and the sub-project name |
| BuildRow.UuidInputDeterminesSubproject | models/build.php:2084-2091 | for one stamp, name, site and project, two inputs are equal exactly when the sub-project names are; a parent's input differs from every child's |
| BuildRow.UuidSeparatesSubprojects | models/build.php:1603-1607 | with a collision-free digest, two uuids for one stamp, name, site and project are equal exactly when the sub-project names are: a resubmitted build finds its own uuid, and a parent's uuid differs from each child's |
| BuildRow.UuidInputCollides | models/build.php:2087-2089 | the concatenation is not injective: `a`/`b_c` and `a_b`/`c` give the same input |
| BuildRow.ClausesAreTheChanges | models/build.php:1688-1752 | the clause set `Clauses` has a field exactly when `ApplyUpdate` changes its value, so with no clause nothing is written |
| BuildRow.CounterRule | models/build.php:1688-1720 | the counter rule `NewCount`: a `-1` with a new count of 0 and InsertErrors becomes 0; a positive increment gives tally + increment; anything else leaves the count; a count never drops below -1, never decreases once computed, and its tally grows by the positive part of the increment |
| BuildRow.WindowAndText | models/build.php:1722-1738 | one step `ApplyUpdate` changes only the six updated fields; start time becomes the minimum and end time the maximum of stored and caller values; log and command (`Appended`) are appended only when the caller's text is non-empty and differs, so the stored text is a prefix of the new one |
| BuildRow.UpdateChain | models/build.php:1756-1773 | the walk up the parents keeps the table's ids |
| BuildRow.PathOnSameLinks | models/build.php:1757-1769 | tables with the same parent links give the same walk and the same termination |
| BuildRow.LinksAfterUpdate | models/build.php:1683-1752 | updating one row keeps every parent link |
| BuildRow.ChainUpdatesEachRowOnce | models/build.php:1756-1773 | when the ids on the walk are distinct, each row on it receives the increment exactly once and every other row is untouched |
| BuildRow.ChainKeepsShape | models/build.php:1681-1752 | along the whole walk no row changes outside the six fields UpdateBuild writes |
| BuildRow.ChainFuelIrrelevant | models/build.php:1759-1769 | a walk that ends within n steps gives the same result for every fuel of at least n |
| BuildRow.MinusOneKeepsCounts | xml_handlers/dynamic_analysis_handler.php:115 | UpdateBuild(id, -1, -1) never changes an error or warning count anywhere on the walk |
| BuildRow.ChainCountsMonotone | models/build.php:1703-1720 | along the whole walk a computed count never decreases |
| BuildRow.ChildAndParentUpdated | models/build.php:1759-1772 | a child with a parent aggregate: one call applies the same increment to both, and the object's ParentId becomes the parent when the child is its own build |
| BuildRow.AddTestNumbers | models/build.php:1794-1813 | only the three test tallies change; a `-1` tally becomes the delta, any other tally grows by the delta; a non-negative delta never lowers a tally |
| BuildRow.AddConfigureNumbers | models/build.php:1881-1895 | only the two configure tallies change; a `-1` tally becomes the delta, any other tally grows by the delta; a non-negative delta never lowers a tally |
| BuildRow.ParentConfigureAdded | models/build.php:1867-1895 | no change for a parent id below 1 or without a row; otherwise only that row changes, keeping its uuid and parent link |
| BuildRow.StoredTests | models/build.php:813-858 | a stored test count as read: 0 without a row, a negative count read as 0, otherwise the count |
| BuildRow.TestNumbersAfter | models/build.php:861-877 | UpdateTestNumbers (the deltas `TestDeltas` to the parent, then the child's own counts) keeps ids, uuids and parent links, and keeps uuids unique |
| BuildRow.ParentTestsAdded | models/build.php:1777-1813 | no change for a parent id below 1 or without a row; otherwise only that row changes, keeping its uuid and parent link |
| BuildRow.ChildTestsSet | models/build.php:874-876 | only the build's own row changes, and takes the three new counts (`SetTestNumbers`); every row keeps its uuid and parent link |
| BuildRow.ConfigureTallyStaysSum | models/build.php:1865-1901 | from a non-negative tally, the parent's configure tallies after a series of children's non-negative counts are the start plus the sums |
| BuildRow.TestTallyStaysSum | models/build.php:861-877 | if a parent's tally was the others' sum plus this child's clamped count, it is afterwards the others' sum plus the child's new count |
| BuildRow.TestNumbersIdempotent | models/build.php:861-877 | submitting the same test numbers twice changes neither parent nor child the second time |
| BuildRow.NewParentRowAsWritten | models/build.php:1611-1619 | the parent row as inserted is a parent aggregate seeded with the child's error and warning counts |
| BuildRow.NewParentRow | models/build.php:1611-1619 | the corrected parent row: a parent aggregate with the given identity and uuid and zero counts |
| BuildRow.ParentDoubleCountedAsWritten | models/build.php:1611-1641 | as written, a child with n > 0 errors gives a new parent with 2n errors (likewise warnings) |
| BuildRow.NewParentCountsOnce | models/build.php:1611-1641 | with the corrected row, a new parent's counts equal the child's counts |
| BuildRow.ParentAfterSet | models/build.php:2099-2109 | a positive id equal to the build's own is refused (ParentId kept); any other value is stored |
| BuildRow.NeverOwnParent | models/build.php:2099-2109 | over any series of SetParentId calls, a build that does not point to itself never comes to |
| BuildRow.ParentSurvives | models/build.php:1656-1660 | an UpdateBuild walk followed by a straggler update keeps every parent aggregate one |
| BuildRow.LookupFindsParent | models/build.php:1566-1572 | with a parent aggregate present (and site, name and stamp set) the lookup is not 0 |
| BuildRow.ChainKeepsUuids | models/build.php:1681-1752 | the walk keeps every row's uuid, so the unique key stays unique |
| BuildRow.AddTime | models/build.php:230-237 | the buildtesttime upsert: a first duration is inserted, a later one added, other builds kept |
| BuildRow.TimesAddUp | models/build.php:214-250 | durations saved one after another total their sum; other builds' totals are kept |
| BuildRow.AddDuration | models/build.php:1963-1966 | adds the duration to that row's configure or build duration only; everything else kept |
| BuildRow.ConfigureDurationSet | models/build.php:1951-1954 | only the build's own row changes, and its configure duration becomes the new one; keys and unique uuids are kept |
| BuildRow.MarkNotified | models/build.php:1942 | after marking, the target no longer sends; every other row and every uuid is kept |
| BuildRow.AtMostOnePost | models/build.php:1914-1943 | over any series of attempts, each target (`NotifyTarget`: the parent when positive, else the build) is posted about at most once, and never once marked (`Sends` is false) |
| History.ErrorCount | models/build.php:617-631 | the number of type-0 errors is at most the number of errors; all are type 0 when it equals it |
| History.NoErrorsMeansNoTypeZero | models/build.php:794-802 | the error count is 0 exactly when no error has type 0 |
| History.Stamped | models/build.php:777-780 | each saved error gets the build's id and is otherwise unchanged |
| History.StampedKeepsCount | models/build.php:777-780 | stamping keeps the error count |
| History.SavedErrorsHaveTheirCrcs | models/build.php:777-780 | after saving, each error's crc32 is among the build's crcs of its type |
| History.Crcs | models/build.php:426-427 | exactly the crc32 values of the build's errors of that type |
| History.ResolvedFrom | models/build.php:421-429 | exactly the previous build's errors of that type whose crc32 the current build lacks |
| History.ResolvedErrors | models/build.php:418-430 | the resolved errors between the previous and the current build |
| History.ResolvedExample | models/build.php:418-430 | a concrete pair of builds: only the error the current build lacks is resolved |
| History.BandStd | models/build.php:1101-1103 | the std is raised to the threshold and is one of the two values |
| History.TimingStep | models/build.php:1097-1136 | an unmatched test starts from its own time with std and status 0; the status is either reset to 0 or the previous status plus one for a passing run |
| History.StreakRule | models/build.php:1097-1136 | a passed, matched test is flagged one above the previous status when over the band, else 0; a failed one carries mean and std with status 0; an unmatched one starts from its time |
| History.RecomputedMeanBetween | models/build.php:1113-1121 | when not frozen, the new mean is the 0.7/0.3 weighted mean |
| History.FreezeExample | models/build.php:1113-1117 | a concrete slow run inside the streak keeps the previous mean and std |
| History.ConstantDurationNeverFlagged | models/build.php:1097-1122 | a test that always takes its mean time keeps that mean and is never flagged |
| History.StreakCountsUp | models/build.php:1105-1117 | successive runs over the band raise the status by one each and freeze mean and std |
| History.FirstMatch | models/build.php:1078-1092 | the first row matching the key (by name, or by test id): it matches and no earlier row does; none exactly when no row matches |
| History.PreviousFor | models/build.php:1078-1095 | the matched previous statistics exist only for a first name match with a positive id |
| History.TimeAll | models/build.php:1070-1144 | one timing per test, each the step against its previous match |
| History.CountFlagged | models/build.php:1141-1143 | the tally is at most the number of tests; 0 exactly when none reaches the maximum status, all exactly when all do |
| History.SetTiming | models/build.php:1138-1139 | the rows with that test id get the computed timing, the others are kept |
| History.TimingWrites | models/build.php:1138-1139 | the writes keep the number of build2test rows |
| History.FlaggedIsCount | models/build.php:1141-1143 | the running tally equals the count of flagged timings |
| History.StepDone | models/build.php:1070-1144 | one more test adds its own write and its flag to the tally |
| History.FirstStepDone | models/build.php:1153-1163 | one more first-build test writes its time with std 0 and status 0 |
| History.AllTimed | models/build.php:1070-1144 | with distinct test ids, every test's row carries its own step |
| History.PrefixTimed | models/build.php:1070-1144 | after the first n tests, those rows carry their steps and the rest are untouched |
| History.FirstBuildTiming | models/build.php:1145-1164 | for a first build every test's mean is its time with std and status 0, and nothing is flagged when the maximum status is positive |
| History.AllKeysComplete | models/build.php:945-950 | every difference key is among the twelve defaults |
| History.CountDiffCols | models/build.php:910-912 | the builderrordiff or testdiff side of the left join: one row of NULLs when the build has no difference row; otherwise exactly the columns of the build's rows |
| History.ConfigureDiffCols | models/build.php:911 | the configureerrordiff side: one row of NULLs when the build has none; otherwise exactly the columns of the build's rows |
| History.Keep | models/build.php:909-913 | the kept rows are exactly the present ones; empty exactly when none is present |
| History.Product | models/build.php:909-913 | one joined row per combination, and the rows are exactly the joins of a build-difference, a configure-difference and a test-difference column set |
| History.JoinedWith | models/build.php:909-913 | for one build-difference column set, exactly the joins with each configure and test column set, one per pair |
| History.DiffJoin | models/build.php:909-913 | the query returns a row exactly when the build exists |
| History.NoDiffsJoinToNullRow | models/build.php:909-913 | with no difference rows the join is one all-null row |
| History.NoDifferencesGiveZeros | models/build.php:917-955 | an all-null row assigns null (a null type compares equal to 0), and every value defaults to 0 |
| History.WarningRowGoesToWarnings | models/build.php:918-924 | a type-1 build difference sets the warning keys and not the error keys |
| History.LooseEq | models/build.php:918-937 | the loose comparison reads a NULL column as 0 |
| History.OneSideAssigned | models/build.php:918-941 | each row assigns either the build-error or the build-warning keys, either the configure-error or the configure-warning key, and at most one test pair (none for another type) |
| History.LastAssigned | models/build.php:917-942 | nothing exactly when no row assigns the key; otherwise the value of a row that assigns it with no later row assigning it |
| History.DiffValue | models/build.php:917-955 | a non-zero summary value is one some row assigned to that key |
| History.UnassignedIsZero | models/build.php:944-955 | a key no row assigns a value reads as 0 |
| History.LastRowWins | models/build.php:917-942 | a later row's assignment overrides earlier ones; a row that does not assign a key leaves it |
| Store.NameIn | models/build.php:198-209 | a name exists exactly for a stored build whose sub-project id has a name, and it is that name |
| Pick.LeastExists | models/build.php:1566-1568 | a non-empty set of candidate rows has a first row |
| Pick.Least | models/build.php:1566-1568 | the first row is least under the key, ties broken by id |
| Pick.LeastUnique | models/build.php:1566-1568 | that first row is unique |
| BuildModel.FillHeader | models/build.php:281-317 | fills once; name, stamp, type, start and end time, site and project come from the row (empty and 0 without one); the parent goes through the self-parent rule; the sub-project id is replaced only by a known, non-zero one |
| BuildModel.Written | models/build.php:1138-1139 | writing a build's test rows changes only that build's entry, and only when it has one |
| BuildModel.WrittenStep | models/build.php:1138-1143 | one more test timed against the previous build extends the written rows by that test and the tally by its flag |
| BuildModel.FirstWrittenStep | models/build.php:1153-1163 | the same step for a first build, whose test gets its own time as mean and status 0 |
| BuildModel.CreationKeepsRows | models/build.php:1579-1666 | parent creation (`ParentCreation`: `ParentPlaced`, then `ParentMade` for a made parent) keeps every row and uuid, keeps uuids unique and next ids above all ids; an adopted parent changes no row |
| BuildModel.PromotionKeepsRows | models/build.php:1597-1602 | the promotion path of `ParentPlaced` keeps the table invariant |
| BuildModel.InsertionKeepsRows | models/build.php:1604-1637 | the insertion path of `ParentPlaced` keeps the table invariant |
| BuildModel.InsertedParentKeepsRows | models/build.php:1635-1660 | `ParentMade` (the increment and straggler update after an insert) keeps the table invariant |
| BuildModel.ChainAndReparentKeepRows | models/build.php:1641-1660 | the increment and straggler update keep ids, uuids and their uniqueness |
| BuildModel.Build.constructor | models/build.php:79-87 | a new build has no id, no parent, empty fields, InsertErrors on and no errors |
| BuildModel.Build.FillFromId | models/build.php:281-317 | a filled object is left alone; otherwise its header is filled from the row |
| BuildModel.Build.LoadRow | models/build.php:297-305 | the row's values are copied, ParentId through SetParentId |
| BuildModel.Build.GetRelatedBuildId | models/build.php:359-412 | the result is the related build the specification function picks |
| BuildModel.Build.GetBuildIdIn | models/build.php:320-354 | 0 and nothing filled without an id; otherwise the header is filled and the related build picked |
| BuildModel.Build.GetPreviousBuildId | models/build.php:320-330 | 0 without an id; otherwise the latest related build that started strictly earlier |
| BuildModel.Build.GetNextBuildId | models/build.php:333-342 | 0 without an id; otherwise the earliest related build that started strictly later |
| BuildModel.Build.GetCurrentBuildId | models/build.php:345-354 | 0 without an id; otherwise the latest related build |
| BuildModel.Build.GetResolvedBuildErrors | models/build.php:418-430 | the previous build's errors of that type whose crc32 the current build lacks; the header is loaded from the build's row when not yet filled, and unchanged without an id |
| BuildModel.Build.GetErrorDifferences | models/build.php:891-957 | nothing without an id; otherwise all twelve keys, each the last value the join's rows assigned, 0 when none did |
| BuildModel.Build.LastValues | models/build.php:917-942 | the loop leaves a key exactly when some row assigned it, with the last assigned value |
| BuildModel.Build.WithDefaults | models/build.php:944-955 | every key is present, holding its assigned value or 0 |
| BuildModel.Build.ApplyDiffRow | models/build.php:918-941 | one row sets the keys it assigns and leaves the others |
| BuildModel.Build.ComputeTestTiming | models/build.php:997-1169 | refuses without an id or project; stops without a previous build; otherwise writes each test's step and the tally of flagged tests |
| BuildModel.Build.RecordTiming | models/build.php:1040-1166 | writes the timings against the previous build (or the first-build timings) and stores the tally on the build row |
| BuildModel.Build.TimeAgainst | models/build.php:1041-1144 | the loop writes each test's step against its previous match and returns the flagged count |
| BuildModel.Build.PreviousStats | models/build.php:1085-1095 | the previous statistics are those of the first name match |
| BuildModel.Build.TimeFirst | models/build.php:1145-1164 | each test's mean becomes its time with std and status 0; the tally counts as the source does |
| BuildModel.Build.PreviousTestId | models/build.php:1075-1083 | the id of the first previous test with that name, else 0 |
| BuildModel.Build.StepTiming | models/build.php:1085-1136 | the step equals the timing rule |
| BuildModel.Build.SetParentId | models/build.php:2099-2109 | ParentId follows the self-parent rule |
| BuildModel.Build.LookupParentBuildId | models/build.php:1560-1574 | returns the parent lookup's result |
| BuildModel.Build.StandaloneTwinId | models/build.php:1591-1598 | returns the first standalone twin |
| BuildModel.Build.RowWithUuid | models/build.php:680-681 | returns the row with that uuid |
| BuildModel.Build.CreateParentBuild | models/build.php:1579-1666 | keeps the table invariant; result, rows, next id and ParentId are those of the parent-creation function (clamped counts); no row is lost and every uuid is kept |
| BuildModel.Build.PlaceParent | models/build.php:1589-1637 | the rows, next id and ParentId after it are where ParentPlaced puts the parent (twin promoted, row inserted, or uuid adopted); no row is lost and every uuid is kept |
| BuildModel.Build.InsertParentRow | models/build.php:1604-1637 | adopts an existing uuid without writing; otherwise inserts the zero-count parent at the next id and points ParentId to it |
| BuildModel.Build.TallyParent | models/build.php:1640-1660 | increments the parent's chain and re-parents the standalone twins, which is ParentMade of the rows before it; keys and uuids are kept |
| BuildModel.Build.UpdateParentTestNumbers | models/build.php:1777-1821 | the table after the method is the tally function applied to ParentId and the deltas |
| BuildModel.Build.UpdateTestNumbers | models/build.php:861-888 | ParentId is looked up; the parent gets the deltas, the build its new counts; a failing-tests comment is posted through the gate; the subproject name is looked up and kept when that comment is sent without a known name (`NameAfterPost`) |
| BuildModel.Build.ReportFailingTests | models/build.php:880-887 | with a pull request and failing tests, the target row is marked notified and the failing-tests comment is posted once, the subproject name being kept as in NotifyPullRequest; otherwise nothing changes |
| BuildModel.Build.StoreTestNumbers | models/build.php:867-877 | the table after the parent delta and the child overwrite |
| BuildModel.Build.UpdateParentConfigureNumbers | models/build.php:1865-1901 | ParentId is looked up; no change when it is below 1; otherwise the parent gets its tallies plus the deltas |
| BuildModel.Build.AddParentConfigureNumbers | models/build.php:1873-1895 | the table after it is ParentConfigureAdded of the one before, for the ParentId already set |
| BuildModel.Build.SaveTotalTestsTime | models/build.php:214-251 | nothing without an id; otherwise the duration is upserted for the build and added for its looked-up parent |
| BuildModel.Build.SetConfigureDuration | models/build.php:1945-1971 | nothing without an id; otherwise the build's configure duration is set and the looked-up parent's increased |
| BuildModel.Build.UpdateBuildDuration | models/build.php:1973-1997 | nothing for a 0 duration or no id; otherwise the build's and the looked-up parent's build durations are increased |
| BuildModel.Build.GetSubProjectName | models/build.php:188-211 | nothing without an id; a set name is returned; otherwise the stored name is fetched and cached |
| BuildModel.Build.SaidText | models/build.php:1933-1937 | the comment starts with the message and ends with a full stop; " during " and the sub-project name come in between only for a build with an id and a known sub-project |
| BuildModel.Build.NotifyPullRequest | models/build.php:1914-1943 | speaks for the parent when there is one; posts one comment and sets the flag only when not yet notified; a build with an id and no known subproject name that sends looks the name up and keeps it when found, and the comment says it |
| BuildModel.Build.Save | models/build.php:609-810 | keeps the table invariant and leaves the build stored. A stored build gets a space before command and log; the table and ParentId are the update walk from the build with the counted errors and warnings, then the comment mark; its errors are stamped with its id and appended; the comment is posted when the pull request is set, some error has type 0 and the target was not notified; the subproject name is kept as in NotifyPullRequest. A new build gets the guessed type and its uuid, and keeps its command and log; the saved state is `SavedNew` of the table before and the build's typed submission; it returns false exactly when the insert was refused; only an insert stamps and appends the errors and may post the comment (and look up the subproject name) |
| BuildModel.Build.SaveStored | models/build.php:767-808 | an existing build: command and log prefixed with a space; the table and ParentId are the update walk from the build, followed by the comment mark; errors stamped with the id and appended; the comment posted exactly when due and the target sends; the subproject name kept as in NotifyPullRequest |
| BuildModel.Build.SaveUnstored | models/build.php:633-808 | a new build: the type is the stamp's guess when empty; the uuid is the digest of its fields; the saved state is `SavedNew` of the table before and the typed submission; then as SaveTyped |
| BuildModel.Build.SaveTyped | models/build.php:645-808 | the saved state is `SavedNew` of the table before and the submission; ok exactly when not refused; Id, ParentId and next id are the saved ones; the rows are the saved rows with the comment mark; errors stamped and appended, comment and subproject name lookup only after an insert |
| BuildModel.Build.AfterInsert | models/build.php:706-808 | a refused or adopted build stops with the saved state, its errors and its subproject name unchanged; an inserted one stamps and appends its errors and posts the comment when due, keeping the subproject name as in NotifyPullRequest |
| BuildModel.Build.SaveErrorsAndPost | models/build.php:776-808 | the errors are stamped with the id and appended; the rows are those before with the comment target marked when due; the comment is posted exactly when a pull request is set, some error has type 0 and the target had not been notified; the subproject name is kept as in NotifyPullRequest |
| BuildModel.Build.SaveExisting | models/build.php:767-774 | text prefixed with a space; the table and ParentId are those of the update walk from the build |
| BuildModel.Build.CountErrors | models/build.php:617-631 | the error count is the number of type-0 errors and the warning count the rest |
| BuildModel.Build.SaveNew | models/build.php:650-714 | the uuid is the submission's; outcome, rows, next id, ParentId and Id are `SavedNew` of the table before: the parent chosen, then the row inserted, the uuid's build adopted, or the insert refused |
| BuildModel.Build.InsertNew | models/build.php:660-766 | the uuid is computed; the outcome is adopted when the uuid is taken, refused when the explicit id is taken, inserted otherwise; rows, next id, ParentId and Id are `Inserting` of the chosen parent |
| BuildModel.Build.InsertUnder | models/build.php:663-766 | the same, once the uuid is set: an inserted row carries the counted errors and warnings under the chosen parent, and the parent's chain receives the counts unless this save made the parent |
| BuildModel.Build.InsertFresh | models/build.php:663-766 | the row is stored at the explicit or next id with the new counts and ParentId; unless this save made the parent, the parent and its chain receive the counts (`RowInserted`) |
| BuildModel.Build.ChooseParent | models/build.php:650-659 | the rows, next id and ParentId after it are `ParentChosen`: the looked-up parent for a sub-project build, else 0; with none found a parent is made as `ParentCreation` says |
| BuildModel.Build.AdoptExisting | models/build.php:685-706 | the rows, next id and ParentId are `Adoption`: the existing build is updated and, for a sub-project build without a parent, its parent completed |
| BuildModel.Build.CompleteParent | models/build.php:691-703 | creates the parent as `ParentCreation` says, or, when the parent uuid was adopted, the chain from that parent receives the counts |
| BuildModel.Build.CreditParent | models/build.php:699-700 | the counts reach the parent and its chain as UpdateChain says; keys and uuids are kept |
| BuildModel.Build.InsertRow | models/build.php:663-714 | the new row, with the counted errors and warnings, the uuid and ParentId, is stored at the explicit or next id, and the auto-increment moves past it |
| BuildModel.Build.SaveErrors | models/build.php:776-780 | every error gets the build's id and is appended in order |
| BuildModel.Build.PostBuildErrors | models/build.php:792-808 | posts "This build experienced errors" exactly when a pull request is set and some error has type 0, keeping the subproject name as in NotifyPullRequest; otherwise nothing changes |
| BuildModel.Build.UpdateBuild | models/build.php:1672-1774 | the table and ParentId are those of the update walk |
| BuildModel.Build.MergeRow | models/build.php:1681-1752 | the merged row and the clause set are those of the field rule |
| BuildModel.Build.Earlier | models/build.php:1723-1725 | a clause exactly when the stored start is later; the value is the earlier |
| BuildModel.Build.Later | models/build.php:1726-1728 | a clause exactly when the stored end is earlier; the value is the later |
| BuildModel.Build.MergeText | models/build.php:1731-1738 | a clause exactly when the caller's text is truthy and differs; the value is appended |
| BuildModel.Build.MergeCount | models/build.php:1688-1720 | the counter rule, with a clause exactly for the sentinel reset or a positive increment |
| BuildModel.Build.NumberOfTests | models/build.php:813-858 | non-negative; 0 without a row; the stored count when it is not negative |
| BuildModel.Build.NumberOfErrors | models/build.php:1507-1538 | nothing without an id or row; otherwise the stored count with -1 read as 0 |

## Left out

- SQL text, escaping and logging are not modelled. Each table is an in-memory map or sequence, and
  each query is a function over it.
- SQL failures other than the unique-key conflicts in `Save` and `CreateParentBuild` are not
  modelled. Every other statement succeeds.
- Transactions and `FOR UPDATE` locks are not modelled. Each method is one sequential atomic step.
- md5, `extract_type_from_buildstamp`, `sqrt` and the project's timing settings are parameters.
- BuildRow.UuidSeparatesSubprojects requires the digest to be collision-free. md5 collisions are not
  modelled.
- Date formatting and `strtotime` are not modelled. Times are integers.
- `post_pull_request_comment` is modelled as an appended `Comment`.
- Labels, groups, `Information`, the `ErrorDiffs` insert, `BuildUpdate::AssignUpdateToChild`,
  `compute_*_difference` and `ComputeUpdateStatistics` are foreign collaborators and not modelled.
- The non-core getters and setters are not modelled: `SetNumberOfConfigure*`, `UpdateEndTime`,
  `GetDate`, `GetDone`, `RemoveIfDone`, `GetLabels`, `GetGroup` and `GetUploadedFilesOrUrls`.
- `IsParentBuild` (`ParentId == -1`) and `Exists` (modelled as `BuildModel.Build.Stored`) are
  predicates without contracts of their own. Their uses are covered by the members that call them.
- The `changeid` column and the `generator` column are not stored.
- `BuildModel.Build.UpdateBuild` and the lemmas about the walk take a `fuel` bound on the
  parent-chain recursion. The source would recurse forever on a parent cycle of length two or more.
- `BuildModel.Build.ComputeTestTiming`: the timing result is stated only when the previous build is
  not the build itself. The model relies on SQL row order being physical (lowest id first) for every
  unordered "first row".
- PostgreSQL is not modelled, though the source also runs on it (`models/build.php:727-729` tests
  for it). Its sequence does not move on an insert with an explicit id; the model's counter moves
  past that id, as MySQL's does.
- PHP's loose `==` and `!=` compare numeric strings as numbers (so "1" equals "01"). The model uses
  exact string equality for test names (`models/build.php:1079`) and for the log and command
  checks (`models/build.php:1731`, `models/build.php:1735`).
- `BuildModel.Build.NumberOfErrors`: for an id without a row the source returns a null value. The
  model returns nothing.
- `BuildModel.Build.CreateParentBuild` and the members that use it insert the corrected zero-count
  parent row (see Findings), not the row as written.
- Floating-point rounding is not modelled. Mean and std are exact reals, and the 0.3 weight is
  exact.

## Findings

| source | as written | input that shows it | evidently intended | confidence | as-written member | corrected member |
|---|---|---|---|---|---|---|
| models/build.php:1611-1641 | the new parent row is inserted with the child's error and warning counts, then `UpdateBuild` adds the same counts to it again | first child of a new parent, with 2 errors: the parent holds 4 | the parent's tally is the sum of its children's counts, so 2 | not executed | BuildRow.ParentDoubleCountedAsWritten | BuildRow.NewParentCountsOnce |

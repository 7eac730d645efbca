# Ballsville leaderboard: a verified model of the aggregation core

This project models in Dafny the data aggregation of the Ballsville fantasy-football
leaderboard and proves properties of that model. The leaderboard reads leagues, users,
rosters and weekly matchups from the Sleeper API. The remote calls are treated as input
that has already been fetched. The modules are:

- `Sleeper` (sleeper.dfy): the API records, and the two lookups every consumer builds from
  them (`user_id → display_name` and `roster_id → owner_id`). It also holds the season total,
  rebuilt from `fpts` / `fpts_decimal` in integer hundredths.
- `Ledger` and `GenerateLeaderboard` (ledger.dfy, generate_leaderboard.dfy):
  `scripts/generate-leaderboard.js`.
  - Walks weeks 1, 2, … until the first empty matchup list.
  - Keeps one find-or-create entry per (ownerName, leagueName), assigns each week's rounded
    points, and overwrites each entry's total from its roster.
  - Produces the `weeks` / `owners` / `divisions` / `leaguesByDivision` file.
  - `Ledger` has the specification functions and lemmas. `GenerateLeaderboard` is the
    imperative script: the class `LedgerBuilder` holds the three mutable accumulators.
- `LegacyApi` (legacy_api.dfy): the older route `src/pages/api/leaderboard.js`.
  - Entries are keyed by display name alone.
  - Weekly points and totals are added across leagues.
  - Each roster adds one `leagues` record.
  - Weeks are sorted in string order.
  - Any failure gives status 500.
- `YearStats` (year_stats.dfy): `computeYearStats`.
  - Per-mode minimum league size: the override, then the defaults, then 0.
  - Groups entries by league, with an all-or-nothing full-league filter.
  - Produces `totalTeams` and `uniqueOwners` per year.
- `Audit` and `AuditRun` (audit.dfy, audit_run.dfy): the verification script `test.js`.
  - Its `--k=v` argument parser and the bounded retry loop.
  - League bundles and their fullness.
  - The first pass over every league, with the per-id recount that reconciles with it.
  - The owner sort and the CSV lines.
- `Snapshots` (snapshots.dfy): `loadWeeklyData`, which probes parts 1..20 and overlays them
  year → mode → league, cached after the first load.
- `LeaderboardView` (leaderboard_view.dfy): the owner search, the suggestions, the pagination
  and the three-week window of `src/components/Leaderboard.js`.
- Helpers: `Wrappers` (Option), `Collections` (Distinct, Dedup, Filter, Map, last-wins maps,
  sums), `Sorting` (a generic stable sort by a total preorder, with its stability proved) and `Text` (decimal numerals,
  the fixed-point text `fpts.dd` and its parse, ASCII lower-casing, trimming, substring tests,
  code-point string order, CSV quoting).

Points are integers in hundredths. Raw `starters_points` sums are in ten-thousandths, and
`Number(pts.toFixed(2))` becomes `RoundToHundredths`, which rounds half away from zero. A
display name missing from `userMap` (no owner id, or one that is not a user's id) is `None` of
an `Option<string>`. An `owner_id` is truthy
exactly when it is `Some(s)` with `s != ""`.

Behaviour of the code worth noting:

- `generate-leaderboard.js` awaits every request with no `catch` around the loops
  (scripts/generate-leaderboard.js:46-48, :113), so one thrown request ends the whole run and
  no file is written (`Ledger.RunAbortsOnFailure`). The API route catches the same throw and
  answers 500 (src/pages/api/leaderboard.js:60-62, `LegacyApi.HandlerSpec`).
- `loadWeeklyData` merges at league depth: `Object.assign(combinedData[y][c], partData[y][c])`.
  A league present in a later part replaces that league's whole value, weeks included. So
  splitting one league's weeks across two parts is not order-independent:
  `Snapshots.WeekSplitDoesNotCommute` exhibits the case. Order-independence holds for parts
  that are disjoint at league level (`Snapshots.MergeCommutes`).
- In `test.js` a missing `--year` falls back to `"2025"` (test.js:22). The spaced form
  `--year 2025` parses as `year=true`, and that key is not in the league map, so the run stops
  (`Audit.SpacedYearIsFatal`).
- In the CSV only the display name has its quotes doubled. The id is wrapped in quotes but not
  escaped.
- In the API route the week list uses `Array.prototype.sort()` with no comparator
  (src/pages/api/leaderboard.js:59), so week 10
  is listed before week 2 (`LegacyApi.WeekTenBeforeWeekTwo`).

## Model

| member | source | states |
|---|---|---|
| Sleeper.UserMap | scripts/generate-leaderboard.js:40-41 | `userMap[u.user_id] = u.display_name` over the users; its keys and values are stated by `UserMapKeys` and `UserMapLastWins` |
| Sleeper.RosterMap | scripts/generate-leaderboard.js:42-43 | `rosterMap[r.roster_id] = r.owner_id` over the rosters; stated by `RosterMapKeys` and `RosterMapLastWins` |
| Sleeper.SeasonTotal | scripts/generate-leaderboard.js:93-95 | `parseFloat(fpts + "." + padStart(fpts_decimal))` in hundredths; `SeasonTotalParses` proves it is what the text parses to |
| Sleeper.UserMapKeys | scripts/generate-leaderboard.js:40-41 | the user map's keys are exactly the users' ids |
| Sleeper.UserMapLastWins | scripts/generate-leaderboard.js:41 | for a repeated user id, the last user's display name wins |
| Sleeper.RosterMapKeys | scripts/generate-leaderboard.js:42-43 | the roster map's keys are exactly the rosters' ids |
| Sleeper.RosterMapLastWins | scripts/generate-leaderboard.js:43 | for a repeated roster id, the last roster's owner wins |
| Sleeper.BuildUserMap | scripts/generate-leaderboard.js:40-41 | the `forEach` loop builds exactly the last-wins user map |
| Sleeper.BuildRosterMap | scripts/generate-leaderboard.js:42-43 | the `forEach` loop builds exactly the last-wins roster map |
| Sleeper.DisplayName | scripts/generate-leaderboard.js:53 | `userMap[ownerId]` is defined exactly when the id is present and is a key, and then it is that user's name |
| Sleeper.RoundToHundredths | scripts/generate-leaderboard.js:68 | the rounded value is within half a hundredth of the raw sum, and exact values are unchanged |
| Sleeper.SeasonTotalParses | scripts/generate-leaderboard.js:93-95 | the text `fpts.dd`, zero-padded, parses back to `SeasonTotal`, the signed hundredths total |
| Sleeper.SeasonTotalExample | scripts/generate-leaderboard.js:93-95 | (123, 7) gives the text "123.07" and 12307 hundredths, not 123.7 |
| Text.FixedPointRoundTrip | scripts/generate-leaderboard.js:93-95 | parsing the padded fixed-point text of (whole, frac < 100) gives back the signed hundredths |
| Text.PadStart | scripts/generate-leaderboard.js:94 | `padStart` keeps the string as the suffix, fills the front with the pad character, and reaches the width |
| Text.NatToDecimalRoundTrip | scripts/generate-leaderboard.js:94 | the decimal numeral of n reads back as n |
| Ledger.ApplyMatchup | scripts/generate-leaderboard.js:50-69 | one matchup of a week: skip an unowned roster, else find or create the entry and set its week; stated by `MatchupAssignsWeek` and `MatchupTwice` |
| Ledger.ApplyRoster | scripts/generate-leaderboard.js:77-96 | one roster: find or create the entry and overwrite its total; stated by `RosterKeys` and `RosterAssignsTotal` |
| Ledger.Walk | scripts/generate-leaderboard.js:45-74 | the number of non-empty weeks read before the first empty page, or failure on a throw; stated by `WalkStopsAtEmptyPage` and `WalkAfterPrefix` |
| Ledger.LeagueStep | scripts/generate-leaderboard.js:32-98 | one league: its name, its week walk and its roster pass; stated by `LeagueStepKeeps` (keys, weeks) and `LeagueStepScore` (every key's weekly map and total) |
| Ledger.Run | scripts/generate-leaderboard.js:24-107 | the whole script's output file, or none; stated by `RunSpec` (shape), `RunKeys` (which entries exist), `RunScores` (each entry's weekly map and total) and `RunAbortsOnFailure` |
| Ledger.Find | scripts/generate-leaderboard.js:55-57 | `owners.find` gives the first index with the (name, league) key, and none exactly when no entry has it |
| Ledger.EntryFor | scripts/generate-leaderboard.js:55-67 | find-or-create: the result has an entry with the key; the list is unchanged if the key was there, otherwise one fresh entry is appended; keys stay unique |
| Ledger.MatchupAssignsWeek | scripts/generate-leaderboard.js:50-69 | an unowned matchup changes nothing; an owned one sets exactly `weekly[week]` of its entry (left as is or created) to the rounded starters' sum, and every other entry is unchanged |
| Ledger.MatchupTwice | scripts/generate-leaderboard.js:68 | assignment, not addition: applying the same matchup twice leaves what once left |
| Ledger.MatchupsKeepKeys | scripts/generate-leaderboard.js:50-70 | a week's matchups keep keys unique and every old entry's key in place |
| Ledger.ClaimedMatchups | scripts/generate-leaderboard.js:51-52 | the matchups kept are exactly those whose roster has an owner |
| Ledger.UnclaimedMatchupsIgnored | scripts/generate-leaderboard.js:51-52 | dropping the unowned matchups does not change the result of a week |
| Ledger.LastTotalDefault | scripts/generate-leaderboard.js:96 | a key with no roster keeps its old total, and a key with one does not depend on the old total |
| Ledger.RosterKeys | scripts/generate-leaderboard.js:76-91 | one roster keeps keys unique and in place, leaves its key present, and adds an entry only when the key was missing |
| Ledger.RosterAssignsTotal | scripts/generate-leaderboard.js:93-96 | one roster overwrites exactly its entry's total with its season total; nothing else changes |
| Ledger.RostersKeepKeys | scripts/generate-leaderboard.js:76-97 | the roster pass keeps keys unique and in place |
| Ledger.RostersCoverKeys | scripts/generate-leaderboard.js:76-91 | after the roster pass, every roster, owned or not, has an entry under `userMap[owner_id]` |
| Ledger.RostersNoGrowth | scripts/generate-leaderboard.js:79-82 | when every roster's key already has an entry, no entry is added |
| Ledger.RostersChangeOnlyTotals | scripts/generate-leaderboard.js:96 | the roster pass changes nothing in old entries but their totals; weekly values are untouched |
| Ledger.RostersAddOnlyRosterKeys | scripts/generate-leaderboard.js:82-90 | entries the roster pass adds start with an empty weekly map, in this league and division, under some roster's name |
| Ledger.RostersSetTotals | scripts/generate-leaderboard.js:96 | each total of this league is the last matching roster's season total (old or 0 if none); other leagues' totals are unchanged |
| Ledger.RostersTwice | scripts/generate-leaderboard.js:76-97 | re-running the roster pass changes nothing |
| Ledger.WalkStopsAtEmptyPage | scripts/generate-leaderboard.js:45-48 | a finished walk of k weeks read k non-empty pages and stopped at an empty one; a failed walk met a thrown page after non-empty ones |
| Ledger.WalkAfterPrefix | scripts/generate-leaderboard.js:45-74 | after non-empty pages, an empty page ends the walk at that count and a thrown page fails it |
| Ledger.PagesNonEmptyAll | scripts/generate-leaderboard.js:46-48 | the walk's invariant "pages 1..n non-empty" gives each page in turn |
| Ledger.WeeksFromIndex | scripts/generate-leaderboard.js:72-73 | the recorded week run holds first, first+1, … in order |
| Ledger.WeeksFromOneMembers | scripts/generate-leaderboard.js:72 | weeks 1..n hold exactly the numbers 1 to n |
| Ledger.AddWeeksFromOne | scripts/generate-leaderboard.js:72 | adding weeks 1..b to a set holding 1..a gives 1..max(a, b): no duplicates |
| Ledger.ApplyWeeksNext | scripts/generate-leaderboard.js:47-73 | reading one more non-empty week applies exactly that week's page |
| Ledger.WeeksKeepKeys | scripts/generate-leaderboard.js:45-74 | the week walk keeps keys unique and in place |
| Ledger.IntLeqTotal | scripts/generate-leaderboard.js:103 | `(a, b) => a - b` is a total preorder |
| Ledger.WeeksFromSorted | scripts/generate-leaderboard.js:103 | weeks 1..n are in ascending order |
| Ledger.DivisionNames | scripts/generate-leaderboard.js:105 | `Object.keys(DIVISION_MAP)`: one name per division, in order |
| Ledger.LeagueNames | scripts/generate-leaderboard.js:35-36 | one league name per league id |
| Ledger.LeagueStepKeeps | scripts/generate-leaderboard.js:32-97 | a league that answers keeps keys unique and weeks 1..n, with n the longer of the old run and the league's walk |
| Ledger.SomeLeagueFailsLast | scripts/generate-leaderboard.js:32-34 | some league fails exactly when an earlier one or the last one does |
| Ledger.LeaguesFail | scripts/generate-leaderboard.js:32-39 | a division's leagues produce nothing exactly when one of their requests throws |
| Ledger.LeaguesListNames | scripts/generate-leaderboard.js:35-36 | a division that answers appends its leagues' names, in order, under the division |
| Ledger.LeaguesKeep | scripts/generate-leaderboard.js:32-98 | a division that answers keeps keys unique and weeks 1..n |
| Ledger.HorizonBounds | scripts/generate-leaderboard.js:45-74 | every walk is at most the horizon, and some walk reaches it |
| Ledger.LeaguesWeeks | scripts/generate-leaderboard.js:26-74 | after a division the weeks are exactly 1..n, for n the longest walk so far |
| Ledger.DivisionsHorizonBounds | scripts/generate-leaderboard.js:29-100 | every division's horizon is at most the overall one, and some division reaches it |
| Ledger.SomeDivisionFailsLast | scripts/generate-leaderboard.js:29-32 | some division fails exactly when an earlier one or the last one does |
| Ledger.DivisionsFail | scripts/generate-leaderboard.js:29-113 | the run produces nothing exactly when some request of some league throws |
| Ledger.DivisionsKeep | scripts/generate-leaderboard.js:29-100 | after all divisions, keys are unique and the weeks are 1..n, for n the longest walk |
| Ledger.DivisionKeysLast | scripts/generate-leaderboard.js:29-30 | the division names of a prefix plus the last name are all division names |
| Ledger.DivisionsListKeys | scripts/generate-leaderboard.js:30 | every division gets a `leaguesByDivision` key and no other key is added |
| Ledger.NamesAfterDivision | scripts/generate-leaderboard.js:30-36 | the last division's write leaves earlier divisions' lists intact |
| Ledger.DistinctInit | scripts/generate-leaderboard.js:4-22 | distinct division names stay distinct on a prefix |
| Ledger.DivisionsListNames | scripts/generate-leaderboard.js:30-36 | with distinct division names, each division lists exactly its own league names, in order |
| Ledger.RunSpec | scripts/generate-leaderboard.js:24-107 | the file is absent exactly when a request throws; then `weeks` is 1..n ascending, keys are unique, `divisions` are the map's names, and each division lists its leagues' names |
| Ledger.PagePoints | scripts/generate-leaderboard.js:50-70 | what one page sets for a name: `None` exactly when no claimed matchup of the page is filed under it |
| Ledger.PagePointsLast | scripts/generate-leaderboard.js:50-70 | otherwise the rounded points of the last such matchup, since later ones overwrite earlier ones |
| Ledger.WeeksWeeklyAt | scripts/generate-leaderboard.js:45-74 | after the walk, week w of a name's map is page w's points when w was read and the name played in it, and is otherwise as before |
| Ledger.MatchupScore | scripts/generate-leaderboard.js:50-69 | one matchup sets the week of the key it is filed under; every other key's weekly map and every total stay |
| Ledger.MatchupsScore | scripts/generate-leaderboard.js:50-70 | a page sets each key of the league to `PagePoints` at that week; other leagues' keys and all totals stay |
| Ledger.WeeksScore | scripts/generate-leaderboard.js:45-74 | the week walk sets each key of the league week by week as `WeeksWeekly`; totals stay |
| Ledger.RosterScore | scripts/generate-leaderboard.js:76-97 | one roster overwrites the total of its key; weekly maps and other keys stay |
| Ledger.RostersScore | scripts/generate-leaderboard.js:76-97 | the roster pass leaves each key of the league the total of its last roster; weekly maps stay |
| Ledger.LeagueStepScore | scripts/generate-leaderboard.js:32-98 | one league moves every key's weekly map and total as the reference `LeagueScore` says |
| Ledger.LeaguesStepScore | scripts/generate-leaderboard.js:32-99 | a division's leagues, in order, move every key's scores as `LeaguesScore` says |
| Ledger.DivisionsStepScore | scripts/generate-leaderboard.js:29-100 | all divisions, in order, move every key's scores as `DivisionsScore` says |
| Ledger.ScoreOfEntry | scripts/generate-leaderboard.js:55-57 | with unique keys, the scores found under an entry's own key are that entry's |
| Ledger.RunScores | scripts/generate-leaderboard.js:24-107 | every entry of the written file has the weekly map and total that the leagues carrying its league name give its owner name, in run order |
| Ledger.MatchupKeyIn | scripts/generate-leaderboard.js:50-67 | one matchup adds the key it is filed under when it is claimed, and no other key |
| Ledger.MatchupsKeyIn | scripts/generate-leaderboard.js:50-70 | a page adds exactly the keys of this league with a claimed matchup on it |
| Ledger.PlayedWithinLast | scripts/generate-leaderboard.js:45-74 | a name played within weeks first..first+n exactly when it played within the first n of them or in the last one |
| Ledger.WeeksKeyIn | scripts/generate-leaderboard.js:45-74 | the week walk adds exactly the keys of this league with a claimed matchup on a page it read |
| Ledger.RosterKeyIn | scripts/generate-leaderboard.js:76-91 | one roster, owned or not, adds its own key and no other |
| Ledger.RosterNamedLast | scripts/generate-leaderboard.js:76-97 | some roster is filed under a name exactly when one of the earlier ones is or the last one is |
| Ledger.RostersKeyIn | scripts/generate-leaderboard.js:76-97 | the roster pass adds exactly the keys of this league under which some roster is filed |
| Ledger.LeagueStepKeyIn | scripts/generate-leaderboard.js:32-98 | one league adds exactly the keys `LeagueFiles` names: its name with a roster's name or a name that played on a page it read |
| Ledger.LeaguesFileLast | scripts/generate-leaderboard.js:32-99 | some league of a division files a key exactly when an earlier one or the last one does |
| Ledger.LeaguesStepKeyIn | scripts/generate-leaderboard.js:32-99 | a division's leagues add exactly the keys one of them files |
| Ledger.DivisionsFileLast | scripts/generate-leaderboard.js:29-100 | some division files a key exactly when an earlier one or the last one does |
| Ledger.DivisionsStepKeyIn | scripts/generate-leaderboard.js:29-100 | all divisions add exactly the keys some league of some division files |
| Ledger.RunKeys | scripts/generate-leaderboard.js:24-107 | the written file has an entry for (name, league) exactly when some league read under that name has a roster filed under the name or a claimed matchup filed under it on a page its walk read |
| Ledger.RunAbortsOnFailure | scripts/generate-leaderboard.js:34-113 | any failing league aborts the whole run |
| GenerateLeaderboard.DivisionMapNamesDistinct | scripts/generate-leaderboard.js:4-22 | the five division names are distinct |
| GenerateLeaderboard.FindEntry | scripts/generate-leaderboard.js:55-57 | the search loop returns exactly `Find`'s first matching index |
| GenerateLeaderboard.LedgerBuilder.constructor | scripts/generate-leaderboard.js:25-27 | the accumulators start empty |
| GenerateLeaderboard.LedgerBuilder.EntryIndex | scripts/generate-leaderboard.js:55-67 | the in-place find-or-create gives `EntryFor`'s list and index; nothing else changes |
| GenerateLeaderboard.LedgerBuilder.RecordMatchup | scripts/generate-leaderboard.js:50-69 | one matchup updates `owners` as `ApplyMatchup` |
| GenerateLeaderboard.LedgerBuilder.RecordWeek | scripts/generate-leaderboard.js:50-70 | the `forEach` over a week updates `owners` as `ApplyMatchups` |
| GenerateLeaderboard.LedgerBuilder.ReadWeek | scripts/generate-leaderboard.js:47-73 | one non-empty week extends the ledger and the weeks set by that week |
| GenerateLeaderboard.LedgerBuilder.VisitWeek | scripts/generate-leaderboard.js:46-74 | one loop turn continues on a non-empty page, stops with the walk's count on an empty one, and fails on a throw |
| GenerateLeaderboard.LedgerBuilder.WalkWeeks | scripts/generate-leaderboard.js:45-74 | the `while (true)` loop succeeds exactly when the walk does, applying weeks 1..k and adding 1..k to the set |
| GenerateLeaderboard.LedgerBuilder.RecordRoster | scripts/generate-leaderboard.js:77-96 | one roster updates `owners` as `ApplyRoster` |
| GenerateLeaderboard.LedgerBuilder.AssignTotals | scripts/generate-leaderboard.js:76-97 | the roster `forEach` updates `owners` as `ApplyRosters` |
| GenerateLeaderboard.LedgerBuilder.AddLeague | scripts/generate-leaderboard.js:32-98 | one league succeeds exactly when `LeagueStep` does, and then leaves its state |
| GenerateLeaderboard.LedgerBuilder.StartDivision | scripts/generate-leaderboard.js:30 | starts the division's league list empty and changes nothing else |
| GenerateLeaderboard.FetchLeaderboard | scripts/generate-leaderboard.js:24-107 | the nested loops give exactly `Run` of the division map |
| GenerateLeaderboard.GenerateLeaderboard | scripts/generate-leaderboard.js:4-113 | the script's result is `Run` over its own five-division map |
| LegacyApi.LeagueIdsFor | src/pages/api/leaderboard.js:10 | the league list chosen by the `division` query; stated by `LeagueIdsFallback` |
| LegacyApi.AddMatchup | src/pages/api/leaderboard.js:32-41 | one matchup: create the name's entry if missing and add the points to the week; stated by `MatchupAdds` and `MatchupTwiceAddsTwice` |
| LegacyApi.AddRoster | src/pages/api/leaderboard.js:48-55 | one roster: create the entry if missing, add the total and push a league record; stated by `AddRosterEffect` |
| LegacyApi.Handler | src/pages/api/leaderboard.js:8-63 | the response of the route; stated by `HandlerSpec`, `HandlerKeys` (which names have an entry), `HandlerRecords` and `HandlerWeekly` (each name's week w summed over the leagues) |
| LegacyApi.LeagueIdsFallback | src/pages/api/leaderboard.js:3-10 | an unknown or absent division, and "Division 1", use the default league list; "Division 2" uses its own |
| LegacyApi.MatchupAdds | src/pages/api/leaderboard.js:32-41 | an unowned matchup changes nothing; an owned one creates the name's entry if missing and adds its points to that week only, leaving the total, the records and other names unchanged |
| LegacyApi.MatchupTwiceAddsTwice | src/pages/api/leaderboard.js:40 | addition, not assignment: the same matchup twice adds twice |
| LegacyApi.MatchupsAccumulate | src/pages/api/leaderboard.js:32-42 | a week adds, for each name, the sum of its owned matchups' points to that week only |
| LegacyApi.WeeksKeepTotals | src/pages/api/leaderboard.js:27-45 | the week walk changes no total and no league record |
| LegacyApi.SumPointsAppend | src/pages/api/leaderboard.js:54-55 | the sum of record points distributes over concatenation |
| LegacyApi.AddRosterEffect | src/pages/api/leaderboard.js:47-56 | one roster gives its name's entry one more record `League <id>` with its season total, adding it to the total; other names are unchanged |
| LegacyApi.WithRecordsAppend | src/pages/api/leaderboard.js:54-55 | adding records in two batches equals adding them at once |
| LegacyApi.WithNoRecords | src/pages/api/leaderboard.js:54-55 | adding no records changes nothing |
| LegacyApi.RostersKeys | src/pages/api/leaderboard.js:47-53 | after the roster pass a name has an entry exactly when it had one or some roster files under it |
| LegacyApi.RostersAccumulate | src/pages/api/leaderboard.js:50-55 | the roster pass appends exactly the name's rosters' records and adds their points to its total |
| LegacyApi.TotalsMatchEntryOf | src/pages/api/leaderboard.js:54-55 | under the invariant, every entry's total is the sum of its records' points |
| LegacyApi.WeeksKeepInvariant | src/pages/api/leaderboard.js:27-45 | the week walk keeps "total = sum of records" |
| LegacyApi.RostersKeepInvariant | src/pages/api/leaderboard.js:47-56 | the roster pass keeps "total = sum of records" |
| LegacyApi.SomeLeagueFailsLast | src/pages/api/leaderboard.js:16-19 | some league fails exactly when an earlier one or the last one does |
| LegacyApi.LeaguesFail | src/pages/api/leaderboard.js:15-62 | the league loop produces nothing exactly when some request throws |
| LegacyApi.LeaguesKeepInvariant | src/pages/api/leaderboard.js:16-57 | all leagues keep "total = sum of records" |
| LegacyApi.LeagueStepRecords | src/pages/api/leaderboard.js:47-56 | one league appends exactly its rosters' records for a name |
| LegacyApi.LeaguesCollectRecords | src/pages/api/leaderboard.js:16-57 | a name's records are its rosters' records across all leagues, in league order |
| LegacyApi.LeaguesWeeks | src/pages/api/leaderboard.js:27-45 | the weeks set is exactly 1..n, for n the longest walk |
| LegacyApi.StringOrderTotal | src/pages/api/leaderboard.js:59 | the default sort's order on week numerals is a total preorder |
| LegacyApi.HandlerSpec | src/pages/api/leaderboard.js:8-63 | status 500 with the error message exactly when a request throws; otherwise 200, weeks a string-sorted permutation of 1..n, and every total the sum of its records |
| LegacyApi.KeyPlays | src/pages/api/leaderboard.js:32-42 | some claimed matchup of the page is filed under the key |
| LegacyApi.MatchupsWeekKeys | src/pages/api/leaderboard.js:32-42 | a page puts its week in a key's weekly map exactly when the key played in it |
| LegacyApi.WeeksAccumulate | src/pages/api/leaderboard.js:27-45 | the week walk adds page w's points to a key's week w, lists w exactly when the key played, and leaves other weeks alone |
| LegacyApi.LeagueStepWeeks | src/pages/api/leaderboard.js:16-56 | one league adds its points to a key's week w and lists w once the key played in it |
| LegacyApi.LeaguesCollectWeeks | src/pages/api/leaderboard.js:16-57 | a name's week w is the sum of what every league adds to it, listed once the name played anywhere |
| LegacyApi.HandlerWeekly | src/pages/api/leaderboard.js:27-59 | in the response, each name's week w is the sum over the leagues of its matchups' raw points on page w, and w is present exactly when it played |
| LegacyApi.MatchupsKeys | src/pages/api/leaderboard.js:32-42 | a page creates exactly the names of its claimed matchups |
| LegacyApi.PlaysWithinLast | src/pages/api/leaderboard.js:27-45 | a name played within weeks 1..n exactly when it played within 1..n-1 or in week n |
| LegacyApi.WeeksKeys | src/pages/api/leaderboard.js:27-45 | the week walk creates exactly the names that played on a page it read |
| LegacyApi.LeagueStepKeys | src/pages/api/leaderboard.js:16-56 | one league creates exactly the names of its rosters and the names that played in one of its weeks |
| LegacyApi.LeaguesPlaySomeWeekLast | src/pages/api/leaderboard.js:16-57 | a name played in some week of some league exactly when it did in an earlier league or in the last one |
| LegacyApi.LeaguesKeys | src/pages/api/leaderboard.js:16-57 | the leagues create exactly the names with a roster in one of them or a week played in one of them |
| LegacyApi.HandlerKeys | src/pages/api/leaderboard.js:16-59 | the response has an entry for a name exactly when the name has a roster record in the selected leagues or played in some week of one of them |
| LegacyApi.HandlerRecords | src/pages/api/leaderboard.js:47-56 | each name's `leagues` records are those of its rosters across the selected leagues |
| LegacyApi.WeekTenBeforeWeekTwo | src/pages/api/leaderboard.js:59 | with ten or more weeks, week 10 is listed before week 2 |
| LegacyApi.TwoAfterTen | src/pages/api/leaderboard.js:59 | in string order "2" does not come before "10" |
| LegacyApi.TwoNotBeforeTen | src/pages/api/leaderboard.js:59 | in a string-sorted list, 10 comes before 2 |
| LegacyApi.LegacyHandler.constructor | src/pages/api/leaderboard.js:12-13 | `allOwners` and `weeksSet` start empty |
| LegacyApi.LegacyHandler.RecordMatchup | src/pages/api/leaderboard.js:32-41 | one matchup updates `allOwners` as `AddMatchup` |
| LegacyApi.LegacyHandler.RecordWeek | src/pages/api/leaderboard.js:32-42 | a week's `forEach` updates `allOwners` as `AddMatchups` |
| LegacyApi.LegacyHandler.VisitWeek | src/pages/api/leaderboard.js:28-45 | one loop turn continues on a non-empty page, stops on an empty one, and fails on a throw |
| LegacyApi.LegacyHandler.WalkWeeks | src/pages/api/leaderboard.js:27-45 | the `while (true)` loop succeeds exactly when the walk does, adding weeks 1..k |
| LegacyApi.LegacyHandler.RecordRoster | src/pages/api/leaderboard.js:48-55 | one roster updates `allOwners` as `AddRoster` |
| LegacyApi.LegacyHandler.RecordRosters | src/pages/api/leaderboard.js:47-56 | the roster `forEach` updates `allOwners` as `AddRosters` |
| LegacyApi.LegacyHandler.AddLeague | src/pages/api/leaderboard.js:16-56 | one league succeeds exactly when `LeagueStep` does, and then leaves its state |
| LegacyApi.Handle | src/pages/api/leaderboard.js:8-63 | the handler's loops give exactly the response `Handler` describes |
| YearStats.MinSize | src/utils/computeYearStats.js:12-21 | `minByMode[mode] ?? 0` after the defaults are overlaid by the overrides; stated by `MinSizeOrder` |
| YearStats.StatOf | src/utils/computeYearStats.js:17-44 | one year's `totalTeams` and `uniqueOwners`; stated by `UniqueOwnersBound`, `YearNamesFull` and `ComputeYear` |
| YearStats.MinSizeOrder | src/utils/computeYearStats.js:4-21 | the threshold is the override if given, else the default, else 0 (big_game 10, dynasty 12) |
| YearStats.LeaguesMembers | src/utils/computeYearStats.js:30-33 | a league name is listed exactly when some entry has it |
| YearStats.InLeagueMembers | src/utils/computeYearStats.js:31-32 | a league's group holds exactly the entries with that league name |
| YearStats.LeagueKeysMembers | src/utils/computeYearStats.js:29-33 | the `byLeague` keys are distinct, and are exactly the league names present, in first-seen order |
| YearStats.ListsStep | src/utils/computeYearStats.js:31-32 | one entry keeps every group equal to its league's entries |
| YearStats.GroupByLeague | src/utils/computeYearStats.js:29-33 | the grouping loop gives keys in first-seen order, and each group is exactly its league's entries, in order |
| YearStats.HitsOnce | src/utils/computeYearStats.js:36-38 | a listed league counts once toward an entry's tally if full, otherwise not at all |
| YearStats.KeysSumCountsFull | src/utils/computeYearStats.js:36-41 | summing group sizes over full groups counts exactly the entries in full leagues |
| YearStats.LeagueKeysCover | src/utils/computeYearStats.js:29-33 | every entry's league is a key: every entry lands in a group |
| YearStats.ModeTeamsCountsFull | src/utils/computeYearStats.js:36-39 | a mode's teams are the entries whose league is full |
| YearStats.FullCountAll | src/utils/computeYearStats.js:21-37 | with threshold 0 or less, every entry counts |
| YearStats.GroupSizesSum | src/utils/computeYearStats.js:29-33 | the group sizes sum to the entry count |
| YearStats.KeysNamesMembers | src/utils/computeYearStats.js:36-40 | a name is collected exactly when some entry with it sits in a full, listed league |
| YearStats.ModeNamesFull | src/utils/computeYearStats.js:37-40 | a mode's names are exactly those of entries in full leagues: all or nothing per league |
| YearStats.NamesOfBound | src/utils/computeYearStats.js:39 | a group has no more distinct names than entries |
| YearStats.KeysNamesBound | src/utils/computeYearStats.js:36-40 | the names collected are no more than the team count |
| YearStats.ModeNamesBound | src/utils/computeYearStats.js:36-40 | per mode, the distinct names are at most its teams |
| YearStats.YearNamesStep | src/utils/computeYearStats.js:20-42 | one more mode adds its names to the year's set |
| YearStats.UnionMembers | src/utils/computeYearStats.js:18-39 | a name is in the year's set exactly when some mode collected it |
| YearStats.UniqueOwnersBound | src/utils/computeYearStats.js:44 | `uniqueOwners` is at most `totalTeams` |
| YearStats.YearNamesFull | src/utils/computeYearStats.js:18-42 | the year's names are the union of the modes' full-league names |
| YearStats.EmptyModeAddsNothing | src/utils/computeYearStats.js:26 | a mode without owners changes neither count |
| YearStats.AddNames | src/utils/computeYearStats.js:39 | the add loop gives the old set plus the group's names |
| YearStats.CountMode | src/utils/computeYearStats.js:29-41 | one mode's loops add exactly its full-league team count and names |
| YearStats.AddMode | src/utils/computeYearStats.js:20-42 | one more mode extends the running counts to that prefix of modes |
| YearStats.ComputeYear | src/utils/computeYearStats.js:17-44 | one year's loops give `totalTeams` (the sum over modes of full-group sizes) and `uniqueOwners` (the distinct full-league names) |
| YearStats.ComputeYearStats | src/utils/computeYearStats.js:14-47 | the result has exactly one key per input year, each computed from that year alone |
| Audit.ParseArg | test.js:17-19 | one `--k=v` or `--k` argument as a key and a value; stated by `ParseArgRoundTrip` |
| Audit.SelectYear | test.js:613-616 | the categories of the chosen year, or none when the year is unknown; stated by `YearChoice` and `SpacedYearIsFatal` |
| Audit.RetryFrom | test.js:561-577 | the outcome of the retry loop from attempt i on; stated by `RetryFromFacts` and `RetryOutcome` |
| Audit.LoadBundle | test.js:580-609 | one league's bundle, or none when it could not be fetched; stated by `BundleFacts` |
| Audit.CompareOwners | test.js:747-755 | the sort comparator; `OwnerOrderTotal` proves it a total preorder |
| Audit.Row | test.js:759-762 | one CSV line; stated by `RowReadsBack` |
| Audit.Split | test.js:18 | `split("=")` gives at least one piece |
| Audit.SplitJoin | test.js:18 | joining the pieces gives the string back, and no piece holds the separator |
| Audit.SplitFirst | test.js:18 | splitting `a=b` with no '=' in a gives a, then the pieces of b |
| Audit.ParseArgRoundTrip | test.js:17-19 | `--k=v` parses to (k, v) and `--k` to (k, true) |
| Audit.YearChoice | test.js:16-22 | with no arguments the year is "2025"; `--year=y` selects y |
| Audit.SpacedYearIsFatal | test.js:16-22 | `--year 2025` gives the year "true", which a map without that key rejects |
| Audit.RetryFromFacts | test.js:561-577 | from attempt i the loop returns the first success or rethrows the last failure, after only failures |
| Audit.RetryOutcome | test.js:561-577 | at most `retries` attempts; the first success is returned, a run of failures rethrows the last; with `retries` ≤ 0 the result is undefined; any success in the window is returned |
| Audit.WaitsGrow | test.js:572 | one wait per failed attempt, the k-th `500*(k+1)` ms |
| Audit.WaitsTotal | test.js:572-574 | n failed attempts wait `250*n*(n+1)` ms in all |
| Audit.GetWithRetry | test.js:561-577 | the retry loop returns `RetryFrom`'s outcome and sleeps exactly the waits before each later attempt |
| Audit.BundleFacts | test.js:580-609 | a bundle exists when the fetch and the info answered; `owned` counts truthy owner ids; `total` falls back to the roster count; full ⟺ owned = total > 0; `ownerIds` lists exactly the owned ids, none empty; the name falls back to `League <id>` |
| Audit.FullBundleSeats | test.js:592-598 | a full bundle lists as many owner ids as it has rosters |
| Audit.StrLessAsymmetric | test.js:751 | the string order is asymmetric |
| Audit.StrLeqTransitive | test.js:751 | "not after" is transitive |
| Audit.OwnerOrderTotal | test.js:748-755 | the comparator is a total preorder |
| Audit.SortOwners | test.js:747-755 | the sorted ids are a permutation of the unique ids, ordered by the comparator |
| Audit.SortOwnersStable | test.js:747-755 | ids whose names compare equal keep their input order, as the stable `Array.prototype.sort` keeps them |
| Audit.NamedFirst | test.js:752-753 | after sorting, every named id comes before every unnamed one |
| Audit.NamedInOrder | test.js:749-751 | named ids are in order of lower-cased name |
| Audit.NamelessInOrder | test.js:748-754 | ids without a name are in order of the id itself |
| Audit.RowReadsBack | test.js:759-762 | a row reads back as its number i+1, then the quoted id, the quoted name with its quotes doubled, and the count |
| Audit.CsvLines | test.js:758-763 | the header is `No.,user_id,display_name,team_count`, followed by one row per id, numbered 1..n, in order |
| Text.StrLessIrreflexive | test.js:751 | the string order used in place of `localeCompare` is irreflexive |
| Text.StrLessTransitive | test.js:751 | the string order is transitive |
| Text.StrLessTotal | test.js:751 | any two different strings are ordered one way or the other |
| Text.StrCompare | test.js:751 | the comparison is 0, negative or positive exactly when the strings are equal, the first comes before, or the second does |
| Text.IntToDecimalInjective | src/pages/api/leaderboard.js:59 | different week numbers have different numerals |
| Text.EscapeQuotes | test.js:760 | escaping never shortens, and leaves a string without quotes unchanged |
| Text.QuotedFieldRoundTrip | test.js:760-762 | a quoted name, with its quotes doubled, reads back as the name |
| AuditRun.Tally | test.js:668-699 | one bundle's effect on the first-pass counters; stated by `TallyEffect` |
| AuditRun.TallyAll | test.js:635-706 | the first pass over every bundle; stated by `TallyAllFacts` |
| AuditRun.Occ | test.js:726-744 | an id's recount over the refetched full leagues; stated by `OccNext` and `CountsReconcile` |
| AuditRun.FirstNameAppend | test.js:689-690 | a later bundle sets an id's name only if none was set and it has a non-empty one |
| AuditRun.FirstNameKept | test.js:690 | once set, an id's name is never replaced |
| AuditRun.AddOwnersEffect | test.js:685-691 | the owner loop adds the non-empty ids to the set and the first non-empty names, changing no counter |
| AuditRun.TallyEffect | test.js:668-699 | one bundle: every bundle counts, only full ones count as full and add their seats, ids and names |
| AuditRun.TallyAllFacts | test.js:668-699 | `leaguesTotal` counts every bundle, failed ones included; `leaguesFull` counts full ones (≤ total); teams are the full leagues' seats; the ids are exactly the non-empty ids of full leagues, distinct; the names are the first non-empty ones |
| AuditRun.NamedAreCollected | test.js:685-690 | every named id is in the unique-id set |
| AuditRun.FirstNameFound | test.js:689-690 | a recorded name comes from some bundle naming the id |
| AuditRun.NameNeverReplaced | test.js:689-690 | later leagues never replace a recorded name |
| AuditRun.CountSumAll | test.js:733-735 | counting a list over distinct ids that cover it gives its length |
| AuditRun.OccSumStep | test.js:732-736 | a full bundle adds its listed ids' counts |
| AuditRun.OccSumListed | test.js:726-744 | over ids covering every full league, the counts sum to the owner ids listed |
| AuditRun.ListedSeats | test.js:681-682 | when each full league lists one id per roster, the ids listed equal the seats |
| AuditRun.LoadedListsSeats | test.js:592-598 | loaded bundles list as many ids as seats, none empty |
| AuditRun.CountsReconcile | test.js:716-744 | with the same data, the recounted counts sum to `teamsTotalFullLeagues` |
| AuditRun.TallyNext | test.js:668-699 | tallying one more bundle extends the running totals |
| AuditRun.OccNext | test.js:733-736 | one more bundle adds its occurrences of the id when full |
| AuditRun.IdsNext | test.js:635-650 | the league ids of one more category follow those before it |
| AuditRun.DivisionIdsNext | test.js:649-651 | the league ids of one more division follow those before it |
| AuditRun.Auditor.constructor | test.js:625-633 | the counters start at zero, and the set and the name map start empty |
| AuditRun.Auditor.AddOwner | test.js:686-690 | one owner id updates the set and the name map as `AddOwnerTo` |
| AuditRun.Auditor.RecordBundle | test.js:668-699 | one bundle updates the counters as `Tally` |
| AuditRun.TallyDivision | test.js:655-699 | a division's bundles extend the tally over its league ids |
| AuditRun.TallyCategory | test.js:635-706 | a category's divisions extend the tally over its league ids |
| AuditRun.FirstPass | test.js:622-706 | the first pass gives exactly `TallyAll` over every league of every category |
| AuditRun.CountBundle | test.js:731-738 | a full refetched bundle adds one per listed known id |
| AuditRun.CountDivision | test.js:729-742 | a division's leagues keep the counts equal to the occurrences so far |
| AuditRun.CountCategory | test.js:727-743 | a category's divisions keep the counts equal to the occurrences so far |
| AuditRun.ZeroCounts | test.js:716-723 | every unique or named id starts at 0, and no other key exists |
| AuditRun.Recount | test.js:716-744 | the keys are the unique and named ids; each unique id's count is its occurrences in the full refetched leagues |
| AuditRun.RunAudit | test.js:612-765 | nothing when the year is unknown; otherwise the header and one row per unique id in sorted order, with its first name and recounted teams |
| Snapshots.MergePart | src/components/Leaderboard.js:76-82 | one part overlaid on the combined data; stated by `MergeLookup` |
| Snapshots.MergeAll | src/components/Leaderboard.js:69-86 | all parts overlaid in turn; stated by `MergeTwo`, `MergeCommutes` and `WeekSplitDoesNotCommute` |
| Snapshots.ReadFrom | src/components/Leaderboard.js:69-85 | the parts read from part i on; stated by `ReadFromLength` and `ReadFromParts` |
| Snapshots.MergeLookup | src/components/Leaderboard.js:76-81 | after one part, a league's value is the part's if present, else the old one; years and modes are the union |
| Snapshots.SameTable | src/components/Leaderboard.js:76-81 | two tables with the same keys at every depth and the same leagues are equal |
| Snapshots.MergeTwo | src/components/Leaderboard.js:69-86 | merging two parts in turn is merging the first, then the second |
| Snapshots.MergeTwoLookup | src/components/Leaderboard.js:76-81 | after two parts a league's value comes from the later part that has it |
| Snapshots.MergeCommutes | src/components/Leaderboard.js:76-81 | parts disjoint at (year, mode, league) merge to the same table in either order |
| Snapshots.WeekSplitDoesNotCommute | src/components/Leaderboard.js:80 | one league's weeks split over two parts: the later part's value replaces the whole league |
| Snapshots.ReadFromLength | src/components/Leaderboard.js:69-86 | the probe reads at most the remaining parts, stops at an unreadable reply before 20, and makes one request more than the parts it read unless it reached part 20 |
| Snapshots.ReadFromParts | src/components/Leaderboard.js:72-75 | each read part is the body of the matching readable reply |
| Snapshots.ProbeOrder | src/components/Leaderboard.js:69-75 | at most 20 parts, read in order 1, 2, … from readable replies |
| Snapshots.ProbeStops | src/components/Leaderboard.js:69-85 | the probe stops at the first 404, non-ok reply or throw, and makes 1 to 20 requests |
| Snapshots.WeeklyCache.constructor | src/components/Leaderboard.js:60 | the cache starts empty |
| Snapshots.WeeklyCache.LoadWeeklyData | src/components/Leaderboard.js:63-89 | a filled cache is returned with no request; otherwise the probed parts are merged, cached and returned |
| Snapshots.MergeYearsNext | src/components/Leaderboard.js:76-77 | merging one more year sets exactly that year |
| Snapshots.MergeModesNext | src/components/Leaderboard.js:78-80 | merging one more mode overlays its leagues on the old ones |
| Snapshots.MergeInto | src/components/Leaderboard.js:76-82 | the year loop merges one part as `MergePart` |
| Snapshots.MergeModesInto | src/components/Leaderboard.js:78-81 | the mode loop overlays each mode's leagues |
| Text.ToLower | src/components/Leaderboard.js:20 | lower-casing keeps the length and maps each character |
| Text.Trim | src/components/Leaderboard.js:20 | trimming gives a contiguous part of the string with no white space at either end, and everything cut off on either side is white space |
| Text.ContainsAt | src/components/Leaderboard.js:25 | `includes` holds exactly when the query occurs at some index |
| Text.StartsWithContains | src/components/Leaderboard.js:32-33 | a prefix match is a substring match |
| LeaderboardView.FilteredOwners | src/components/Leaderboard.js:20-26 | the owners kept by the search; stated by `FilteredOwnersFacts` and `QueryCaseInsensitive` |
| LeaderboardView.Candidates | src/components/Leaderboard.js:28-33 | `[...starts, ...includes]`; stated by `CandidatesDistinct`, `CandidatesOrder`, `CandidatesMatch` and `CandidatesComplete` |
| LeaderboardView.Suggestions | src/components/Leaderboard.js:28-35 | the at most 8 suggestions; stated by `SuggestionsPrefix` and the `Suggestions*` lemmas |
| LeaderboardView.PageRows | src/components/Leaderboard.js:47-49 | the rows of one page; stated by `PageRowsFacts` and `EveryRowOnAPage` |
| LeaderboardView.PrevPage | src/components/Leaderboard.js:268 | `Math.max(p - 1, 1)`; stated by `PagesStayInRange` |
| LeaderboardView.NextPage | src/components/Leaderboard.js:276 | `Math.min(p + 1, totalPages)`; stated by `PagesStayInRange` |
| LeaderboardView.FilteredOwnersFacts | src/components/Leaderboard.js:20-26 | an empty query keeps every owner; otherwise an owner is kept exactly when its normalised name contains the normalised query |
| LeaderboardView.ToLowerIdempotent | src/components/Leaderboard.js:20 | lower-casing twice is lower-casing once |
| LeaderboardView.QueryCaseInsensitive | src/components/Leaderboard.js:20-26 | the filter ignores the query's case |
| LeaderboardView.CandidatesDistinct | src/components/Leaderboard.js:30-34 | `[...starts, ...includes]` has no repeats |
| LeaderboardView.CandidatesOrder | src/components/Leaderboard.js:32-34 | prefix matches come before every other match |
| LeaderboardView.CandidatesMatch | src/components/Leaderboard.js:30-33 | every candidate is some owner's name and contains the query |
| LeaderboardView.CandidatesComplete | src/components/Leaderboard.js:30-33 | every owner whose name contains the query is a candidate |
| LeaderboardView.SuggestionsPrefix | src/components/Leaderboard.js:28-35 | a blank query shows nothing; otherwise the first (at most 8) candidates |
| LeaderboardView.SuggestionsDistinct | src/components/Leaderboard.js:30-34 | suggestions are distinct |
| LeaderboardView.SuggestionsMatch | src/components/Leaderboard.js:30-34 | each suggestion is an owner's name containing the query |
| LeaderboardView.SuggestionsOrder | src/components/Leaderboard.js:32-34 | prefix matches come first among the suggestions |
| LeaderboardView.SuggestionsComplete | src/components/Leaderboard.js:30-34 | with fewer than 8 suggestions, every matching owner's name is suggested |
| LeaderboardView.TotalPages | src/components/Leaderboard.js:47 | at least 1 page, and the fewest pages of 15 that hold every row |
| LeaderboardView.SliceIndex | src/components/Leaderboard.js:49 | `slice` indices are clamped into the list |
| LeaderboardView.PageRowsFacts | src/components/Leaderboard.js:48-49 | a page shows at most 15 rows, the ones starting at (page−1)·15, and a full 15 unless it is the last |
| LeaderboardView.EveryRowOnAPage | src/components/Leaderboard.js:47-49 | each row is on exactly one page, and that page is in range |
| LeaderboardView.PagesStayInRange | src/components/Leaderboard.js:268-276 | Prev and Next keep the page in 1..totalPages and move it by one unless at an end |
| LeaderboardView.Pager.constructor | src/components/Leaderboard.js:40 | the page starts at 1 |
| LeaderboardView.Pager.Reset | src/components/Leaderboard.js:43-45 | a change of query, year or category returns to page 1 |
| LeaderboardView.Pager.Prev | src/components/Leaderboard.js:268 | back one page, never below 1 |
| LeaderboardView.Pager.Next | src/components/Leaderboard.js:276 | forward one page, never past the last |
| LeaderboardView.WindowMovesKeepOk | src/components/Leaderboard.js:108-118 | both moves keep the start a non-negative multiple of 3, and before `maxWeeks` unless 0 |
| LeaderboardView.WindowContents | src/components/Leaderboard.js:104 | the window holds at most 3 consecutive weeks from its start, and is non-empty when it should show weeks |
| LeaderboardView.WeekWindow.constructor | src/components/Leaderboard.js:55 | the window starts at week 0 |
| LeaderboardView.WeekWindow.NextWeeks | src/components/Leaderboard.js:108-112 | moves forward by 3 only when the new start stays before `maxWeeks` |
| LeaderboardView.WeekWindow.PrevWeeks | src/components/Leaderboard.js:114-118 | moves back by 3, never below 0 |
| Sorting.SortBy | src/pages/api/leaderboard.js:59 | a sort by any total preorder is a sorted permutation |
| Sorting.SortByStable | src/pages/api/leaderboard.js:59 | the sort is stable: the elements that tie with any given one appear in the order they had in the input |
| Sorting.SortSorted | scripts/generate-leaderboard.js:103 | sorting an already sorted list leaves it unchanged |
| Collections.Dedup | src/components/Leaderboard.js:30 | `Array.from(new Set(s))`: distinct, with the same members, and no longer than the input |
| Collections.DedupFirstSeen | src/components/Leaderboard.js:30 | `Dedup` lists the elements in the order of their first occurrence |
| Collections.LastWins | scripts/generate-leaderboard.js:41 | a map built by assignment has every key, and the last value for each |
| Collections.Filter | src/components/Leaderboard.js:25 | `filter` keeps exactly the members satisfying the test |

## Left out

- HTTP requests (`axios`, `fetch`), timeouts, and the sleeping between retries. Replies are
  inputs, given as functions from a request to its outcome. The retry waits are returned as a
  list, not slept.
- `p-limit` concurrency and `Promise.all`. Bundles are processed in list order, which is the
  order the awaited results are consumed in.
- Floating point. `toFixed`, `parseFloat` and sums of `starters_points` are modelled in
  integer hundredths (ten-thousandths for raw sums).
- The sorting of owners by float total (src/components/Leaderboard.js:11). The search works on
  the list it is given.
- `localeCompare`, and the default `sort` of the API route: both are replaced by the code-point
  order `Text.StrLess`, which is a total order. The default `sort` compares UTF-16 code units;
  the two orders differ only where a character above U+FFFF meets one in U+E000 to U+FFFF, and
  they agree on the decimal week numerals, the only strings the route sorts.
- Unicode case mapping: `toLowerCase` maps the ASCII letters only.
- Text.Trim: white space is `Text.IsSpace`, that is tab, line feed, vertical tab, form feed,
  carriage return, space, U+00A0, U+2028, U+2029 and U+FEFF. JavaScript's `trim` also strips
  U+1680, U+2000 to U+200A, U+202F, U+205F and U+3000, which the model keeps.
- File writes, console logging and timestamps. The per-category `cat*` counters in `test.js`
  exist only for logging.
- The literal league tables in `test.js` (`LEAGUE_MAP`) are a parameter. The league-ID list of
  `generate-leaderboard.js` is kept as a constant.
- React rendering, `OwnerModal`, `Navbar`, `LeaderboardTable`, the other pages, the context
  provider and the fetch wrapper.
- `handleWeeklyClick`, `highlight`, the enabled state of the pager buttons, and
  `showLeagueColumn`: presentation only.
- `visibleWeeksStart` is not reset when the data changes; the model does not reset it either.
- `leaguesByDivision` is read but unused by `computeYearStats`, and so is not modelled.
- Mode keys that collide with JavaScript prototype properties in `minByMode`, and override
  values that are `null` or `undefined`. The override table is a map to integers.
- LegacyApi.RosterKey: in the API route a roster whose `owner_id` is `null` is looked up as the
  user id `"null"`; the model treats it as having no user. A missing display name becomes the
  key `"undefined"`, as in the source.
- Ledger.RosterName: in `generate-leaderboard.js` the roster pass looks up `userMap[owner_id]`
  without checking the id (scripts/generate-leaderboard.js:78), so a `null` id finds a user
  whose id is the string `"null"`. The model gives such a roster no name (`None`).
- LegacyApi.LeagueIdsFor: a `division` query equal to an `Object.prototype` property name
  (`constructor`, `toString`, `__proto__`, …) makes `DIVISION_MAP[division]` an inherited,
  non-iterable value (src/pages/api/leaderboard.js:10); the loop then throws and the route
  answers 500. The model picks the default league list for every name not in the map.
- Sleeper.LeagueInfo: a league whose info has no `name` gives `undefined` in the source, which
  is pushed into `leaguesByDivision` and written as `null` (scripts/generate-leaderboard.js:35-36).
  The model's league name is always a string, so an absent name is `""`.
- Sleeper.User: a user's `display_name` is always a string, so a user without one, whose name the
  source reads as `undefined`, is not represented.
- LegacyApi.AddMatchup, LegacyApi.AddRoster: a display name equal to an `Object.prototype`
  property (`constructor`, `toString`, …) finds an inherited value in `allOwners`, so no entry is
  created and the following `.weekly[week]` or `.leagues.push` throws
  (src/pages/api/leaderboard.js:37-40, :51-55); the route then answers 500. The model creates a
  fresh entry for every name.
- Audit.SelectYear: a `--year` equal to an `Object.prototype` property (`constructor`, …) makes
  `LEAGUE_MAP[YEAR]` truthy (test.js:613), and `Object.entries` of it is empty, so the source
  writes a CSV with only the header. The model treats such a year as absent and stops the run.
- Ledger.Walk, Ledger.LeagueFeed: a feed is a finite list of pages and every week past its end
  reads as an empty page. The model so assumes that the API eventually returns an empty week;
  for a league that kept answering non-empty lists, the source's `while (true)` would never end
  (scripts/generate-leaderboard.js:46-48, src/pages/api/leaderboard.js:28-30).
- Aliasing in place: the script mutates entries it found through `owners.find`. The model
  replaces the entry at that index, which has the same effect because each entry is reachable
  only through the list.
- Audit.RowReadsBack: it assumes the id holds no `"`, because a CSV row with a quote in the
  id does not read back.
- Snapshots.MergeCommutes: it is stated for two parts that are disjoint at league level, not
  for any number of parts.

/**
 * `src/pages/api/leaderboard.js`: the older API route that builds a
 * leaderboard for one division on request. Unlike the script, it files
 * entries under the display name alone, so one owner's leagues share an
 * entry, and it ADDS weekly points and season totals instead of assigning
 * them.
 *
 * Units: weekly points are the raw `starters_points` sums, in
 * ten-thousandths (this route does not round them); totals and the
 * per-league records are in hundredths.
 */
module LegacyApi {
  import opened Wrappers
  import opened Collections
  import opened Sleeper
  import opened Sorting
  import Text
  import Ledger

  /** The route's own `DIVISION_MAP`. */
  const DivisionMap: map<string, seq<string>> := map[
    "Division 1" := ["1078876267329482752"],
    "Division 2" := ["1120744406925012992"]]

  /** The league list used when no known division is asked for. */
  const DefaultLeagues: seq<string> := ["1078876267329482752"]

  /** `division && DIVISION_MAP[division] ? DIVISION_MAP[division] : [...]`; an absent query is `None`. */
  function LeagueIdsFor(division: Option<string>): seq<string>
  {
    if division.Some? && division.value != "" && division.value in DivisionMap then DivisionMap[division.value]
    else DefaultLeagues
  }

  /** Only "Division 2" leaves the default list; an absent, unknown or empty division falls back to it. */
  lemma LeagueIdsFallback(division: Option<string>)
    ensures division != Some("Division 2") ==> LeagueIdsFor(division) == DefaultLeagues
    ensures division == Some("Division 2") ==> LeagueIdsFor(division) == ["1120744406925012992"]
  {
    if division.Some? && division.value in DivisionMap {
      assert division.value == "Division 1" || division.value == "Division 2";
    }
  }

  /** `{ league_name, points }`, pushed once per roster. */
  datatype LeagueRecord = LeagueRecord(leagueName: string, points: int)

  /** `{ weekly, total, leagues }`. */
  datatype NameEntry = NameEntry(weekly: map<int, int>, total: int, leagues: seq<LeagueRecord>)

  const EmptyEntry := NameEntry(map[], 0, [])

  /** The property key `allOwners[name]` uses: an undefined name becomes "undefined". */
  function PropertyKey(name: Option<string>): string
  {
    if name.Some? then name.value else "undefined"
  }

  /** `allOwners[key]`, or the fresh entry the route creates when it is missing. */
  function EntryOf(owners: map<string, NameEntry>, key: string): NameEntry
  {
    if key in owners then owners[key] else EmptyEntry
  }

  /** `weekly[week] || 0`. */
  function WeekPoints(e: NameEntry, week: int): int
  {
    if week in e.weekly then e.weekly[week] else 0
  }

  /** `League <id>`. */
  function LeagueLabel(leagueId: string): string
  {
    "League " + leagueId
  }

  /** What one league's pass reads: its id and the two lookups. */
  datatype LeagueMaps = LeagueMaps(leagueId: string, userMap: map<string, string>, rosterMap: map<int, Option<string>>)

  // ------------------------------------------------------------ matchups

  /** The key a claimed matchup is filed under. */
  function MatchupKey(lm: LeagueMaps, m: Matchup): string
  {
    PropertyKey(DisplayName(lm.userMap, OwnerOfRoster(lm.rosterMap, m.rosterId)))
  }

  function MatchupClaimed(lm: LeagueMaps, m: Matchup): bool
  {
    Claimed(OwnerOfRoster(lm.rosterMap, m.rosterId))
  }

  /** The body of `matchups.forEach`: add the raw starters' sum to the entry's week. */
  function AddMatchup(owners: map<string, NameEntry>, lm: LeagueMaps, week: int, m: Matchup): map<string, NameEntry>
  {
    if !MatchupClaimed(lm, m) then owners
    else
      var key := MatchupKey(lm, m);
      var e := EntryOf(owners, key);
      owners[key := e.(weekly := e.weekly[week := WeekPoints(e, week) + StartersSum(m)])]
  }

  function AddMatchups(owners: map<string, NameEntry>, lm: LeagueMaps, week: int, ms: seq<Matchup>): map<string, NameEntry>
  {
    if ms == [] then owners
    else AddMatchup(AddMatchups(owners, lm, week, ms[..|ms| - 1]), lm, week, ms[|ms| - 1])
  }

  /**
   * A claimed matchup ADDS its starters' sum to its key's week, creating
   * the entry if needed; no other week, total, record or key changes. An
   * unclaimed one changes nothing.
   */
  lemma MatchupAdds(owners: map<string, NameEntry>, lm: LeagueMaps, week: int, m: Matchup)
    ensures !MatchupClaimed(lm, m) ==> AddMatchup(owners, lm, week, m) == owners
    ensures MatchupClaimed(lm, m) ==>
              var r := AddMatchup(owners, lm, week, m);
              var key := MatchupKey(lm, m);
              var before := EntryOf(owners, key);
              && r.Keys == owners.Keys + {key}
              && WeekPoints(r[key], week) == WeekPoints(before, week) + StartersSum(m)
              && (forall w :: w != week ==> WeekPoints(r[key], w) == WeekPoints(before, w))
              && r[key].total == before.total && r[key].leagues == before.leagues
              && (forall k :: k != key ==> EntryOf(r, k) == EntryOf(owners, k))
  {
  }

  /** Unlike the script's assignment, the same matchup seen twice counts twice. */
  lemma MatchupTwiceAddsTwice(owners: map<string, NameEntry>, lm: LeagueMaps, week: int, m: Matchup)
    requires MatchupClaimed(lm, m)
    ensures var twice := AddMatchup(AddMatchup(owners, lm, week, m), lm, week, m);
            var key := MatchupKey(lm, m);
            WeekPoints(twice[key], week) == WeekPoints(EntryOf(owners, key), week) + 2 * StartersSum(m)
  {
    MatchupAdds(owners, lm, week, m);
    MatchupAdds(AddMatchup(owners, lm, week, m), lm, week, m);
  }

  /** Reference definition: the raw points of the claimed matchups of `ms` filed under `key`. */
  function KeyPoints(lm: LeagueMaps, ms: seq<Matchup>, key: string): int
  {
    if ms == [] then 0
    else
      var m := ms[|ms| - 1];
      KeyPoints(lm, ms[..|ms| - 1], key) + (if MatchupClaimed(lm, m) && MatchupKey(lm, m) == key then StartersSum(m) else 0)
  }

  /**
   * A week's page adds to each key's week the sum of its claimed matchups'
   * points, and leaves that key's other weeks, total and records alone.
   */
  lemma {:induction false} MatchupsAccumulate(owners: map<string, NameEntry>, lm: LeagueMaps, week: int, ms: seq<Matchup>, key: string)
    ensures var after := EntryOf(AddMatchups(owners, lm, week, ms), key);
            var before := EntryOf(owners, key);
            && WeekPoints(after, week) == WeekPoints(before, week) + KeyPoints(lm, ms, key)
            && (forall w :: w != week ==> WeekPoints(after, w) == WeekPoints(before, w))
            && after.total == before.total && after.leagues == before.leagues
    decreases |ms|
  {
    if ms != [] {
      var mid := AddMatchups(owners, lm, week, ms[..|ms| - 1]);
      MatchupsAccumulate(owners, lm, week, ms[..|ms| - 1], key);
      MatchupAdds(mid, lm, week, ms[|ms| - 1]);
    }
  }

  /** Weeks 1..count, each week's page added in turn. */
  function ApplyWeeks(owners: map<string, NameEntry>, lm: LeagueMaps, feed: Ledger.LeagueFeed, count: nat): map<string, NameEntry>
  {
    if count == 0 then owners
    else AddMatchups(ApplyWeeks(owners, lm, feed, count - 1), lm, count, Ledger.Page(feed, count).GetOr([]))
  }

  /** Some claimed matchup of `ms` is filed under `key`. */
  function KeyPlays(lm: LeagueMaps, ms: seq<Matchup>, key: string): (r: bool)
    ensures r <==> exists j :: 0 <= j < |ms| && MatchupClaimed(lm, ms[j]) && MatchupKey(lm, ms[j]) == key
  {
    if ms == [] then false
    else
      var b := KeyPlays(lm, ms[..|ms| - 1], key);
      assert forall j :: 0 <= j < |ms| - 1 ==> ms[..|ms| - 1][j] == ms[j];
      b || (MatchupClaimed(lm, ms[|ms| - 1]) && MatchupKey(lm, ms[|ms| - 1]) == key)
  }

  /** A week's page puts its week in a key's weekly map exactly when the key played in it. */
  lemma {:induction false} MatchupsWeekKeys(owners: map<string, NameEntry>, lm: LeagueMaps, week: int, ms: seq<Matchup>, key: string)
    ensures EntryOf(AddMatchups(owners, lm, week, ms), key).weekly.Keys
            == EntryOf(owners, key).weekly.Keys + (if KeyPlays(lm, ms, key) then {week} else {})
    decreases |ms|
  {
    if ms != [] {
      MatchupsWeekKeys(owners, lm, week, ms[..|ms| - 1], key);
    }
  }

  /**
   * The week walk over weeks 1..count adds to a key's week w the points of
   * page w filed under it, and puts w in its weekly map exactly when the key
   * played in page w; weeks outside 1..count, the total and the records stay.
   */
  lemma {:induction false} WeeksAccumulate(owners: map<string, NameEntry>, lm: LeagueMaps, feed: Ledger.LeagueFeed, count: nat,
                                           key: string, w: int)
    ensures var after := EntryOf(ApplyWeeks(owners, lm, feed, count), key);
            var before := EntryOf(owners, key);
            var page := Ledger.Page(feed, w).GetOr([]);
            && WeekPoints(after, w) == WeekPoints(before, w) + (if 1 <= w <= count then KeyPoints(lm, page, key) else 0)
            && (w in after.weekly <==> w in before.weekly || (1 <= w <= count && KeyPlays(lm, page, key)))
    decreases count
  {
    if count > 0 {
      var mid := ApplyWeeks(owners, lm, feed, count - 1);
      WeeksAccumulate(owners, lm, feed, count - 1, key, w);
      MatchupsAccumulate(mid, lm, count, Ledger.Page(feed, count).GetOr([]), key);
      MatchupsWeekKeys(mid, lm, count, Ledger.Page(feed, count).GetOr([]), key);
    }
  }

  /** The week pass touches no total and no league record. */
  lemma {:induction false} WeeksKeepTotals(owners: map<string, NameEntry>, lm: LeagueMaps, feed: Ledger.LeagueFeed, count: nat, key: string)
    ensures var after := EntryOf(ApplyWeeks(owners, lm, feed, count), key);
            after.total == EntryOf(owners, key).total && after.leagues == EntryOf(owners, key).leagues
    decreases count
  {
    if count > 0 {
      WeeksKeepTotals(owners, lm, feed, count - 1, key);
      MatchupsAccumulate(ApplyWeeks(owners, lm, feed, count - 1), lm, count, Ledger.Page(feed, count).GetOr([]), key);
    }
  }

  // ------------------------------------------------------------- rosters

  /** The key a roster is filed under: `userMap[r.owner_id]`, whether or not it is owned. */
  function RosterKey(lm: LeagueMaps, r: Roster): string
  {
    PropertyKey(DisplayName(lm.userMap, r.ownerId))
  }

  /** The body of `rosters.forEach`: add the season total and push one record. */
  function AddRoster(owners: map<string, NameEntry>, lm: LeagueMaps, r: Roster): map<string, NameEntry>
  {
    var key := RosterKey(lm, r);
    var t := SeasonTotal(r.settings);
    var e := EntryOf(owners, key);
    owners[key := e.(total := e.total + t, leagues := e.leagues + [LeagueRecord(LeagueLabel(lm.leagueId), t)])]
  }

  function AddRosters(owners: map<string, NameEntry>, lm: LeagueMaps, rs: seq<Roster>): map<string, NameEntry>
  {
    if rs == [] then owners else AddRoster(AddRosters(owners, lm, rs[..|rs| - 1]), lm, rs[|rs| - 1])
  }

  /** Reference definition: one record per roster of `rs` filed under `key`, in order. */
  function RecordsFor(lm: LeagueMaps, rs: seq<Roster>, key: string): seq<LeagueRecord>
  {
    if rs == [] then []
    else
      var r := rs[|rs| - 1];
      RecordsFor(lm, rs[..|rs| - 1], key)
        + (if RosterKey(lm, r) == key then [LeagueRecord(LeagueLabel(lm.leagueId), SeasonTotal(r.settings))] else [])
  }

  function SumPoints(records: seq<LeagueRecord>): int
  {
    if records == [] then 0 else SumPoints(records[..|records| - 1]) + records[|records| - 1].points
  }

  lemma {:induction false} SumPointsAppend(a: seq<LeagueRecord>, b: seq<LeagueRecord>)
    ensures SumPoints(a + b) == SumPoints(a) + SumPoints(b)
    decreases |b|
  {
    if b == [] {
      assert a + b == a;
    } else {
      SumPointsAppend(a, b[..|b| - 1]);
      assert (a + b)[..|a + b| - 1] == a + b[..|b| - 1];
    }
  }

  /** One roster adds its total and record to its own key's entry, creating it if needed, and to no other. */
  lemma AddRosterEffect(owners: map<string, NameEntry>, lm: LeagueMaps, r: Roster, key: string)
    ensures var after := AddRoster(owners, lm, r);
            var before := EntryOf(owners, key);
            var t := SeasonTotal(r.settings);
            && (key in after <==> key in owners || RosterKey(lm, r) == key)
            && (RosterKey(lm, r) == key ==> EntryOf(after, key) == WithRecords(before, [LeagueRecord(LeagueLabel(lm.leagueId), t)]))
            && (RosterKey(lm, r) != key ==> EntryOf(after, key) == before)
  {
    var rec := LeagueRecord(LeagueLabel(lm.leagueId), SeasonTotal(r.settings));
    assert SumPoints([rec]) == rec.points by {
      assert [rec][..0] == [];
    }
  }

  /** An entry with `recs` appended to its records and their points added to its total. */
  function WithRecords(e: NameEntry, recs: seq<LeagueRecord>): NameEntry
  {
    e.(total := e.total + SumPoints(recs), leagues := e.leagues + recs)
  }

  /** Appending records in two steps is appending them at once. */
  lemma WithRecordsAppend(e: NameEntry, prev: seq<LeagueRecord>, more: seq<LeagueRecord>)
    ensures WithRecords(WithRecords(e, prev), more) == WithRecords(e, prev + more)
  {
    SumPointsAppend(prev, more);
    AppendAssoc(e.leagues, prev, more);
  }

  lemma WithNoRecords(e: NameEntry)
    ensures WithRecords(e, []) == e
  {
    assert e.leagues + [] == e.leagues;
  }

  /** A key is present after the roster pass exactly when it was before or some roster is filed under it. */
  lemma {:induction false} RostersKeys(owners: map<string, NameEntry>, lm: LeagueMaps, rs: seq<Roster>, key: string)
    ensures key in AddRosters(owners, lm, rs) <==> key in owners || RecordsFor(lm, rs, key) != []
    decreases |rs|
  {
    if rs != [] {
      var init, x := rs[..|rs| - 1], rs[|rs| - 1];
      RostersKeys(owners, lm, init, key);
      AddRosterEffect(AddRosters(owners, lm, init), lm, x, key);
    }
  }

  /**
   * The roster pass appends to each key's records exactly the records of
   * its rosters, in order, and adds their points to the key's total; the
   * weekly points stay.
   */
  lemma {:induction false} RostersAccumulate(owners: map<string, NameEntry>, lm: LeagueMaps, rs: seq<Roster>, key: string)
    ensures EntryOf(AddRosters(owners, lm, rs), key) == WithRecords(EntryOf(owners, key), RecordsFor(lm, rs, key))
    decreases |rs|
  {
    if rs == [] {
      WithNoRecords(EntryOf(owners, key));
    } else {
      var init, x := rs[..|rs| - 1], rs[|rs| - 1];
      RostersAccumulate(owners, lm, init, key);
      AddRosterEffect(AddRosters(owners, lm, init), lm, x, key);
      var prev := RecordsFor(lm, init, key);
      var step := if RosterKey(lm, x) == key then [LeagueRecord(LeagueLabel(lm.leagueId), SeasonTotal(x.settings))] else [];
      assert RecordsFor(lm, rs, key) == prev + step;
      WithRecordsAppend(EntryOf(owners, key), prev, step);
      WithNoRecords(WithRecords(EntryOf(owners, key), prev));
    }
  }

  // ------------------------------------------------------- the invariant

  /** Every entry's total is the sum of the points of its league records. */
  predicate TotalsMatchRecords(owners: map<string, NameEntry>)
  {
    forall k :: k in owners ==> owners[k].total == SumPoints(owners[k].leagues)
  }

  lemma TotalsMatchEntryOf(owners: map<string, NameEntry>, key: string)
    requires TotalsMatchRecords(owners)
    ensures EntryOf(owners, key).total == SumPoints(EntryOf(owners, key).leagues)
  {
  }

  lemma {:induction false} WeeksKeepInvariant(owners: map<string, NameEntry>, lm: LeagueMaps, feed: Ledger.LeagueFeed, count: nat)
    requires TotalsMatchRecords(owners)
    ensures TotalsMatchRecords(ApplyWeeks(owners, lm, feed, count))
  {
    var r := ApplyWeeks(owners, lm, feed, count);
    forall k | k in r ensures r[k].total == SumPoints(r[k].leagues) {
      WeeksKeepTotals(owners, lm, feed, count, k);
      TotalsMatchEntryOf(owners, k);
    }
  }

  lemma RostersKeepInvariant(owners: map<string, NameEntry>, lm: LeagueMaps, rs: seq<Roster>)
    requires TotalsMatchRecords(owners)
    ensures TotalsMatchRecords(AddRosters(owners, lm, rs))
  {
    var r := AddRosters(owners, lm, rs);
    forall k | k in r ensures r[k].total == SumPoints(r[k].leagues) {
      RostersAccumulate(owners, lm, rs, k);
      TotalsMatchEntryOf(owners, k);
      SumPointsAppend(EntryOf(owners, k).leagues, RecordsFor(lm, rs, k));
    }
  }

  // ------------------------------------------------------------- leagues

  /** The route's two accumulators. */
  datatype LegacyState = LegacyState(owners: map<string, NameEntry>, weeksSet: seq<int>)

  /** Some request of this league throws (the route never asks for league info). */
  predicate LeagueFails(feed: Ledger.LeagueFeed)
  {
    feed.users.None? || feed.rosters.None? || Ledger.Walk(feed, 1).None?
  }

  function MapsOf(leagueId: string, feed: Ledger.LeagueFeed): LeagueMaps
    requires feed.users.Some? && feed.rosters.Some?
  {
    LeagueMaps(leagueId, UserMap(feed.users.value), RosterMap(feed.rosters.value))
  }

  /** One league: build the lookups, walk its weeks, then its rosters. */
  function LeagueStep(st: LegacyState, leagueId: string, feed: Ledger.LeagueFeed): Option<LegacyState>
  {
    if LeagueFails(feed) then None
    else
      var lm := MapsOf(leagueId, feed);
      var k := Ledger.Walk(feed, 1).value;
      Some(LegacyState(AddRosters(ApplyWeeks(st.owners, lm, feed, k), lm, feed.rosters.value),
                       Ledger.AddWeeks(st.weeksSet, k)))
  }

  /** `for (const leagueId of leagueIds)`: the first league that fails aborts. */
  function LeaguesStep(st: LegacyState, ids: seq<string>, fetch: string -> Ledger.LeagueFeed): Option<LegacyState>
  {
    if ids == [] then Some(st)
    else
      match LeaguesStep(st, ids[..|ids| - 1], fetch)
      case None => None
      case Some(mid) => LeagueStep(mid, ids[|ids| - 1], fetch(ids[|ids| - 1]))
  }

  predicate SomeLeagueFails(ids: seq<string>, fetch: string -> Ledger.LeagueFeed)
  {
    exists j :: 0 <= j < |ids| && LeagueFails(fetch(ids[j]))
  }

  lemma SomeLeagueFailsLast(ids: seq<string>, fetch: string -> Ledger.LeagueFeed)
    requires ids != []
    ensures SomeLeagueFails(ids, fetch) <==> SomeLeagueFails(ids[..|ids| - 1], fetch) || LeagueFails(fetch(ids[|ids| - 1]))
  {
    var init := ids[..|ids| - 1];
    assert forall j :: 0 <= j < |init| ==> init[j] == ids[j];
    if SomeLeagueFails(ids, fetch) {
      var j :| 0 <= j < |ids| && LeagueFails(fetch(ids[j]));
      if j < |init| {
        assert LeagueFails(fetch(init[j]));
      }
    }
  }

  /** The run fails exactly when one of its leagues does. */
  lemma {:induction false} LeaguesFail(st: LegacyState, ids: seq<string>, fetch: string -> Ledger.LeagueFeed)
    ensures LeaguesStep(st, ids, fetch).None? <==> SomeLeagueFails(ids, fetch)
    decreases |ids|
  {
    if ids != [] {
      LeaguesFail(st, ids[..|ids| - 1], fetch);
      SomeLeagueFailsLast(ids, fetch);
    }
  }

  /** Every entry's total stays the sum of its records across all leagues. */
  lemma {:induction false} LeaguesKeepInvariant(st: LegacyState, ids: seq<string>, fetch: string -> Ledger.LeagueFeed)
    requires TotalsMatchRecords(st.owners)
    ensures LeaguesStep(st, ids, fetch).Some? ==> TotalsMatchRecords(LeaguesStep(st, ids, fetch).value.owners)
    decreases |ids|
  {
    if ids != [] && LeaguesStep(st, ids, fetch).Some? {
      LeaguesKeepInvariant(st, ids[..|ids| - 1], fetch);
      var mid := LeaguesStep(st, ids[..|ids| - 1], fetch).value;
      var id := ids[|ids| - 1];
      var feed := fetch(id);
      var lm := MapsOf(id, feed);
      var k := Ledger.Walk(feed, 1).value;
      WeeksKeepInvariant(mid.owners, lm, feed, k);
      RostersKeepInvariant(ApplyWeeks(mid.owners, lm, feed, k), lm, feed.rosters.value);
    }
  }

  /** The records one league that answers adds under `key`. */
  function LeagueRecords(id: string, feed: Ledger.LeagueFeed, key: string): seq<LeagueRecord>
  {
    if feed.users.Some? && feed.rosters.Some? then RecordsFor(MapsOf(id, feed), feed.rosters.value, key) else []
  }

  /** Reference definition: the records that the leagues of `ids` file under `key`, league by league. */
  function LeaguesRecords(ids: seq<string>, fetch: string -> Ledger.LeagueFeed, key: string): seq<LeagueRecord>
  {
    if ids == [] then [] else LeaguesRecords(ids[..|ids| - 1], fetch, key) + LeagueRecords(ids[|ids| - 1], fetch(ids[|ids| - 1]), key)
  }

  lemma AppendAssoc(a: seq<LeagueRecord>, b: seq<LeagueRecord>, c: seq<LeagueRecord>)
    ensures a + b + c == a + (b + c)
  {
  }

  /** One league appends its records under `key` to that key's entry. */
  lemma LeagueStepRecords(st: LegacyState, id: string, feed: Ledger.LeagueFeed, key: string)
    requires LeagueStep(st, id, feed).Some?
    ensures EntryOf(LeagueStep(st, id, feed).value.owners, key).leagues == EntryOf(st.owners, key).leagues + LeagueRecords(id, feed, key)
  {
    var lm := MapsOf(id, feed);
    var k := Ledger.Walk(feed, 1).value;
    WeeksKeepTotals(st.owners, lm, feed, k, key);
    RostersAccumulate(ApplyWeeks(st.owners, lm, feed, k), lm, feed.rosters.value, key);
  }

  /** One name's entry collects the records of every league it has a roster in, league after league. */
  lemma {:induction false} LeaguesCollectRecords(st: LegacyState, ids: seq<string>, fetch: string -> Ledger.LeagueFeed, key: string)
    ensures LeaguesStep(st, ids, fetch).Some? ==>
              EntryOf(LeaguesStep(st, ids, fetch).value.owners, key).leagues
              == EntryOf(st.owners, key).leagues + LeaguesRecords(ids, fetch, key)
    decreases |ids|
  {
    if ids == [] {
      assert EntryOf(st.owners, key).leagues + [] == EntryOf(st.owners, key).leagues;
    } else if LeaguesStep(st, ids, fetch).Some? {
      var init, id := ids[..|ids| - 1], ids[|ids| - 1];
      LeaguesCollectRecords(st, init, fetch, key);
      var mid := LeaguesStep(st, init, fetch).value;
      LeagueStepRecords(mid, id, fetch(id), key);
      AppendAssoc(EntryOf(st.owners, key).leagues, LeaguesRecords(init, fetch, key), LeagueRecords(id, fetch(id), key));
    }
  }

  /** Reference definition: the raw points one league that answers adds to `key`'s week w (0 past its walk). */
  function LeagueWeekPoints(id: string, feed: Ledger.LeagueFeed, key: string, w: int): int
  {
    if LeagueFails(feed) || !(1 <= w <= Ledger.Walk(feed, 1).value) then 0
    else KeyPoints(MapsOf(id, feed), Ledger.Page(feed, w).GetOr([]), key)
  }

  /** One league that answers has a matchup filed under `key` in week w of its walk. */
  predicate LeaguePlays(id: string, feed: Ledger.LeagueFeed, key: string, w: int)
  {
    !LeagueFails(feed) && 1 <= w <= Ledger.Walk(feed, 1).value && KeyPlays(MapsOf(id, feed), Ledger.Page(feed, w).GetOr([]), key)
  }

  /** Reference definition: the sum over the leagues of `ids` of what each adds to `key`'s week w. */
  function LeaguesWeekPoints(ids: seq<string>, fetch: string -> Ledger.LeagueFeed, key: string, w: int): int
  {
    if ids == [] then 0
    else LeaguesWeekPoints(ids[..|ids| - 1], fetch, key, w) + LeagueWeekPoints(ids[|ids| - 1], fetch(ids[|ids| - 1]), key, w)
  }

  predicate LeaguesPlay(ids: seq<string>, fetch: string -> Ledger.LeagueFeed, key: string, w: int)
  {
    exists j :: 0 <= j < |ids| && LeaguePlays(ids[j], fetch(ids[j]), key, w)
  }

  /** One league adds its points to `key`'s week w, and has w listed once the key played in it. */
  lemma LeagueStepWeeks(st: LegacyState, id: string, feed: Ledger.LeagueFeed, key: string, w: int)
    requires LeagueStep(st, id, feed).Some?
    ensures var after := EntryOf(LeagueStep(st, id, feed).value.owners, key);
            var before := EntryOf(st.owners, key);
            && WeekPoints(after, w) == WeekPoints(before, w) + LeagueWeekPoints(id, feed, key, w)
            && (w in after.weekly <==> w in before.weekly || LeaguePlays(id, feed, key, w))
  {
    var lm := MapsOf(id, feed);
    var k := Ledger.Walk(feed, 1).value;
    WeeksAccumulate(st.owners, lm, feed, k, key, w);
    RostersAccumulate(ApplyWeeks(st.owners, lm, feed, k), lm, feed.rosters.value, key);
  }

  /** A name's week w collects what every league adds to it, and is listed once the name played in any of them. */
  lemma {:induction false} LeaguesCollectWeeks(st: LegacyState, ids: seq<string>, fetch: string -> Ledger.LeagueFeed, key: string, w: int)
    ensures LeaguesStep(st, ids, fetch).Some? ==>
              var after := EntryOf(LeaguesStep(st, ids, fetch).value.owners, key);
              var before := EntryOf(st.owners, key);
              && WeekPoints(after, w) == WeekPoints(before, w) + LeaguesWeekPoints(ids, fetch, key, w)
              && (w in after.weekly <==> w in before.weekly || LeaguesPlay(ids, fetch, key, w))
    decreases |ids|
  {
    if ids != [] && LeaguesStep(st, ids, fetch).Some? {
      var init, id := ids[..|ids| - 1], ids[|ids| - 1];
      LeaguesCollectWeeks(st, init, fetch, key, w);
      var mid := LeaguesStep(st, init, fetch).value;
      LeagueStepWeeks(mid, id, fetch(id), key, w);
      LeaguesPlayLast(ids, fetch, key, w);
    }
  }

  lemma LeaguesPlayLast(ids: seq<string>, fetch: string -> Ledger.LeagueFeed, key: string, w: int)
    requires ids != []
    ensures LeaguesPlay(ids, fetch, key, w)
            <==> LeaguesPlay(ids[..|ids| - 1], fetch, key, w) || LeaguePlays(ids[|ids| - 1], fetch(ids[|ids| - 1]), key, w)
  {
    var init := ids[..|ids| - 1];
    assert forall j :: 0 <= j < |init| ==> init[j] == ids[j];
    if LeaguesPlay(ids, fetch, key, w) {
      var j :| 0 <= j < |ids| && LeaguePlays(ids[j], fetch(ids[j]), key, w);
      if j < |init| {
        assert LeaguePlays(init[j], fetch(init[j]), key, w);
      }
    }
  }

  /** A page creates exactly the keys of its claimed matchups. */
  lemma {:induction false} MatchupsKeys(owners: map<string, NameEntry>, lm: LeagueMaps, week: int, ms: seq<Matchup>, key: string)
    ensures key in AddMatchups(owners, lm, week, ms) <==> key in owners || KeyPlays(lm, ms, key)
    decreases |ms|
  {
    if ms != [] {
      MatchupsKeys(owners, lm, week, ms[..|ms| - 1], key);
    }
  }

  /** `key` played on one of the pages of weeks 1..count. */
  predicate PlaysWithin(lm: LeagueMaps, feed: Ledger.LeagueFeed, key: string, count: nat)
  {
    exists w :: 1 <= w <= count && KeyPlays(lm, Ledger.Page(feed, w).GetOr([]), key)
  }

  lemma PlaysWithinLast(lm: LeagueMaps, feed: Ledger.LeagueFeed, key: string, count: nat)
    requires count > 0
    ensures PlaysWithin(lm, feed, key, count)
            <==> PlaysWithin(lm, feed, key, count - 1) || KeyPlays(lm, Ledger.Page(feed, count).GetOr([]), key)
  {
    if PlaysWithin(lm, feed, key, count) {
      var w :| 1 <= w <= count && KeyPlays(lm, Ledger.Page(feed, w).GetOr([]), key);
      if w < count {
        assert PlaysWithin(lm, feed, key, count - 1);
      }
    }
  }

  /** The week walk creates exactly the keys that played on a page it read. */
  lemma {:induction false} WeeksKeys(owners: map<string, NameEntry>, lm: LeagueMaps, feed: Ledger.LeagueFeed, count: nat, key: string)
    ensures key in ApplyWeeks(owners, lm, feed, count) <==> key in owners || PlaysWithin(lm, feed, key, count)
    decreases count
  {
    if count > 0 {
      WeeksKeys(owners, lm, feed, count - 1, key);
      MatchupsKeys(ApplyWeeks(owners, lm, feed, count - 1), lm, count, Ledger.Page(feed, count).GetOr([]), key);
      PlaysWithinLast(lm, feed, key, count);
    }
  }

  /** One league creates exactly the keys of its rosters and of the matchups its walk read. */
  lemma LeagueStepKeys(st: LegacyState, id: string, feed: Ledger.LeagueFeed, key: string)
    requires LeagueStep(st, id, feed).Some?
    ensures key in LeagueStep(st, id, feed).value.owners
            <==> key in st.owners || LeagueRecords(id, feed, key) != [] || LeaguePlaysSomeWeek(id, feed, key)
  {
    var lm := MapsOf(id, feed);
    var k := Ledger.Walk(feed, 1).value;
    WeeksKeys(st.owners, lm, feed, k, key);
    RostersKeys(ApplyWeeks(st.owners, lm, feed, k), lm, feed.rosters.value, key);
    if PlaysWithin(lm, feed, key, k) {
      var w :| 1 <= w <= k && KeyPlays(lm, Ledger.Page(feed, w).GetOr([]), key);
      assert LeaguePlays(id, feed, key, w);
    }
  }

  /** `key` played in some week of one league that answers. */
  ghost predicate LeaguePlaysSomeWeek(id: string, feed: Ledger.LeagueFeed, key: string)
  {
    exists w :: LeaguePlays(id, feed, key, w)
  }

  /** `key` played in some week of one of the leagues of `ids`. */
  ghost predicate LeaguesPlaySomeWeek(ids: seq<string>, fetch: string -> Ledger.LeagueFeed, key: string)
  {
    exists w :: LeaguesPlay(ids, fetch, key, w)
  }

  lemma LeaguesPlaySomeWeekLast(ids: seq<string>, fetch: string -> Ledger.LeagueFeed, key: string)
    requires ids != []
    ensures LeaguesPlaySomeWeek(ids, fetch, key)
            <==> LeaguesPlaySomeWeek(ids[..|ids| - 1], fetch, key) || LeaguePlaysSomeWeek(ids[|ids| - 1], fetch(ids[|ids| - 1]), key)
  {
    var init, id := ids[..|ids| - 1], ids[|ids| - 1];
    if LeaguesPlaySomeWeek(ids, fetch, key) {
      var w :| LeaguesPlay(ids, fetch, key, w);
      LeaguesPlayLast(ids, fetch, key, w);
    }
    if LeaguesPlaySomeWeek(init, fetch, key) {
      var w :| LeaguesPlay(init, fetch, key, w);
      LeaguesPlayLast(ids, fetch, key, w);
    }
    if LeaguePlaysSomeWeek(id, fetch(id), key) {
      var w :| LeaguePlays(id, fetch(id), key, w);
      LeaguesPlayLast(ids, fetch, key, w);
    }
  }

  /** The leagues create exactly the keys of their rosters and of the matchups their walks read. */
  lemma {:induction false} LeaguesKeys(st: LegacyState, ids: seq<string>, fetch: string -> Ledger.LeagueFeed, key: string)
    ensures LeaguesStep(st, ids, fetch).Some? ==>
              (key in LeaguesStep(st, ids, fetch).value.owners
               <==> key in st.owners || LeaguesRecords(ids, fetch, key) != [] || LeaguesPlaySomeWeek(ids, fetch, key))
    decreases |ids|
  {
    if ids != [] && LeaguesStep(st, ids, fetch).Some? {
      var init, id := ids[..|ids| - 1], ids[|ids| - 1];
      LeaguesKeys(st, init, fetch, key);
      var mid := LeaguesStep(st, init, fetch).value;
      LeagueStepKeys(mid, id, fetch(id), key);
      LeaguesPlaySomeWeekLast(ids, fetch, key);
    }
  }

  /** After a run whose leagues all answer, the weeks set holds 1..n for n the longest walk. */
  lemma {:induction false} LeaguesWeeks(st: LegacyState, ids: seq<string>, fetch: string -> Ledger.LeagueFeed)
    requires Ledger.WeeksFromOne(st.weeksSet)
    ensures LeaguesStep(st, ids, fetch).Some? ==>
              LeaguesStep(st, ids, fetch).value.weeksSet == Ledger.WeeksFrom(1, Ledger.Max(|st.weeksSet|, Ledger.Horizon(ids, fetch)))
    decreases |ids|
  {
    if ids != [] && LeaguesStep(st, ids, fetch).Some? {
      var init := ids[..|ids| - 1];
      LeaguesWeeks(st, init, fetch);
      var mid := LeaguesStep(st, init, fetch).value;
      var n := Ledger.Max(|st.weeksSet|, Ledger.Horizon(init, fetch));
      var k := Ledger.Walk(fetch(ids[|ids| - 1]), 1).value;
      Ledger.AddWeeksFromOne(n, k);
      assert Ledger.WalkCount(fetch(ids[|ids| - 1])) == k;
    }
  }

  // ---------------------------------------------------------- the response

  /** JavaScript's default `sort` compares the weeks as strings. */
  function WeekText(w: int): string
  {
    Text.IntToDecimal(w)
  }

  function StringOrderLeq(a: int, b: int): bool
  {
    !Text.StrLess(WeekText(b), WeekText(a))
  }

  lemma StringOrderTotal()
    ensures TotalPreorder(StringOrderLeq)
  {
    forall a: int, b: int ensures StringOrderLeq(a, b) || StringOrderLeq(b, a) {
      if Text.StrLess(WeekText(b), WeekText(a)) && Text.StrLess(WeekText(a), WeekText(b)) {
        Text.StrLessTransitive(WeekText(a), WeekText(b), WeekText(a));
        Text.StrLessIrreflexive(WeekText(a));
      }
    }
    forall a: int, b: int, c: int | StringOrderLeq(a, b) && StringOrderLeq(b, c) ensures StringOrderLeq(a, c) {
      var x, y, z := WeekText(a), WeekText(b), WeekText(c);
      if Text.StrLess(z, x) {
        Text.StrLessTotal(x, y);
        if Text.StrLess(x, y) {
          Text.StrLessTransitive(z, x, y);
        }
      }
    }
  }

  const FailureMessage := "Failed to fetch leaderboard data"

  /** `res.status(200).json({ owners, weeks })` or `res.status(500).json({ error })`. */
  datatype Response = Ok(owners: map<string, NameEntry>, weeks: seq<int>) | Failed(error: string)
  {
    function Status(): int
    {
      if Ok? then 200 else 500
    }
  }

  /** `handler(req, res)` for the query's `division`, with `fetch(id)` answering league `id`'s requests. */
  function Handler(division: Option<string>, fetch: string -> Ledger.LeagueFeed): Response
  {
    match LeaguesStep(LegacyState(map[], []), LeagueIdsFor(division), fetch)
    case None => Failed(FailureMessage)
    case Some(st) =>
      StringOrderTotal();
      Ok(st.owners, SortBy(st.weeksSet, StringOrderLeq))
  }

  /**
   * The route's response: status 500 with only the error message exactly
   * when some request throws; otherwise status 200, weeks in string order
   * holding exactly 1..n for n the longest walk, and every entry's total
   * the sum of its league records.
   */
  lemma HandlerSpec(division: Option<string>, fetch: string -> Ledger.LeagueFeed)
    ensures var ids := LeagueIdsFor(division);
            var res := Handler(division, fetch);
            && (res.Failed? <==> SomeLeagueFails(ids, fetch))
            && (res.Failed? ==> res.Status() == 500 && res.error == FailureMessage)
            && (res.Ok? ==>
                  && res.Status() == 200
                  && SortedBy(res.weeks, StringOrderLeq)
                  && multiset(res.weeks) == multiset(Ledger.WeeksFrom(1, Ledger.Horizon(ids, fetch)))
                  && TotalsMatchRecords(res.owners))
  {
    var ids := LeagueIdsFor(division);
    var st0 := LegacyState(map[], []);
    LeaguesFail(st0, ids, fetch);
    if LeaguesStep(st0, ids, fetch).Some? {
      LeaguesWeeks(st0, ids, fetch);
      LeaguesKeepInvariant(st0, ids, fetch);
    }
  }

  /** Each name's entry lists the records of all its rosters across the division's leagues. */
  lemma HandlerRecords(division: Option<string>, fetch: string -> Ledger.LeagueFeed, key: string)
    ensures var res := Handler(division, fetch);
            res.Ok? ==> EntryOf(res.owners, key).leagues == LeaguesRecords(LeagueIdsFor(division), fetch, key)
  {
    LeaguesCollectRecords(LegacyState(map[], []), LeagueIdsFor(division), fetch, key);
    assert EntryOf(map[], key).leagues == [];
  }

  /**
   * Each name's weekly points in the response: week w holds the sum, over
   * the division's leagues, of the raw points of that name's matchups on
   * page w, and is listed exactly when the name played in week w somewhere.
   */
  lemma HandlerWeekly(division: Option<string>, fetch: string -> Ledger.LeagueFeed, key: string, w: int)
    ensures var res := Handler(division, fetch);
            var ids := LeagueIdsFor(division);
            res.Ok? ==>
              && WeekPoints(EntryOf(res.owners, key), w) == LeaguesWeekPoints(ids, fetch, key, w)
              && (w in EntryOf(res.owners, key).weekly <==> LeaguesPlay(ids, fetch, key, w))
  {
    LeaguesCollectWeeks(LegacyState(map[], []), LeagueIdsFor(division), fetch, key, w);
  }

  /**
   * The names in the response: an entry exists exactly for the names with a
   * roster in one of the division's leagues (owned or not) or a claimed
   * matchup on a page one of them read.
   */
  lemma HandlerKeys(division: Option<string>, fetch: string -> Ledger.LeagueFeed, key: string)
    ensures var res := Handler(division, fetch);
            var ids := LeagueIdsFor(division);
            res.Ok? ==>
              (key in res.owners <==> LeaguesRecords(ids, fetch, key) != [] || exists w :: LeaguesPlay(ids, fetch, key, w))
  {
    LeaguesKeys(LegacyState(map[], []), LeagueIdsFor(division), fetch, key);
  }

  /** In string order "10" sorts before "2": once ten weeks were read, week 10 is listed before week 2. */
  lemma WeekTenBeforeWeekTwo(division: Option<string>, fetch: string -> Ledger.LeagueFeed)
    requires Handler(division, fetch).Ok?
    requires Ledger.Horizon(LeagueIdsFor(division), fetch) >= 10
    ensures var weeks := Handler(division, fetch).weeks;
            exists i, j :: 0 <= i < j < |weeks| && weeks[i] == 10 && weeks[j] == 2
  {
    HandlerSpec(division, fetch);
    var weeks := Handler(division, fetch).weeks;
    var n := Ledger.Horizon(LeagueIdsFor(division), fetch);
    Ledger.WeeksFromOneMembers(n, 10);
    Ledger.WeeksFromOneMembers(n, 2);
    assert 10 in multiset(weeks) && 2 in multiset(weeks);
    var i :| 0 <= i < |weeks| && weeks[i] == 10;
    var j :| 0 <= j < |weeks| && weeks[j] == 2;
    TwoAfterTen();
    TwoNotBeforeTen(weeks, i, j);
  }

  /** "2" does not sort before "10". */
  lemma TwoAfterTen()
    ensures !StringOrderLeq(2, 10)
  {
    Text.SmallNumeral(10);
    Text.SmallNumeral(2);
    assert WeekText(10) == "10" && WeekText(2) == "2";
    assert Text.StrLess("10", "2");
  }

  lemma TwoNotBeforeTen(weeks: seq<int>, i: int, j: int)
    requires SortedBy(weeks, StringOrderLeq) && !StringOrderLeq(2, 10)
    requires 0 <= i < |weeks| && 0 <= j < |weeks| && weeks[i] == 10 && weeks[j] == 2
    ensures i < j
  {
  }

  // ------------------------------------------------------ the route itself

  /** The route's accumulators: `allOwners` and `weeksSet`. */
  class LegacyHandler {
    var allOwners: map<string, NameEntry>
    var weeksSet: seq<int>

    function Snapshot(): LegacyState
      reads this
    {
      LegacyState(allOwners, weeksSet)
    }

    /** `let allOwners = {}; let weeksSet = new Set();` */
    constructor ()
      ensures Snapshot() == LegacyState(map[], [])
    {
      allOwners := map[];
      weeksSet := [];
    }

    method RecordMatchup(lm: LeagueMaps, week: int, m: Matchup)
      modifies this
      ensures allOwners == AddMatchup(old(allOwners), lm, week, m) && weeksSet == old(weeksSet)
    {
      var ownerId := OwnerOfRoster(lm.rosterMap, m.rosterId);
      if Claimed(ownerId) {
        var name := PropertyKey(DisplayName(lm.userMap, ownerId));
        var pts := StartersSum(m);
        if name !in allOwners {
          allOwners := allOwners[name := EmptyEntry];
        }
        var e := allOwners[name];
        allOwners := allOwners[name := e.(weekly := e.weekly[week := WeekPoints(e, week) + pts])];
      }
    }

    method RecordWeek(lm: LeagueMaps, week: int, matchups: seq<Matchup>)
      modifies this
      ensures allOwners == AddMatchups(old(allOwners), lm, week, matchups) && weeksSet == old(weeksSet)
    {
      for k := 0 to |matchups|
        invariant allOwners == AddMatchups(old(allOwners), lm, week, matchups[..k]) && weeksSet == old(weeksSet)
      {
        assert matchups[..k + 1][..k] == matchups[..k];
        RecordMatchup(lm, week, matchups[k]);
      }
      assert matchups[..|matchups|] == matchups;
    }

    /**
     * One pass of the week loop's body for `week`, every earlier page having
     * been non-empty: `Some(true)` when the page was read, `Some(false)` when
     * it was empty (`break`), `None` when its request threw.
     */
    method VisitWeek(lm: LeagueMaps, feed: Ledger.LeagueFeed, week: int, ghost owners0: map<string, NameEntry>, ghost weeks0: seq<int>)
      returns (r: Option<bool>)
      requires week >= 1
      requires Ledger.PagesNonEmpty(feed, week - 1)
      requires allOwners == ApplyWeeks(owners0, lm, feed, week - 1)
      requires weeksSet == Ledger.AddWeeks(weeks0, week - 1)
      modifies this
      ensures r == Some(true) ==> Ledger.PagesNonEmpty(feed, week) && week <= |feed.matchups|
      ensures r == Some(true) ==> allOwners == ApplyWeeks(owners0, lm, feed, week)
      ensures r == Some(true) ==> weeksSet == Ledger.AddWeeks(weeks0, week)
      ensures r == Some(false) ==> Ledger.Walk(feed, 1) == Some(week - 1) && allOwners == old(allOwners) && weeksSet == old(weeksSet)
      ensures r.None? ==> Ledger.Walk(feed, 1).None?
    {
      var matchups := Ledger.Page(feed, week);
      Ledger.PagesNonEmptyAll(feed, week - 1);
      Ledger.WalkAfterPrefix(feed, 1, week);
      if matchups.None? {
        return None;
      }
      if matchups.value == [] {
        return Some(false);
      }
      RecordWeek(lm, week, matchups.value);
      weeksSet := SetAdd(weeksSet, week);
      return Some(true);
    }

    /** `let week = 1; while (true) { ... }`; `ok` is false when a page request throws. */
    method WalkWeeks(lm: LeagueMaps, feed: Ledger.LeagueFeed) returns (ok: bool)
      modifies this
      ensures ok <==> Ledger.Walk(feed, 1).Some?
      ensures ok ==> allOwners == ApplyWeeks(old(allOwners), lm, feed, Ledger.Walk(feed, 1).value)
      ensures ok ==> weeksSet == Ledger.AddWeeks(old(weeksSet), Ledger.Walk(feed, 1).value)
    {
      var week := 1;
      while true
        invariant 1 <= week <= |feed.matchups| + 1
        invariant Ledger.PagesNonEmpty(feed, week - 1)
        invariant allOwners == ApplyWeeks(old(allOwners), lm, feed, week - 1)
        invariant weeksSet == Ledger.AddWeeks(old(weeksSet), week - 1)
        decreases |feed.matchups| + 1 - week
      {
        var r := VisitWeek(lm, feed, week, old(allOwners), old(weeksSet));
        if r.None? {
          return false;
        }
        if !r.value {
          return true;
        }
        week := week + 1;
      }
    }

    method RecordRoster(lm: LeagueMaps, r: Roster)
      modifies this
      ensures allOwners == AddRoster(old(allOwners), lm, r) && weeksSet == old(weeksSet)
    {
      var name := PropertyKey(DisplayName(lm.userMap, r.ownerId));
      var total := SeasonTotal(r.settings);
      if name !in allOwners {
        allOwners := allOwners[name := EmptyEntry];
      }
      var e := allOwners[name];
      allOwners := allOwners[name := e.(total := e.total + total, leagues := e.leagues + [LeagueRecord(LeagueLabel(lm.leagueId), total)])];
    }

    method RecordRosters(lm: LeagueMaps, rosters: seq<Roster>)
      modifies this
      ensures allOwners == AddRosters(old(allOwners), lm, rosters) && weeksSet == old(weeksSet)
    {
      for k := 0 to |rosters|
        invariant allOwners == AddRosters(old(allOwners), lm, rosters[..k]) && weeksSet == old(weeksSet)
      {
        assert rosters[..k + 1][..k] == rosters[..k];
        RecordRoster(lm, rosters[k]);
      }
      assert rosters[..|rosters|] == rosters;
    }

    /** One iteration of `for (const leagueId of leagueIds)`; `ok` is false when a request throws. */
    method AddLeague(leagueId: string, feed: Ledger.LeagueFeed) returns (ok: bool)
      modifies this
      ensures ok <==> LeagueStep(old(Snapshot()), leagueId, feed).Some?
      ensures ok ==> Snapshot() == LeagueStep(old(Snapshot()), leagueId, feed).value
    {
      if feed.users.None? || feed.rosters.None? {
        return false;
      }
      var userMap := BuildUserMap(feed.users.value);
      var rosterMap := BuildRosterMap(feed.rosters.value);
      var lm := LeagueMaps(leagueId, userMap, rosterMap);
      ok := WalkWeeks(lm, feed);
      if !ok {
        return;
      }
      RecordRosters(lm, feed.rosters.value);
    }
  }

  /** The route: the response it sends for the query's `division`. */
  method Handle(division: Option<string>, fetch: string -> Ledger.LeagueFeed) returns (res: Response)
    ensures res == Handler(division, fetch)
  {
    var leagueIds := LeagueIdsFor(division);
    var h := new LegacyHandler();
    var st0 := h.Snapshot();
    for i := 0 to |leagueIds|
      invariant LeaguesStep(st0, leagueIds[..i], fetch) == Some(h.Snapshot())
    {
      assert leagueIds[..i + 1][..i] == leagueIds[..i];
      var ok := h.AddLeague(leagueIds[i], fetch(leagueIds[i]));
      if !ok {
        LeaguesFail(st0, leagueIds[..i + 1], fetch);
        LeaguesFail(st0, leagueIds, fetch);
        assert LeagueFails(fetch(leagueIds[..i + 1][i]));
        assert LeagueFails(fetch(leagueIds[i]));
        return Failed(FailureMessage);
      }
    }
    assert leagueIds[..|leagueIds|] == leagueIds;
    StringOrderTotal();
    res := Ok(h.allOwners, SortBy(h.weeksSet, StringOrderLeq));
  }
}

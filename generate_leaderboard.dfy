/**
 * `scripts/generate-leaderboard.js` as the script runs it: one mutable
 * builder holding `owners`, `weeksSet` and `leagueNamesByDivision`, filled
 * league by league and week by week. Every method is proved to leave
 * exactly the state the step functions of module Ledger describe.
 */
module GenerateLeaderboard {
  import opened Wrappers
  import opened Collections
  import opened Sleeper
  import opened Sorting
  import opened Ledger

  /** `DIVISION_MAP`: division names and the league ids of each, in source order. */
  const DivisionMap: seq<(string, seq<string>)> := [
    ("Division 1", ["1078876267329482752", "1123827660926406656"]),
    ("Division 2", ["1120744406925012992"]),
    ("Division 3", ["1123826825777467392"]),
    ("Division 4", ["1090889386742325248"]),
    ("Division 5", ["1102374736048275456"])
  ]

  /** The five division names differ, so each keeps its own list of league names. */
  lemma DivisionMapNamesDistinct()
    ensures Distinct(DivisionNames(DivisionMap))
  {
    assert DivisionNames(DivisionMap) == ["Division 1", "Division 2", "Division 3", "Division 4", "Division 5"];
  }

  /** `owners.find(o => o.ownerName === name && o.leagueName === league)`, as a scan. */
  method FindEntry(owners: seq<OwnerEntry>, name: Option<string>, league: string) returns (r: Option<nat>)
    ensures r == Find(owners, name, league)
  {
    var i := 0;
    while i < |owners|
      invariant 0 <= i <= |owners|
      invariant forall k :: 0 <= k < i ==> !HasKey(owners[k], name, league)
    {
      if owners[i].ownerName == name && owners[i].leagueName == league {
        return Some(i);
      }
      i := i + 1;
    }
    return None;
  }

  /** The script's accumulators; an entry found by `find` is updated in place as `owners[i]`. */
  class LedgerBuilder {
    var owners: seq<OwnerEntry>
    var weeksSet: seq<int>
    var leagueNamesByDivision: map<string, seq<string>>

    function Snapshot(): State
      reads this
    {
      State(owners, weeksSet, leagueNamesByDivision)
    }

    /** `let owners = []; let weeksSet = new Set(); const leagueNamesByDivision = {};` */
    constructor ()
      ensures Snapshot() == State([], [], map[])
    {
      owners := [];
      weeksSet := [];
      leagueNamesByDivision := map[];
    }

    /** Find-or-create the entry for a key; returns its index. */
    method EntryIndex(name: Option<string>, league: string, division: string) returns (i: nat)
      modifies this
      ensures (owners, i) == EntryFor(old(owners), name, league, division)
      ensures weeksSet == old(weeksSet) && leagueNamesByDivision == old(leagueNamesByDivision)
    {
      var existing := FindEntry(owners, name, league);
      if existing.None? {
        owners := owners + [NewEntry(name, league, division)];
        i := |owners| - 1;
      } else {
        i := existing.value;
      }
    }

    /** The body of `matchups.forEach` for week `week`. */
    method RecordMatchup(ctx: LeagueContext, week: int, m: Matchup)
      modifies this
      ensures owners == ApplyMatchup(old(owners), ctx, week, m)
      ensures weeksSet == old(weeksSet) && leagueNamesByDivision == old(leagueNamesByDivision)
    {
      var ownerId := OwnerOfRoster(ctx.rosterMap, m.rosterId);
      if Claimed(ownerId) {
        var name := DisplayName(ctx.userMap, ownerId);
        var pts := StartersSum(m);
        var i := EntryIndex(name, ctx.leagueName, ctx.division);
        owners := owners[i := owners[i].(weekly := owners[i].weekly[week := RoundToHundredths(pts)])];
      }
    }

    /** `matchups.forEach(...)` over one week's page. */
    method RecordWeek(ctx: LeagueContext, week: int, matchups: seq<Matchup>)
      modifies this
      ensures owners == ApplyMatchups(old(owners), ctx, week, matchups)
      ensures weeksSet == old(weeksSet) && leagueNamesByDivision == old(leagueNamesByDivision)
    {
      for k := 0 to |matchups|
        invariant owners == ApplyMatchups(old(owners), ctx, week, matchups[..k])
        invariant weeksSet == old(weeksSet) && leagueNamesByDivision == old(leagueNamesByDivision)
      {
        assert matchups[..k + 1][..k] == matchups[..k];
        RecordMatchup(ctx, week, matchups[k]);
      }
      assert matchups[..|matchups|] == matchups;
    }

    /** Record week `read + 1`, whose page is non-empty, and add it to `weeksSet`. */
    method ReadWeek(ctx: LeagueContext, feed: LeagueFeed, read: nat, ghost owners0: seq<OwnerEntry>, ghost weeks0: seq<int>)
      requires NonEmptyPage(feed, read + 1)
      requires owners == ApplyWeeks(owners0, ctx, feed, 1, read)
      requires weeksSet == AddWeeks(weeks0, read)
      modifies this
      ensures owners == ApplyWeeks(owners0, ctx, feed, 1, read + 1)
      ensures weeksSet == AddWeeks(weeks0, read + 1)
      ensures leagueNamesByDivision == old(leagueNamesByDivision)
    {
      var week := read + 1;
      ghost var before := owners;
      RecordWeek(ctx, week, Page(feed, week).value);
      ApplyWeeksNext(owners0, ctx, feed, read, before, owners);
      weeksSet := SetAdd(weeksSet, week);
    }

    /**
     * One pass of the walk's loop body for `week`, every earlier page having
     * been non-empty: `Some(true)` when the page was read, `Some(false)` when
     * it was empty (`break`), `None` when its request threw.
     */
    method VisitWeek(ctx: LeagueContext, feed: LeagueFeed, week: int, ghost owners0: seq<OwnerEntry>, ghost weeks0: seq<int>)
      returns (r: Option<bool>)
      requires week >= 1
      requires PagesNonEmpty(feed, week - 1)
      requires owners == ApplyWeeks(owners0, ctx, feed, 1, week - 1)
      requires weeksSet == AddWeeks(weeks0, week - 1)
      modifies this
      ensures r == Some(true) ==> PagesNonEmpty(feed, week) && week <= |feed.matchups|
      ensures r == Some(true) ==> owners == ApplyWeeks(owners0, ctx, feed, 1, week)
      ensures r == Some(true) ==> weeksSet == AddWeeks(weeks0, week)
      ensures r == Some(false) ==> Walk(feed, 1) == Some(week - 1) && owners == old(owners) && weeksSet == old(weeksSet)
      ensures r.None? ==> Walk(feed, 1).None?
      ensures leagueNamesByDivision == old(leagueNamesByDivision)
    {
      var matchups := Page(feed, week);
      PagesNonEmptyAll(feed, week - 1);
      WalkAfterPrefix(feed, 1, week);
      if matchups.None? {
        return None;
      }
      if matchups.value == [] {
        return Some(false);
      }
      ReadWeek(ctx, feed, week - 1, owners0, weeks0);
      return Some(true);
    }

    /**
     * `let week = 1; while (true) { ... }`: fetch pages until one is empty.
     * `ok` is false when a page request throws, which ends the whole script.
     */
    method WalkWeeks(ctx: LeagueContext, feed: LeagueFeed) returns (ok: bool)
      modifies this
      ensures ok <==> Walk(feed, 1).Some?
      ensures ok ==> owners == ApplyWeeks(old(owners), ctx, feed, 1, Walk(feed, 1).value)
      ensures ok ==> weeksSet == AddWeeks(old(weeksSet), Walk(feed, 1).value)
      ensures leagueNamesByDivision == old(leagueNamesByDivision)
    {
      var week := 1;
      while true
        invariant 1 <= week <= |feed.matchups| + 1
        invariant PagesNonEmpty(feed, week - 1)
        invariant owners == ApplyWeeks(old(owners), ctx, feed, 1, week - 1)
        invariant weeksSet == AddWeeks(old(weeksSet), week - 1)
        invariant leagueNamesByDivision == old(leagueNamesByDivision)
        decreases |feed.matchups| + 1 - week
      {
        var r := VisitWeek(ctx, feed, week, old(owners), old(weeksSet));
        if r.None? {
          return false;
        }
        if !r.value {
          return true;
        }
        week := week + 1;
      }
    }

    /** The body of `rosters.forEach`: find-or-create and overwrite `total`. */
    method RecordRoster(ctx: LeagueContext, r: Roster)
      modifies this
      ensures owners == ApplyRoster(old(owners), ctx, r)
      ensures weeksSet == old(weeksSet) && leagueNamesByDivision == old(leagueNamesByDivision)
    {
      var name := DisplayName(ctx.userMap, r.ownerId);
      var i := EntryIndex(name, ctx.leagueName, ctx.division);
      owners := owners[i := owners[i].(total := SeasonTotal(r.settings))];
    }

    method AssignTotals(ctx: LeagueContext, rosters: seq<Roster>)
      modifies this
      ensures owners == ApplyRosters(old(owners), ctx, rosters)
      ensures weeksSet == old(weeksSet) && leagueNamesByDivision == old(leagueNamesByDivision)
    {
      for k := 0 to |rosters|
        invariant owners == ApplyRosters(old(owners), ctx, rosters[..k])
        invariant weeksSet == old(weeksSet) && leagueNamesByDivision == old(leagueNamesByDivision)
      {
        assert rosters[..k + 1][..k] == rosters[..k];
        RecordRoster(ctx, rosters[k]);
      }
      assert rosters[..|rosters|] == rosters;
    }

    /** One league of `division`: `ok` is false when one of its requests throws. */
    method AddLeague(division: string, feed: LeagueFeed) returns (ok: bool)
      requires division in leagueNamesByDivision
      modifies this
      ensures ok <==> LeagueStep(old(Snapshot()), division, feed).Some?
      ensures ok ==> Snapshot() == LeagueStep(old(Snapshot()), division, feed).value
    {
      if feed.info.None? {
        return false;
      }
      var leagueName := feed.info.value.name;
      leagueNamesByDivision := leagueNamesByDivision[division := leagueNamesByDivision[division] + [leagueName]];
      if feed.users.None? || feed.rosters.None? {
        return false;
      }
      var userMap := BuildUserMap(feed.users.value);
      var rosterMap := BuildRosterMap(feed.rosters.value);
      var ctx := LeagueContext(leagueName, division, userMap, rosterMap);
      ok := WalkWeeks(ctx, feed);
      if !ok {
        return;
      }
      AssignTotals(ctx, feed.rosters.value);
    }

    /** `leagueNamesByDivision[division] = []`. */
    method StartDivision(division: string)
      modifies this
      ensures Snapshot() == old(Snapshot()).(leaguesByDivision := old(leagueNamesByDivision)[division := []])
    {
      leagueNamesByDivision := leagueNamesByDivision[division := []];
    }
  }

  /**
   * `fetchLeaderboard()` over a division map, with `fetch(id)` answering
   * every request about league `id`: the written JSON, or `None` when a
   * request throws and nothing is written.
   */
  method FetchLeaderboard(divisionMap: seq<(string, seq<string>)>, fetch: string -> LeagueFeed)
    returns (json: Option<Leaderboard>)
    ensures json == Run(divisionMap, fetch)
  {
    var b := new LedgerBuilder();
    var st0 := b.Snapshot();
    for i := 0 to |divisionMap|
      invariant DivisionsStep(st0, divisionMap[..i], fetch) == Some(b.Snapshot())
    {
      var (division, leagues) := divisionMap[i];
      assert divisionMap[..i + 1][..i] == divisionMap[..i];
      b.StartDivision(division);
      var start := b.Snapshot();
      for j := 0 to |leagues|
        invariant division in b.leagueNamesByDivision
        invariant LeaguesStep(start, division, leagues[..j], fetch) == Some(b.Snapshot())
      {
        assert leagues[..j + 1][..j] == leagues[..j];
        var ok := b.AddLeague(division, fetch(leagues[j]));
        if !ok {
          RunAbortsOnFailure(divisionMap, fetch, i, j);
          return None;
        }
      }
      assert leagues[..|leagues|] == leagues;
    }
    assert divisionMap[..|divisionMap|] == divisionMap;
    IntLeqTotal();
    json := Some(Leaderboard(SortBy(b.weeksSet, IntLeq), b.owners, DivisionNames(divisionMap), b.leagueNamesByDivision));
  }

  /** The script run on its own `DIVISION_MAP`. */
  method GenerateLeaderboard(fetch: string -> LeagueFeed) returns (json: Option<Leaderboard>)
    ensures json == Run(DivisionMap, fetch)
  {
    json := FetchLeaderboard(DivisionMap, fetch);
  }
}

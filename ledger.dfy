/**
 * The per-owner scoring ledger that `scripts/generate-leaderboard.js` builds,
 * stated as pure step functions over the `owners` array. The imperative
 * builder in module GenerateLeaderboard is proved to follow these steps.
 */
module Ledger {
  import opened Wrappers
  import opened Collections
  import opened Sleeper
  import opened Sorting

  /** `{ownerName, leagueName, division, weekly, total}`; `weekly` maps a week to hundredths. */
  datatype OwnerEntry = OwnerEntry(
    ownerName: Option<string>,
    leagueName: string,
    division: string,
    weekly: map<int, int>,
    total: int)

  /** What one league's pass reads: its name and division and the two lookups built from users and rosters. */
  datatype LeagueContext = LeagueContext(
    leagueName: string,
    division: string,
    userMap: map<string, string>,
    rosterMap: map<int, Option<string>>)

  function NewEntry(name: Option<string>, league: string, division: string): OwnerEntry
  {
    OwnerEntry(name, league, division, map[], 0)
  }

  predicate HasKey(e: OwnerEntry, name: Option<string>, league: string)
  {
    e.ownerName == name && e.leagueName == league
  }

  predicate KeyIn(owners: seq<OwnerEntry>, name: Option<string>, league: string)
  {
    exists i :: 0 <= i < |owners| && HasKey(owners[i], name, league)
  }

  /** At most one entry per (ownerName, leagueName). */
  predicate UniqueKeys(owners: seq<OwnerEntry>)
  {
    forall i, j :: 0 <= i < |owners| && 0 <= j < |owners| && HasKey(owners[j], owners[i].ownerName, owners[i].leagueName)
      ==> i == j
  }

  /** `a` is `b` with possibly more entries appended and the same key at every old position. */
  predicate KeysKept(a: seq<OwnerEntry>, b: seq<OwnerEntry>)
  {
    |a| <= |b| && forall i :: 0 <= i < |a| ==> HasKey(b[i], a[i].ownerName, a[i].leagueName)
  }

  /** `owners.find(o => o.ownerName === name && o.leagueName === league)`, as an index. */
  function Find(owners: seq<OwnerEntry>, name: Option<string>, league: string): (r: Option<nat>)
    ensures r.Some? ==> r.value < |owners| && HasKey(owners[r.value], name, league)
    ensures r.Some? ==> forall i :: 0 <= i < r.value ==> !HasKey(owners[i], name, league)
    ensures r.None? <==> !KeyIn(owners, name, league)
  {
    if owners == [] then None
    else
      match Find(owners[..|owners| - 1], name, league)
      case Some(i) => Some(i)
      case None => if HasKey(owners[|owners| - 1], name, league) then Some(|owners| - 1) else None
  }

  /** Find-or-create: the index of the entry for the key, appending a fresh one when there is none. */
  function EntryFor(owners: seq<OwnerEntry>, name: Option<string>, league: string, division: string)
    : (r: (seq<OwnerEntry>, nat))
    ensures r.1 < |r.0| && HasKey(r.0[r.1], name, league)
    ensures KeyIn(owners, name, league) ==> r.0 == owners
    ensures !KeyIn(owners, name, league) ==> r.0 == owners + [NewEntry(name, league, division)]
    ensures UniqueKeys(owners) ==> UniqueKeys(r.0)
  {
    match Find(owners, name, league)
    case Some(i) => (owners, i)
    case None => (owners + [NewEntry(name, league, division)], |owners|)
  }

  // ------------------------------------------------------------ matchups

  /** The owner a matchup's roster belongs to, `rosterMap[m.roster_id]`. */
  function MatchupOwner(ctx: LeagueContext, m: Matchup): Option<string>
  {
    OwnerOfRoster(ctx.rosterMap, m.rosterId)
  }

  /** One matchup of one week (the body of `matchups.forEach`). */
  function ApplyMatchup(owners: seq<OwnerEntry>, ctx: LeagueContext, week: int, m: Matchup): seq<OwnerEntry>
  {
    var ownerId := MatchupOwner(ctx, m);
    if !Claimed(ownerId) then owners
    else
      var name := DisplayName(ctx.userMap, ownerId);
      var (o, i) := EntryFor(owners, name, ctx.leagueName, ctx.division);
      o[i := o[i].(weekly := o[i].weekly[week := RoundToHundredths(StartersSum(m))])]
  }

  /** A week's matchups, in order. */
  function ApplyMatchups(owners: seq<OwnerEntry>, ctx: LeagueContext, week: int, ms: seq<Matchup>): seq<OwnerEntry>
  {
    if ms == [] then owners
    else ApplyMatchup(ApplyMatchups(owners, ctx, week, ms[..|ms| - 1]), ctx, week, ms[|ms| - 1])
  }

  /**
   * A claimed matchup creates its owner's entry if needed (with an empty
   * weekly map and total 0) and ASSIGNS the rounded starters' sum to that
   * week; nothing else in the ledger changes. An unclaimed one changes nothing.
   */
  lemma MatchupAssignsWeek(owners: seq<OwnerEntry>, ctx: LeagueContext, week: int, m: Matchup)
    requires UniqueKeys(owners)
    ensures var r := ApplyMatchup(owners, ctx, week, m);
            && UniqueKeys(r)
            && KeysKept(owners, r)
            && (!Claimed(MatchupOwner(ctx, m)) ==> r == owners)
            && (Claimed(MatchupOwner(ctx, m)) ==>
                  var name := DisplayName(ctx.userMap, MatchupOwner(ctx, m));
                  var i := Find(r, name, ctx.leagueName).value;
                  var before := if i < |owners| then owners[i] else NewEntry(name, ctx.leagueName, ctx.division);
                  && KeyIn(r, name, ctx.leagueName)
                  && |r| == (if KeyIn(owners, name, ctx.leagueName) then |owners| else |owners| + 1)
                  && r[i] == before.(weekly := before.weekly[week := RoundToHundredths(StartersSum(m))])
                  && forall j :: 0 <= j < |r| && j != i ==> r[j] == owners[j])
  {
    var r := ApplyMatchup(owners, ctx, week, m);
    if Claimed(MatchupOwner(ctx, m)) {
      var name := DisplayName(ctx.userMap, MatchupOwner(ctx, m));
      var (o, i) := EntryFor(owners, name, ctx.leagueName, ctx.division);
      assert r == o[i := o[i].(weekly := o[i].weekly[week := RoundToHundredths(StartersSum(m))])];
      assert HasKey(r[i], name, ctx.leagueName);
    }
  }

  /** Assignment, not addition: the same matchup applied twice leaves what it left once. */
  lemma MatchupTwice(owners: seq<OwnerEntry>, ctx: LeagueContext, week: int, m: Matchup)
    requires UniqueKeys(owners)
    ensures var once := ApplyMatchup(owners, ctx, week, m);
            ApplyMatchup(once, ctx, week, m) == once
  {
    var once := ApplyMatchup(owners, ctx, week, m);
    MatchupAssignsWeek(owners, ctx, week, m);
    if Claimed(MatchupOwner(ctx, m)) {
      var name := DisplayName(ctx.userMap, MatchupOwner(ctx, m));
      var i := Find(once, name, ctx.leagueName).value;
      var v := RoundToHundredths(StartersSum(m));
      assert once[i].weekly[week] == v;
      var twice := ApplyMatchup(once, ctx, week, m);
      assert twice == once[i := once[i].(weekly := once[i].weekly[week := v])];
      assert once[i].weekly[week := v] == once[i].weekly;
    }
  }

  lemma {:induction false} MatchupsKeepKeys(owners: seq<OwnerEntry>, ctx: LeagueContext, week: int, ms: seq<Matchup>)
    requires UniqueKeys(owners)
    ensures var r := ApplyMatchups(owners, ctx, week, ms);
            UniqueKeys(r) && KeysKept(owners, r)
    decreases |ms|
  {
    if ms != [] {
      var mid := ApplyMatchups(owners, ctx, week, ms[..|ms| - 1]);
      MatchupsKeepKeys(owners, ctx, week, ms[..|ms| - 1]);
      MatchupAssignsWeek(mid, ctx, week, ms[|ms| - 1]);
    }
  }

  /** The matchups whose roster has an owner, in order. */
  function ClaimedMatchups(ctx: LeagueContext, ms: seq<Matchup>): (r: seq<Matchup>)
    ensures |r| <= |ms|
    ensures forall m :: m in r <==> m in ms && Claimed(MatchupOwner(ctx, m))
  {
    if ms == [] then []
    else
      var last := ms[|ms| - 1];
      ClaimedMatchups(ctx, ms[..|ms| - 1]) + (if Claimed(MatchupOwner(ctx, last)) then [last] else [])
  }

  /** Matchups whose roster has no owner contribute nothing to a week. */
  lemma {:induction false} UnclaimedMatchupsIgnored(owners: seq<OwnerEntry>, ctx: LeagueContext, week: int, ms: seq<Matchup>)
    ensures ApplyMatchups(owners, ctx, week, ms) == ApplyMatchups(owners, ctx, week, ClaimedMatchups(ctx, ms))
    decreases |ms|
  {
    if ms != [] {
      var init, last := ms[..|ms| - 1], ms[|ms| - 1];
      var c := ClaimedMatchups(ctx, init);
      var before := ApplyMatchups(owners, ctx, week, init);
      UnclaimedMatchupsIgnored(owners, ctx, week, init);
      assert ApplyMatchups(owners, ctx, week, ms) == ApplyMatchup(before, ctx, week, last);
      if Claimed(MatchupOwner(ctx, last)) {
        var f := c + [last];
        assert f[..|f| - 1] == c;
        assert ClaimedMatchups(ctx, ms) == f;
        assert ApplyMatchups(owners, ctx, week, f) == ApplyMatchup(ApplyMatchups(owners, ctx, week, c), ctx, week, last);
      } else {
        assert ClaimedMatchups(ctx, ms) == c;
        assert ApplyMatchup(before, ctx, week, last) == before;
      }
    }
  }

  // ------------------------------------------------------------- rosters

  /** The key a roster's entry is filed under: `userMap[r.owner_id]`, possibly undefined. */
  function RosterName(ctx: LeagueContext, r: Roster): Option<string>
  {
    DisplayName(ctx.userMap, r.ownerId)
  }

  /** One roster (the body of `rosters.forEach`): find-or-create its entry and overwrite its total. */
  function ApplyRoster(owners: seq<OwnerEntry>, ctx: LeagueContext, r: Roster): seq<OwnerEntry>
  {
    var (o, i) := EntryFor(owners, RosterName(ctx, r), ctx.leagueName, ctx.division);
    o[i := o[i].(total := SeasonTotal(r.settings))]
  }

  function ApplyRosters(owners: seq<OwnerEntry>, ctx: LeagueContext, rs: seq<Roster>): seq<OwnerEntry>
  {
    if rs == [] then owners
    else ApplyRoster(ApplyRosters(owners, ctx, rs[..|rs| - 1]), ctx, rs[|rs| - 1])
  }

  /** Some roster of `rs` files under `name`. */
  predicate RosterNamed(ctx: LeagueContext, rs: seq<Roster>, name: Option<string>)
  {
    exists k :: 0 <= k < |rs| && RosterName(ctx, rs[k]) == name
  }

  /**
   * Reference definition of the total the roster pass leaves for `name`:
   * the season total of the LAST roster filed under it, or `default` when none is.
   */
  function LastTotal(ctx: LeagueContext, rs: seq<Roster>, name: Option<string>, default: int): int
  {
    if rs == [] then default
    else if RosterName(ctx, rs[|rs| - 1]) == name then SeasonTotal(rs[|rs| - 1].settings)
    else LastTotal(ctx, rs[..|rs| - 1], name, default)
  }

  lemma {:induction false} LastTotalDefault(ctx: LeagueContext, rs: seq<Roster>, name: Option<string>, d1: int, d2: int)
    ensures !RosterNamed(ctx, rs, name) ==> LastTotal(ctx, rs, name, d1) == d1
    ensures RosterNamed(ctx, rs, name) ==> LastTotal(ctx, rs, name, d1) == LastTotal(ctx, rs, name, d2)
    decreases |rs|
  {
    if rs != [] {
      var init := rs[..|rs| - 1];
      LastTotalDefault(ctx, init, name, d1, d2);
      if RosterName(ctx, rs[|rs| - 1]) != name {
        if RosterNamed(ctx, rs, name) {
          var k :| 0 <= k < |rs| && RosterName(ctx, rs[k]) == name;
          assert init[k] == rs[k];
        } else {
          assert !RosterNamed(ctx, init, name) by {
            forall k | 0 <= k < |init| ensures RosterName(ctx, init[k]) != name {
              assert init[k] == rs[k];
            }
          }
        }
      }
    }
  }

  /** One roster keeps keys unique and in place, and its key is present afterwards (added only if missing). */
  lemma RosterKeys(owners: seq<OwnerEntry>, ctx: LeagueContext, x: Roster)
    requires UniqueKeys(owners)
    ensures var r := ApplyRoster(owners, ctx, x);
            var name := RosterName(ctx, x);
            && UniqueKeys(r)
            && KeysKept(owners, r)
            && KeyIn(r, name, ctx.leagueName)
            && |r| == (if KeyIn(owners, name, ctx.leagueName) then |owners| else |owners| + 1)
  {
    var name := RosterName(ctx, x);
    var (o, i) := EntryFor(owners, name, ctx.leagueName, ctx.division);
    var r := ApplyRoster(owners, ctx, x);
    assert r == o[i := o[i].(total := SeasonTotal(x.settings))];
    assert HasKey(r[i], name, ctx.leagueName);
  }

  /** One roster overwrites the total of its key's entry (a fresh one if missing), and nothing else changes. */
  lemma RosterAssignsTotal(owners: seq<OwnerEntry>, ctx: LeagueContext, x: Roster)
    requires UniqueKeys(owners)
    ensures var r := ApplyRoster(owners, ctx, x);
            var name := RosterName(ctx, x);
            && KeyIn(r, name, ctx.leagueName)
            && var i := Find(r, name, ctx.leagueName).value;
               var before := if i < |owners| then owners[i] else NewEntry(name, ctx.leagueName, ctx.division);
               && |owners| <= |r|
               && r[i] == before.(total := SeasonTotal(x.settings))
               && forall j :: 0 <= j < |r| && j != i ==> r[j] == owners[j]
  {
    var name := RosterName(ctx, x);
    var (o, i) := EntryFor(owners, name, ctx.leagueName, ctx.division);
    var r := ApplyRoster(owners, ctx, x);
    assert r == o[i := o[i].(total := SeasonTotal(x.settings))];
    assert HasKey(r[i], name, ctx.leagueName);
  }

  /** The roster pass keeps keys unique and in place. */
  lemma {:induction false} RostersKeepKeys(owners: seq<OwnerEntry>, ctx: LeagueContext, rs: seq<Roster>)
    requires UniqueKeys(owners)
    ensures var r := ApplyRosters(owners, ctx, rs);
            UniqueKeys(r) && KeysKept(owners, r)
    decreases |rs|
  {
    if rs != [] {
      var init, x := rs[..|rs| - 1], rs[|rs| - 1];
      var mid := ApplyRosters(owners, ctx, init);
      RostersKeepKeys(owners, ctx, init);
      RosterKeys(mid, ctx, x);
    }
  }

  /** After the roster pass every roster's key has an entry. */
  lemma {:induction false} RostersCoverKeys(owners: seq<OwnerEntry>, ctx: LeagueContext, rs: seq<Roster>)
    requires UniqueKeys(owners)
    ensures var r := ApplyRosters(owners, ctx, rs);
            forall k :: 0 <= k < |rs| ==> KeyIn(r, RosterName(ctx, rs[k]), ctx.leagueName)
    decreases |rs|
  {
    if rs != [] {
      var init, x := rs[..|rs| - 1], rs[|rs| - 1];
      var mid := ApplyRosters(owners, ctx, init);
      var r := ApplyRoster(mid, ctx, x);
      RostersCoverKeys(owners, ctx, init);
      RostersKeepKeys(owners, ctx, init);
      RosterKeys(mid, ctx, x);
      forall k | 0 <= k < |rs|
        ensures KeyIn(r, RosterName(ctx, rs[k]), ctx.leagueName)
      {
        if k < |init| {
          assert rs[k] == init[k];
          var j :| 0 <= j < |mid| && HasKey(mid[j], RosterName(ctx, init[k]), ctx.leagueName);
          assert HasKey(r[j], RosterName(ctx, init[k]), ctx.leagueName);
        }
      }
    }
  }

  /** The roster pass adds no entry when every roster's key already has one. */
  lemma {:induction false} RostersNoGrowth(owners: seq<OwnerEntry>, ctx: LeagueContext, rs: seq<Roster>)
    requires UniqueKeys(owners)
    requires forall k :: 0 <= k < |rs| ==> KeyIn(owners, RosterName(ctx, rs[k]), ctx.leagueName)
    ensures |ApplyRosters(owners, ctx, rs)| == |owners|
    decreases |rs|
  {
    if rs != [] {
      var init, x := rs[..|rs| - 1], rs[|rs| - 1];
      var mid := ApplyRosters(owners, ctx, init);
      assert forall k :: 0 <= k < |init| ==> init[k] == rs[k];
      RostersNoGrowth(owners, ctx, init);
      RostersKeepKeys(owners, ctx, init);
      RosterKeys(mid, ctx, x);
      var j :| 0 <= j < |owners| && HasKey(owners[j], RosterName(ctx, x), ctx.leagueName);
      assert HasKey(mid[j], RosterName(ctx, x), ctx.leagueName);
    }
  }

  /** The roster pass changes nothing but the totals of the entries already there. */
  lemma {:induction false} RostersChangeOnlyTotals(owners: seq<OwnerEntry>, ctx: LeagueContext, rs: seq<Roster>)
    requires UniqueKeys(owners)
    ensures var r := ApplyRosters(owners, ctx, rs);
            && |owners| <= |r|
            && forall i :: 0 <= i < |owners| ==> r[i] == owners[i].(total := r[i].total)
    decreases |rs|
  {
    if rs != [] {
      var init, x := rs[..|rs| - 1], rs[|rs| - 1];
      var mid := ApplyRosters(owners, ctx, init);
      RostersChangeOnlyTotals(owners, ctx, init);
      RostersKeepKeys(owners, ctx, init);
      RosterAssignsTotal(mid, ctx, x);
    }
  }

  /**
   * The entries the roster pass adds belong to this league and division,
   * have no weekly points, and are each filed under some roster's key.
   */
  lemma {:induction false} RostersAddOnlyRosterKeys(owners: seq<OwnerEntry>, ctx: LeagueContext, rs: seq<Roster>)
    requires UniqueKeys(owners)
    ensures var r := ApplyRosters(owners, ctx, rs);
            forall i :: |owners| <= i < |r| ==>
              && r[i].weekly == map[] && r[i].leagueName == ctx.leagueName && r[i].division == ctx.division
              && RosterNamed(ctx, rs, r[i].ownerName)
    decreases |rs|
  {
    if rs != [] {
      var init, x := rs[..|rs| - 1], rs[|rs| - 1];
      var mid := ApplyRosters(owners, ctx, init);
      var r := ApplyRoster(mid, ctx, x);
      RostersAddOnlyRosterKeys(owners, ctx, init);
      RostersChangeOnlyTotals(owners, ctx, init);
      RostersKeepKeys(owners, ctx, init);
      RosterAssignsTotal(mid, ctx, x);
      forall i | |owners| <= i < |r|
        ensures r[i].weekly == map[] && r[i].leagueName == ctx.leagueName && r[i].division == ctx.division
        ensures RosterNamed(ctx, rs, r[i].ownerName)
      {
        if i < |mid| {
          var k :| 0 <= k < |init| && RosterName(ctx, init[k]) == mid[i].ownerName;
          assert rs[k] == init[k];
        } else {
          assert RosterName(ctx, rs[|rs| - 1]) == r[i].ownerName;
        }
      }
    }
  }

  /** Each total of this league after the roster pass is the last roster's season total for that key. */
  lemma {:induction false} RostersSetTotals(owners: seq<OwnerEntry>, ctx: LeagueContext, rs: seq<Roster>)
    requires UniqueKeys(owners)
    ensures var r := ApplyRosters(owners, ctx, rs);
            forall i :: 0 <= i < |r| ==>
              var d := if i < |owners| then owners[i].total else 0;
              r[i].total == if r[i].leagueName == ctx.leagueName then LastTotal(ctx, rs, r[i].ownerName, d) else d
    decreases |rs|
  {
    if rs != [] {
      var init, x := rs[..|rs| - 1], rs[|rs| - 1];
      var mid := ApplyRosters(owners, ctx, init);
      var r := ApplyRosters(owners, ctx, rs);
      RostersSetTotals(owners, ctx, init);
      RostersKeepKeys(owners, ctx, init);
      RosterAssignsTotal(mid, ctx, x);
      assert r == ApplyRoster(mid, ctx, x);
      var name := RosterName(ctx, x);
      var f := Find(r, name, ctx.leagueName).value;
      forall i | 0 <= i < |r|
        ensures var d := if i < |owners| then owners[i].total else 0;
                r[i].total == if r[i].leagueName == ctx.leagueName then LastTotal(ctx, rs, r[i].ownerName, d) else d
      {
        if i != f {
          assert r[i] == mid[i];
          if r[i].leagueName == ctx.leagueName {
            assert r[i].ownerName != name;
          }
        }
      }
    }
  }

  /** Running a league's roster pass a second time changes nothing. */
  lemma RostersTwice(owners: seq<OwnerEntry>, ctx: LeagueContext, rs: seq<Roster>)
    requires UniqueKeys(owners)
    ensures var once := ApplyRosters(owners, ctx, rs);
            ApplyRosters(once, ctx, rs) == once
  {
    var once := ApplyRosters(owners, ctx, rs);
    RostersKeepKeys(owners, ctx, rs);
    RostersCoverKeys(owners, ctx, rs);
    RostersChangeOnlyTotals(owners, ctx, rs);
    RostersAddOnlyRosterKeys(owners, ctx, rs);
    RostersSetTotals(owners, ctx, rs);
    var twice := ApplyRosters(once, ctx, rs);
    RostersKeepKeys(once, ctx, rs);
    RostersNoGrowth(once, ctx, rs);
    RostersChangeOnlyTotals(once, ctx, rs);
    RostersSetTotals(once, ctx, rs);
    forall i | 0 <= i < |once|
      ensures twice[i] == once[i]
    {
      var d := if i < |owners| then owners[i].total else 0;
      if once[i].leagueName == ctx.leagueName {
        LastTotalDefault(ctx, rs, once[i].ownerName, once[i].total, d);
      }
    }
  }

  // ---------------------------------------------------------- week walk

  /**
   * What one league's endpoints answer: `None` is a request that throws.
   * `matchups[w - 1]` answers `/matchups/w`; later weeks answer an empty list.
   */
  datatype LeagueFeed = LeagueFeed(
    info: Option<LeagueInfo>,
    users: Option<seq<User>>,
    rosters: Option<seq<Roster>>,
    matchups: seq<Option<seq<Matchup>>>)

  function Page(feed: LeagueFeed, week: int): Option<seq<Matchup>>
  {
    if 1 <= week <= |feed.matchups| then feed.matchups[week - 1] else Some([])
  }

  predicate NonEmptyPage(feed: LeagueFeed, week: int)
  {
    Page(feed, week).Some? && Page(feed, week).value != []
  }

  /**
   * `while (true)` from `week`: the number of weeks read before the first
   * empty page, or `None` when a request throws first.
   */
  function Walk(feed: LeagueFeed, week: int): (r: Option<nat>)
    requires week >= 1
    decreases |feed.matchups| + 1 - week
  {
    if week > |feed.matchups| then Some(0)
    else
      match Page(feed, week)
      case None => None
      case Some(ms) =>
        if ms == [] then Some(0)
        else
          match Walk(feed, week + 1)
          case None => None
          case Some(k) => Some(k + 1)
  }

  /** A walk that finishes read `k` non-empty pages and stopped at an empty one. */
  lemma {:induction false} WalkStopsAtEmptyPage(feed: LeagueFeed, week: int)
    requires week >= 1
    ensures Walk(feed, week).Some? ==>
              var k := Walk(feed, week).value;
              && (forall w :: week <= w < week + k ==> NonEmptyPage(feed, w))
              && Page(feed, week + k) == Some([])
    ensures Walk(feed, week).None? ==>
              exists w :: week <= w && Page(feed, w).None? && forall v :: week <= v < w ==> NonEmptyPage(feed, v)
    decreases |feed.matchups| + 1 - week
  {
    if week <= |feed.matchups| && NonEmptyPage(feed, week) {
      WalkStopsAtEmptyPage(feed, week + 1);
      if Walk(feed, week).None? {
        var w :| week + 1 <= w && Page(feed, w).None? && forall v :: week + 1 <= v < w ==> NonEmptyPage(feed, v);
        assert forall v :: week <= v < w ==> NonEmptyPage(feed, v);
      }
    }
  }

  /**
   * Once pages `start` .. `week - 1` were non-empty, the walk from `start`
   * fails if page `week` throws and reads `week - start` weeks if it is empty.
   */
  lemma {:induction false} WalkAfterPrefix(feed: LeagueFeed, start: int, week: int)
    requires 1 <= start <= week
    requires forall w :: start <= w < week ==> NonEmptyPage(feed, w)
    ensures Page(feed, week).None? ==> Walk(feed, start).None?
    ensures Page(feed, week) == Some([]) ==> Walk(feed, start) == Some(week - start)
    decreases week - start
  {
    if start < week {
      assert NonEmptyPage(feed, start);
      WalkAfterPrefix(feed, start + 1, week);
    }
  }

  /** Pages 1 .. `n` are all non-empty. */
  predicate PagesNonEmpty(feed: LeagueFeed, n: nat)
  {
    n == 0 || (PagesNonEmpty(feed, n - 1) && NonEmptyPage(feed, n))
  }

  lemma {:induction false} PagesNonEmptyAll(feed: LeagueFeed, n: nat)
    requires PagesNonEmpty(feed, n)
    ensures forall w :: 1 <= w <= n ==> NonEmptyPage(feed, w)
    decreases n
  {
    if n > 0 {
      PagesNonEmptyAll(feed, n - 1);
    }
  }

  function Max(a: nat, b: nat): nat
  {
    if a < b then b else a
  }

  /** Weeks `first`, `first + 1`, ..., `first + count - 1`. */
  function WeeksFrom(first: int, count: nat): (r: seq<int>)
    ensures |r| == count
  {
    if count == 0 then [] else WeeksFrom(first, count - 1) + [first + count - 1]
  }

  /** Position `i` of the run holds `first + i`. */
  lemma {:induction false} WeeksFromIndex(first: int, count: nat)
    ensures forall i :: 0 <= i < count ==> WeeksFrom(first, count)[i] == first + i
    decreases count
  {
    if count > 0 {
      WeeksFromIndex(first, count - 1);
    }
  }

  /** `weeksSet.add(1)`, ..., `weeksSet.add(n)`: what a walk that read `n` weeks adds. */
  function AddWeeks(weeksSet: seq<int>, n: nat): seq<int>
  {
    if n == 0 then weeksSet else SetAdd(AddWeeks(weeksSet, n - 1), n)
  }

  /** Weeks 1..n hold exactly the numbers 1 to n. */
  lemma WeeksFromOneMembers(n: nat, w: int)
    ensures w in WeeksFrom(1, n) <==> 1 <= w <= n
  {
    var ws := WeeksFrom(1, n);
    WeeksFromIndex(1, n);
    if 1 <= w <= n {
      assert ws[w - 1] == w;
    }
  }

  /** Adding weeks 1..b to the set holding weeks 1..a in order yields weeks 1..max(a, b) in order. */
  lemma {:induction false} AddWeeksFromOne(a: nat, b: nat)
    ensures AddWeeks(WeeksFrom(1, a), b) == WeeksFrom(1, Max(a, b))
    decreases b
  {
    if b > 0 {
      AddWeeksFromOne(a, b - 1);
      var m := Max(a, b - 1);
      var mid := WeeksFrom(1, m);
      assert AddWeeks(WeeksFrom(1, a), b) == SetAdd(mid, b);
      WeeksFromOneMembers(m, b);
      SetAddWeek(mid, m, b);
    }
  }

  /** Adding week b to weeks 1..m, for m at least b - 1, yields weeks 1..max(m, b). */
  lemma SetAddWeek(mid: seq<int>, m: nat, b: nat)
    requires b > 0 && m >= b - 1 && mid == WeeksFrom(1, m)
    requires b in mid <==> b <= m
    ensures SetAdd(mid, b) == WeeksFrom(1, Max(m, b))
  {
    if b > m {
      assert WeeksFrom(1, b) == mid + [b];
    }
  }

  /** Weeks `first` .. `first + count - 1`, each week's page applied in turn. */
  function ApplyWeeks(owners: seq<OwnerEntry>, ctx: LeagueContext, feed: LeagueFeed, first: int, count: nat): seq<OwnerEntry>
  {
    if count == 0 then owners
    else
      var week := first + count - 1;
      ApplyMatchups(ApplyWeeks(owners, ctx, feed, first, count - 1), ctx, week, Page(feed, week).GetOr([]))
  }

  /** Reading one more week applies that week's page. */
  lemma ApplyWeeksNext(owners: seq<OwnerEntry>, ctx: LeagueContext, feed: LeagueFeed, n: nat,
                       before: seq<OwnerEntry>, after: seq<OwnerEntry>)
    requires NonEmptyPage(feed, n + 1)
    requires before == ApplyWeeks(owners, ctx, feed, 1, n)
    requires after == ApplyMatchups(before, ctx, n + 1, Page(feed, n + 1).value)
    ensures after == ApplyWeeks(owners, ctx, feed, 1, n + 1)
  {
  }

  lemma {:induction false} WeeksKeepKeys(owners: seq<OwnerEntry>, ctx: LeagueContext, feed: LeagueFeed, first: int, count: nat)
    requires UniqueKeys(owners)
    ensures var r := ApplyWeeks(owners, ctx, feed, first, count);
            UniqueKeys(r) && KeysKept(owners, r)
    decreases count
  {
    if count > 0 {
      var week := first + count - 1;
      WeeksKeepKeys(owners, ctx, feed, first, count - 1);
      MatchupsKeepKeys(ApplyWeeks(owners, ctx, feed, first, count - 1), ctx, week, Page(feed, week).GetOr([]));
    }
  }

  // ------------------------------------------------------ leagues, output

  /** The script's three accumulators. */
  datatype State = State(owners: seq<OwnerEntry>, weeksSet: seq<int>, leaguesByDivision: map<string, seq<string>>)

  /** `json`: the file the script writes. */
  datatype Leaderboard = Leaderboard(
    weeks: seq<int>,
    owners: seq<OwnerEntry>,
    divisions: seq<string>,
    leaguesByDivision: map<string, seq<string>>)

  /** Some request of this league throws. */
  predicate FeedFails(feed: LeagueFeed)
  {
    feed.info.None? || feed.users.None? || feed.rosters.None? || Walk(feed, 1).None?
  }

  function ContextOf(feed: LeagueFeed, division: string): LeagueContext
    requires !FeedFails(feed)
  {
    LeagueContext(feed.info.value.name, division, UserMap(feed.users.value), RosterMap(feed.rosters.value))
  }

  function NamesIn(lbd: map<string, seq<string>>, division: string): seq<string>
  {
    if division in lbd then lbd[division] else []
  }

  /** One league of a division: push its name, walk its weeks, then its rosters. */
  function LeagueStep(st: State, division: string, feed: LeagueFeed): Option<State>
  {
    if FeedFails(feed) then None
    else
      var ctx := ContextOf(feed, division);
      var k := Walk(feed, 1).value;
      var owners := ApplyRosters(ApplyWeeks(st.owners, ctx, feed, 1, k), ctx, feed.rosters.value);
      Some(State(owners,
                 AddWeeks(st.weeksSet, k),
                 st.leaguesByDivision[division := NamesIn(st.leaguesByDivision, division) + [ctx.leagueName]]))
  }

  /** The leagues of one division in order; the first league that fails aborts. */
  function LeaguesStep(st: State, division: string, ids: seq<string>, fetch: string -> LeagueFeed): Option<State>
  {
    if ids == [] then Some(st)
    else
      match LeaguesStep(st, division, ids[..|ids| - 1], fetch)
      case None => None
      case Some(mid) => LeagueStep(mid, division, fetch(ids[|ids| - 1]))
  }

  function DivisionsStep(st: State, divs: seq<(string, seq<string>)>, fetch: string -> LeagueFeed): Option<State>
  {
    if divs == [] then Some(st)
    else
      match DivisionsStep(st, divs[..|divs| - 1], fetch)
      case None => None
      case Some(mid) =>
        var (division, ids) := divs[|divs| - 1];
        LeaguesStep(mid.(leaguesByDivision := mid.leaguesByDivision[division := []]), division, ids, fetch)
  }

  function IntLeq(a: int, b: int): bool
  {
    a <= b
  }

  lemma IntLeqTotal()
    ensures TotalPreorder(IntLeq)
  {
  }

  function DivisionNames(divs: seq<(string, seq<string>)>): (r: seq<string>)
    ensures |r| == |divs|
    ensures forall i :: 0 <= i < |divs| ==> r[i] == divs[i].0
  {
    if divs == [] then [] else DivisionNames(divs[..|divs| - 1]) + [divs[|divs| - 1].0]
  }

  /** Weeks 1..n are in ascending order. */
  lemma WeeksFromSorted(n: nat)
    ensures SortedBy(WeeksFrom(1, n), IntLeq)
  {
    WeeksFromIndex(1, n);
  }

  /** `fetchLeaderboard()` over the division map, or `None` when a request throws and nothing is written. */
  function Run(divs: seq<(string, seq<string>)>, fetch: string -> LeagueFeed): Option<Leaderboard>
  {
    match DivisionsStep(State([], [], map[]), divs, fetch)
    case None => None
    case Some(st) =>
      IntLeqTotal();
      Some(Leaderboard(SortBy(st.weeksSet, IntLeq), st.owners, DivisionNames(divs), st.leaguesByDivision))
  }

  // ------------------------------------------------------ run properties

  /** The weeks set holds exactly 1..n, ascending. */
  predicate WeeksFromOne(weeksSet: seq<int>)
  {
    weeksSet == WeeksFrom(1, |weeksSet|)
  }

  /** The name each league of `ids` is listed under (empty if its info never arrived). */
  function LeagueNames(ids: seq<string>, fetch: string -> LeagueFeed): (r: seq<string>)
    ensures |r| == |ids|
  {
    if ids == [] then []
    else
      var info := fetch(ids[|ids| - 1]).info;
      LeagueNames(ids[..|ids| - 1], fetch) + [if info.Some? then info.value.name else ""]
  }

  predicate SomeLeagueFails(ids: seq<string>, fetch: string -> LeagueFeed)
  {
    exists j :: 0 <= j < |ids| && FeedFails(fetch(ids[j]))
  }

  /** One league keeps the invariants: unique keys, weeks 1..n, and n covers the league's walk. */
  lemma LeagueStepKeeps(st: State, division: string, feed: LeagueFeed)
    requires UniqueKeys(st.owners) && WeeksFromOne(st.weeksSet)
    requires !FeedFails(feed)
    ensures var r := LeagueStep(st, division, feed).value;
            && UniqueKeys(r.owners)
            && WeeksFromOne(r.weeksSet)
            && |r.weeksSet| == Max(|st.weeksSet|, Walk(feed, 1).value)
  {
    var ctx := ContextOf(feed, division);
    var k := Walk(feed, 1).value;
    WeeksKeepKeys(st.owners, ctx, feed, 1, k);
    RostersKeepKeys(ApplyWeeks(st.owners, ctx, feed, 1, k), ctx, feed.rosters.value);
    AddWeeksFromOne(|st.weeksSet|, k);
  }

  /** Some league of `ids` fails exactly when one before the last does or the last does. */
  lemma SomeLeagueFailsLast(ids: seq<string>, fetch: string -> LeagueFeed)
    requires ids != []
    ensures SomeLeagueFails(ids, fetch) <==> SomeLeagueFails(ids[..|ids| - 1], fetch) || FeedFails(fetch(ids[|ids| - 1]))
  {
    var init := ids[..|ids| - 1];
    assert forall j :: 0 <= j < |init| ==> init[j] == ids[j];
    if SomeLeagueFails(ids, fetch) {
      var j :| 0 <= j < |ids| && FeedFails(fetch(ids[j]));
      if j < |init| {
        assert FeedFails(fetch(init[j]));
      }
    }
  }

  /** One division's run of leagues fails exactly when one of its leagues does. */
  lemma {:induction false} LeaguesFail(st: State, division: string, ids: seq<string>, fetch: string -> LeagueFeed)
    ensures LeaguesStep(st, division, ids, fetch).None? <==> SomeLeagueFails(ids, fetch)
    decreases |ids|
  {
    if ids != [] {
      var init, id := ids[..|ids| - 1], ids[|ids| - 1];
      LeaguesFail(st, division, init, fetch);
      SomeLeagueFailsLast(ids, fetch);
    }
  }

  /** A division whose leagues all answer lists their names, in order, under the division. */
  lemma {:induction false} LeaguesListNames(st: State, division: string, ids: seq<string>, fetch: string -> LeagueFeed)
    requires division in st.leaguesByDivision
    ensures LeaguesStep(st, division, ids, fetch).Some? ==>
              LeaguesStep(st, division, ids, fetch).value.leaguesByDivision
              == st.leaguesByDivision[division := st.leaguesByDivision[division] + LeagueNames(ids, fetch)]
    decreases |ids|
  {
    var m, before := st.leaguesByDivision, st.leaguesByDivision[division];
    if ids == [] {
      assert before + [] == before;
      assert m[division := before] == m;
    } else if LeaguesStep(st, division, ids, fetch).Some? {
      var init, id := ids[..|ids| - 1], ids[|ids| - 1];
      LeaguesListNames(st, division, init, fetch);
      var mid := LeaguesStep(st, division, init, fetch).value;
      var feed := fetch(id);
      var name := feed.info.value.name;
      assert LeaguesStep(st, division, ids, fetch) == LeagueStep(mid, division, feed);
      assert mid.leaguesByDivision == m[division := before + LeagueNames(init, fetch)];
      assert LeagueNames(ids, fetch) == LeagueNames(init, fetch) + [name];
      assert before + LeagueNames(init, fetch) + [name] == before + LeagueNames(ids, fetch);
    }
  }

  /** A division whose leagues all answer keeps the ledger's keys unique and its weeks 1..n. */
  lemma {:induction false} LeaguesKeep(st: State, division: string, ids: seq<string>, fetch: string -> LeagueFeed)
    requires UniqueKeys(st.owners) && WeeksFromOne(st.weeksSet)
    ensures LeaguesStep(st, division, ids, fetch).Some? ==>
              var r := LeaguesStep(st, division, ids, fetch).value;
              UniqueKeys(r.owners) && WeeksFromOne(r.weeksSet)
    decreases |ids|
  {
    if ids != [] && LeaguesStep(st, division, ids, fetch).Some? {
      var init, id := ids[..|ids| - 1], ids[|ids| - 1];
      LeaguesKeep(st, division, init, fetch);
      var mid := LeaguesStep(st, division, init, fetch).value;
      assert LeaguesStep(st, division, ids, fetch) == LeagueStep(mid, division, fetch(id));
      LeagueStepKeeps(mid, division, fetch(id));
    }
  }

  /** How many weeks a league's walk read (0 when it failed). */
  function WalkCount(feed: LeagueFeed): nat
  {
    Walk(feed, 1).GetOr(0)
  }


  /** The longest walk among the leagues of `ids`. */
  function Horizon(ids: seq<string>, fetch: string -> LeagueFeed): nat
  {
    if ids == [] then 0 else Max(Horizon(ids[..|ids| - 1], fetch), WalkCount(fetch(ids[|ids| - 1])))
  }

  /** Every walk of `ids` is at most the horizon, and some walk reaches it. */
  lemma {:induction false} HorizonBounds(ids: seq<string>, fetch: string -> LeagueFeed)
    ensures forall j :: 0 <= j < |ids| ==> WalkCount(fetch(ids[j])) <= Horizon(ids, fetch)
    ensures Horizon(ids, fetch) == 0 || exists j :: 0 <= j < |ids| && WalkCount(fetch(ids[j])) == Horizon(ids, fetch)
    decreases |ids|
  {
    if ids != [] {
      var init := ids[..|ids| - 1];
      HorizonBounds(init, fetch);
      assert forall j :: 0 <= j < |init| ==> init[j] == ids[j];
      if Horizon(ids, fetch) != WalkCount(fetch(ids[|ids| - 1])) {
        var j :| 0 <= j < |init| && WalkCount(fetch(init[j])) == Horizon(init, fetch);
        assert WalkCount(fetch(ids[j])) == Horizon(ids, fetch);
      }
    }
  }

  /** After a division whose leagues all answer, the weeks are 1..n for n the longest walk so far. */
  lemma {:induction false} LeaguesWeeks(st: State, division: string, ids: seq<string>, fetch: string -> LeagueFeed)
    requires UniqueKeys(st.owners) && WeeksFromOne(st.weeksSet)
    ensures LeaguesStep(st, division, ids, fetch).Some? ==>
              LeaguesStep(st, division, ids, fetch).value.weeksSet == WeeksFrom(1, Max(|st.weeksSet|, Horizon(ids, fetch)))
    decreases |ids|
  {
    if ids != [] && LeaguesStep(st, division, ids, fetch).Some? {
      var init, id := ids[..|ids| - 1], ids[|ids| - 1];
      LeaguesWeeks(st, division, init, fetch);
      LeaguesKeep(st, division, init, fetch);
      var mid := LeaguesStep(st, division, init, fetch).value;
      assert LeaguesStep(st, division, ids, fetch) == LeagueStep(mid, division, fetch(id));
      LeagueStepKeeps(mid, division, fetch(id));
    }
  }

  // ------------------------------------------------------ the divisions

  predicate SomeDivisionFails(divs: seq<(string, seq<string>)>, fetch: string -> LeagueFeed)
  {
    exists i :: 0 <= i < |divs| && SomeLeagueFails(divs[i].1, fetch)
  }

  /** The longest walk of any league of any division. */
  function DivisionsHorizon(divs: seq<(string, seq<string>)>, fetch: string -> LeagueFeed): nat
  {
    if divs == [] then 0 else Max(DivisionsHorizon(divs[..|divs| - 1], fetch), Horizon(divs[|divs| - 1].1, fetch))
  }

  /** Every division's horizon is at most the overall one, and some division reaches it. */
  lemma {:induction false} DivisionsHorizonBounds(divs: seq<(string, seq<string>)>, fetch: string -> LeagueFeed)
    ensures forall i :: 0 <= i < |divs| ==> Horizon(divs[i].1, fetch) <= DivisionsHorizon(divs, fetch)
    ensures DivisionsHorizon(divs, fetch) == 0 || exists i :: 0 <= i < |divs| && Horizon(divs[i].1, fetch) == DivisionsHorizon(divs, fetch)
    decreases |divs|
  {
    if divs != [] {
      var init := divs[..|divs| - 1];
      DivisionsHorizonBounds(init, fetch);
      assert forall i :: 0 <= i < |init| ==> init[i] == divs[i];
      if DivisionsHorizon(divs, fetch) != Horizon(divs[|divs| - 1].1, fetch) {
        var i :| 0 <= i < |init| && Horizon(init[i].1, fetch) == DivisionsHorizon(init, fetch);
        assert Horizon(divs[i].1, fetch) == DivisionsHorizon(divs, fetch);
      }
    }
  }

  /** Some division of `divs` fails exactly when one before the last does or the last does. */
  lemma SomeDivisionFailsLast(divs: seq<(string, seq<string>)>, fetch: string -> LeagueFeed)
    requires divs != []
    ensures SomeDivisionFails(divs, fetch) <==> SomeDivisionFails(divs[..|divs| - 1], fetch) || SomeLeagueFails(divs[|divs| - 1].1, fetch)
  {
    var init := divs[..|divs| - 1];
    assert forall i :: 0 <= i < |init| ==> init[i] == divs[i];
    if SomeDivisionFails(divs, fetch) {
      var i :| 0 <= i < |divs| && SomeLeagueFails(divs[i].1, fetch);
      if i < |init| {
        assert SomeLeagueFails(init[i].1, fetch);
      }
    }
  }

  /** The script produces nothing exactly when some request of some league throws. */
  lemma {:induction false} DivisionsFail(st: State, divs: seq<(string, seq<string>)>, fetch: string -> LeagueFeed)
    ensures DivisionsStep(st, divs, fetch).None? <==> SomeDivisionFails(divs, fetch)
    decreases |divs|
  {
    if divs != [] {
      var init, d := divs[..|divs| - 1], divs[|divs| - 1];
      DivisionsFail(st, init, fetch);
      SomeDivisionFailsLast(divs, fetch);
      if DivisionsStep(st, init, fetch).Some? {
        var mid := DivisionsStep(st, init, fetch).value;
        var mid' := mid.(leaguesByDivision := mid.leaguesByDivision[d.0 := []]);
        LeaguesFail(mid', d.0, d.1, fetch);
      }
    }
  }

  /** After all divisions the ledger's keys are unique and the weeks are 1..n for n the longest walk. */
  lemma {:induction false} DivisionsKeep(st: State, divs: seq<(string, seq<string>)>, fetch: string -> LeagueFeed)
    requires UniqueKeys(st.owners) && WeeksFromOne(st.weeksSet)
    ensures DivisionsStep(st, divs, fetch).Some? ==>
              var r := DivisionsStep(st, divs, fetch).value;
              && UniqueKeys(r.owners)
              && r.weeksSet == WeeksFrom(1, Max(|st.weeksSet|, DivisionsHorizon(divs, fetch)))
    decreases |divs|
  {
    if divs != [] && DivisionsStep(st, divs, fetch).Some? {
      var init, d := divs[..|divs| - 1], divs[|divs| - 1];
      DivisionsKeep(st, init, fetch);
      var mid := DivisionsStep(st, init, fetch).value;
      var mid' := mid.(leaguesByDivision := mid.leaguesByDivision[d.0 := []]);
      assert DivisionsStep(st, divs, fetch) == LeaguesStep(mid', d.0, d.1, fetch);
      LeaguesKeep(mid', d.0, d.1, fetch);
      LeaguesWeeks(mid', d.0, d.1, fetch);
    }
  }

  lemma DivisionKeysLast(divs: seq<(string, seq<string>)>, init: seq<(string, seq<string>)>)
    requires divs != [] && init == divs[..|divs| - 1]
    ensures (set i | 0 <= i < |divs| :: divs[i].0) == (set i | 0 <= i < |init| :: init[i].0) + {divs[|divs| - 1].0}
  {
    var names := set i | 0 <= i < |divs| :: divs[i].0;
    forall x | x in names ensures x in (set i | 0 <= i < |init| :: init[i].0) + {divs[|divs| - 1].0} {
      var i :| 0 <= i < |divs| && divs[i].0 == x;
      if i < |init| {
        assert init[i].0 == x;
      }
    }
    forall x | x in (set i | 0 <= i < |init| :: init[i].0) ensures x in names {
      var i :| 0 <= i < |init| && init[i].0 == x;
      assert divs[i].0 == x;
    }
    assert divs[|divs| - 1].0 in names;
  }

  /** Every division gets an entry in `leaguesByDivision`, and no other key is added. */
  lemma {:induction false} DivisionsListKeys(st: State, divs: seq<(string, seq<string>)>, fetch: string -> LeagueFeed)
    ensures DivisionsStep(st, divs, fetch).Some? ==>
              DivisionsStep(st, divs, fetch).value.leaguesByDivision.Keys
              == st.leaguesByDivision.Keys + (set i | 0 <= i < |divs| :: divs[i].0)
    decreases |divs|
  {
    if divs != [] && DivisionsStep(st, divs, fetch).Some? {
      var init, d := divs[..|divs| - 1], divs[|divs| - 1];
      DivisionsListKeys(st, init, fetch);
      var mid := DivisionsStep(st, init, fetch).value;
      var mid' := mid.(leaguesByDivision := mid.leaguesByDivision[d.0 := []]);
      assert DivisionsStep(st, divs, fetch) == LeaguesStep(mid', d.0, d.1, fetch);
      LeaguesListNames(mid', d.0, d.1, fetch);
      DivisionKeysLast(divs, init);
    }
  }

  /**
   * The map step behind DivisionsListNames: setting the last division's list
   * keeps the list of every earlier division whose name differs.
   */
  lemma NamesAfterDivision(divs: seq<(string, seq<string>)>, init: seq<(string, seq<string>)>, fetch: string -> LeagueFeed,
                           before: map<string, seq<string>>, after: map<string, seq<string>>)
    requires divs != [] && init == divs[..|divs| - 1]
    requires forall i :: 0 <= i < |divs| - 1 ==> divs[i].0 != divs[|divs| - 1].0
    requires forall i :: 0 <= i < |init| ==> init[i].0 in before && before[init[i].0] == LeagueNames(init[i].1, fetch)
    requires after == before[divs[|divs| - 1].0 := LeagueNames(divs[|divs| - 1].1, fetch)]
    ensures forall i :: 0 <= i < |divs| ==> divs[i].0 in after && after[divs[i].0] == LeagueNames(divs[i].1, fetch)
  {
    forall i | 0 <= i < |divs|
      ensures divs[i].0 in after && after[divs[i].0] == LeagueNames(divs[i].1, fetch)
    {
      if i < |init| {
        assert init[i] == divs[i];
      }
    }
  }

  /** Distinct names: the earlier ones differ from the last, and stay distinct. */
  lemma DistinctInit(divs: seq<(string, seq<string>)>)
    requires divs != [] && Distinct(DivisionNames(divs))
    ensures Distinct(DivisionNames(divs[..|divs| - 1]))
    ensures forall i :: 0 <= i < |divs| - 1 ==> divs[i].0 != divs[|divs| - 1].0
  {
    var init := divs[..|divs| - 1];
    var names, pre := DivisionNames(divs), DivisionNames(init);
    forall i, j | 0 <= i < j < |pre| ensures pre[i] != pre[j] {
      assert init[i] == divs[i] && init[j] == divs[j];
      assert names[i] != names[j];
    }
    forall i | 0 <= i < |divs| - 1 ensures divs[i].0 != divs[|divs| - 1].0 {
      assert names[i] != names[|divs| - 1];
    }
  }

  /** With distinct division names, each division lists exactly its own leagues' names, in order. */
  lemma {:induction false} DivisionsListNames(st: State, divs: seq<(string, seq<string>)>, fetch: string -> LeagueFeed)
    requires Distinct(DivisionNames(divs))
    ensures DivisionsStep(st, divs, fetch).Some? ==>
              var r := DivisionsStep(st, divs, fetch).value;
              forall i :: 0 <= i < |divs| ==>
                divs[i].0 in r.leaguesByDivision && r.leaguesByDivision[divs[i].0] == LeagueNames(divs[i].1, fetch)
    decreases |divs|
  {
    if divs != [] && DivisionsStep(st, divs, fetch).Some? {
      var init, d := divs[..|divs| - 1], divs[|divs| - 1];
      DistinctInit(divs);
      DivisionsListNames(st, init, fetch);
      var mid := DivisionsStep(st, init, fetch).value;
      var mid' := mid.(leaguesByDivision := mid.leaguesByDivision[d.0 := []]);
      LeaguesListNames(mid', d.0, d.1, fetch);
      var r := LeaguesStep(mid', d.0, d.1, fetch).value;
      assert [] + LeagueNames(d.1, fetch) == LeagueNames(d.1, fetch);
      NamesAfterDivision(divs, init, fetch, mid.leaguesByDivision, r.leaguesByDivision);
    }
  }

  // --------------------------------------------------------- the output

  /**
   * What the written file holds, when every request answers: the weeks
   * 1..n ascending for n the longest walk of any league, owners with unique
   * (ownerName, leagueName) keys, the division names in map order, and,
   * when those names are distinct, each division's league names in order.
   * When any request throws nothing is produced.
   */
  lemma RunSpec(divs: seq<(string, seq<string>)>, fetch: string -> LeagueFeed)
    ensures Run(divs, fetch).None? <==> SomeDivisionFails(divs, fetch)
    ensures Run(divs, fetch).Some? ==>
              var lb := Run(divs, fetch).value;
              && lb.weeks == WeeksFrom(1, DivisionsHorizon(divs, fetch))
              && UniqueKeys(lb.owners)
              && lb.divisions == DivisionNames(divs)
              && (Distinct(DivisionNames(divs)) ==>
                    && lb.leaguesByDivision.Keys == (set i | 0 <= i < |divs| :: divs[i].0)
                    && forall i :: 0 <= i < |divs| ==> lb.leaguesByDivision[divs[i].0] == LeagueNames(divs[i].1, fetch))
  {
    var st0 := State([], [], map[]);
    DivisionsFail(st0, divs, fetch);
    if DivisionsStep(st0, divs, fetch).Some? {
      DivisionsKeep(st0, divs, fetch);
      DivisionsListKeys(st0, divs, fetch);
      if Distinct(DivisionNames(divs)) {
        DivisionsListNames(st0, divs, fetch);
      }
      var st := DivisionsStep(st0, divs, fetch).value;
      IntLeqTotal();
      WeeksFromSorted(DivisionsHorizon(divs, fetch));
      SortSorted(st.weeksSet, IntLeq);
    }
  }

  /** A league whose request throws, anywhere in the division map, leaves nothing written. */
  lemma RunAbortsOnFailure(divs: seq<(string, seq<string>)>, fetch: string -> LeagueFeed, i: int, j: int)
    requires 0 <= i < |divs| && 0 <= j < |divs[i].1|
    requires FeedFails(fetch(divs[i].1[j]))
    ensures Run(divs, fetch).None?
  {
    DivisionsFail(State([], [], map[]), divs, fetch);
    assert SomeLeagueFails(divs[i].1, fetch);
  }

  // ----------------------------------------------- what each key holds

  /** An entry's two scores: its weekly map and its season total. */
  datatype Score = Score(weekly: map<int, int>, total: int)

  const NoScore := Score(map[], 0)

  /** The scores of the entry filed under (name, league), or those of a fresh entry when there is none. */
  function ScoreOf(owners: seq<OwnerEntry>, name: Option<string>, league: string): Score
  {
    match Find(owners, name, league)
    case Some(i) => Score(owners[i].weekly, owners[i].total)
    case None => NoScore
  }

  /** Entries with the same key at every position are searched alike. */
  lemma {:induction false} FindSameKeys(a: seq<OwnerEntry>, b: seq<OwnerEntry>, name: Option<string>, league: string)
    requires |a| == |b|
    requires forall j :: 0 <= j < |a| ==> HasKey(b[j], a[j].ownerName, a[j].leagueName)
    ensures Find(b, name, league) == Find(a, name, league)
    decreases |a|
  {
    if a != [] {
      FindSameKeys(a[..|a| - 1], b[..|b| - 1], name, league);
    }
  }

  /** Searching after an append: the old entry if there was one, else the appended one if it has the key. */
  lemma FindAppend(a: seq<OwnerEntry>, e: OwnerEntry, name: Option<string>, league: string)
    ensures Find(a + [e], name, league)
            == if KeyIn(a, name, league) then Find(a, name, league)
               else if HasKey(e, name, league) then Some(|a|) else None
  {
    assert (a + [e])[..|a|] == a;
  }

  /** Replacing an entry by one with the same key changes the scores of that key only. */
  lemma ScoreAfterUpdate(owners: seq<OwnerEntry>, i: int, e: OwnerEntry, name: Option<string>, league: string)
    requires 0 <= i < |owners| && HasKey(e, owners[i].ownerName, owners[i].leagueName)
    requires Find(owners, e.ownerName, e.leagueName) == Some(i)
    ensures ScoreOf(owners[i := e], name, league)
            == if HasKey(e, name, league) then Score(e.weekly, e.total) else ScoreOf(owners, name, league)
  {
    FindSameKeys(owners, owners[i := e], name, league);
  }

  /** Appending an entry under a new key gives that key the entry's scores and changes no other. */
  lemma ScoreAfterAppend(owners: seq<OwnerEntry>, e: OwnerEntry, name: Option<string>, league: string)
    requires !KeyIn(owners, e.ownerName, e.leagueName)
    ensures ScoreOf(owners + [e], name, league)
            == if HasKey(e, name, league) then Score(e.weekly, e.total) else ScoreOf(owners, name, league)
  {
    FindAppend(owners, e, name, league);
  }

  /** A claimed matchup whose owner's display name is `name`. */
  predicate FiledUnder(ctx: LeagueContext, m: Matchup, name: Option<string>)
  {
    Claimed(MatchupOwner(ctx, m)) && DisplayName(ctx.userMap, MatchupOwner(ctx, m)) == name
  }

  /**
   * Reference definition of what one week's page sets for `name`: the rounded
   * points of the LAST matchup filed under it, or `None` when none is.
   */
  function PagePoints(ctx: LeagueContext, ms: seq<Matchup>, name: Option<string>): (r: Option<int>)
    ensures r.None? <==> forall j :: 0 <= j < |ms| ==> !FiledUnder(ctx, ms[j], name)
  {
    if ms == [] then None
    else if FiledUnder(ctx, ms[|ms| - 1], name) then Some(RoundToHundredths(StartersSum(ms[|ms| - 1])))
    else
      var r := PagePoints(ctx, ms[..|ms| - 1], name);
      assert forall j :: 0 <= j < |ms| - 1 ==> ms[..|ms| - 1][j] == ms[j];
      r
  }

  /** `ms[j]` is filed under `name` and no later matchup of `ms` is. */
  predicate LastFiled(ctx: LeagueContext, ms: seq<Matchup>, j: int, name: Option<string>)
  {
    0 <= j < |ms| && FiledUnder(ctx, ms[j], name) && forall k :: j < k < |ms| ==> !FiledUnder(ctx, ms[k], name)
  }

  lemma LastFiledExtend(ctx: LeagueContext, ms: seq<Matchup>, j: int, name: Option<string>)
    requires ms != [] && !FiledUnder(ctx, ms[|ms| - 1], name)
    requires LastFiled(ctx, ms[..|ms| - 1], j, name)
    ensures LastFiled(ctx, ms, j, name)
  {
    assert forall k :: j < k < |ms| - 1 ==> ms[..|ms| - 1][k] == ms[k];
  }

  /** The points a page sets come from its last matchup filed under the name. */
  lemma {:induction false} PagePointsLast(ctx: LeagueContext, ms: seq<Matchup>, name: Option<string>)
    requires PagePoints(ctx, ms, name).Some?
    ensures exists j :: LastFiled(ctx, ms, j, name) && PagePoints(ctx, ms, name).value == RoundToHundredths(StartersSum(ms[j]))
    decreases |ms|
  {
    if FiledUnder(ctx, ms[|ms| - 1], name) {
      assert LastFiled(ctx, ms, |ms| - 1, name);
    } else {
      var init := ms[..|ms| - 1];
      PagePointsLast(ctx, init, name);
      var j :| LastFiled(ctx, init, j, name) && PagePoints(ctx, init, name).value == RoundToHundredths(StartersSum(init[j]));
      LastFiledExtend(ctx, ms, j, name);
      assert ms[j] == init[j];
    }
  }

  function SetWeek(weekly: map<int, int>, week: int, p: Option<int>): map<int, int>
  {
    if p.Some? then weekly[week := p.value] else weekly
  }

  lemma SetWeekOverwrite(weekly: map<int, int>, week: int, p: Option<int>, v: int)
    ensures SetWeek(weekly, week, p)[week := v] == weekly[week := v]
  {
  }

  /** Reference definition: a weekly map after the pages of weeks `first` .. `first + count - 1` set what they give `name`. */
  function WeeksWeekly(weekly: map<int, int>, ctx: LeagueContext, feed: LeagueFeed, name: Option<string>, first: int, count: nat)
    : map<int, int>
  {
    if count == 0 then weekly
    else
      var week := first + count - 1;
      SetWeek(WeeksWeekly(weekly, ctx, feed, name, first, count - 1), week, PagePoints(ctx, Page(feed, week).GetOr([]), name))
  }

  /**
   * Week `w` after the walk: the points of page w's last matchup filed under
   * `name` when w was read and the name played in it; otherwise what it was.
   */
  lemma {:induction false} WeeksWeeklyAt(weekly: map<int, int>, ctx: LeagueContext, feed: LeagueFeed, name: Option<string>,
                                         first: int, count: nat, w: int)
    ensures var r := WeeksWeekly(weekly, ctx, feed, name, first, count);
            var p := PagePoints(ctx, Page(feed, w).GetOr([]), name);
            && (first <= w < first + count && p.Some? ==> w in r && r[w] == p.value)
            && (!(first <= w < first + count && p.Some?) ==> (w in r <==> w in weekly) && (w in weekly ==> r[w] == weekly[w]))
    decreases count
  {
    if count > 0 {
      WeeksWeeklyAt(weekly, ctx, feed, name, first, count - 1, w);
    }
  }

  /** One matchup sets the week of the key it is filed under and changes no other key's scores. */
  lemma MatchupScore(owners: seq<OwnerEntry>, ctx: LeagueContext, week: int, m: Matchup, name: Option<string>, league: string)
    ensures var before := ScoreOf(owners, name, league);
            ScoreOf(ApplyMatchup(owners, ctx, week, m), name, league)
            == if league == ctx.leagueName && FiledUnder(ctx, m, name)
               then before.(weekly := before.weekly[week := RoundToHundredths(StartersSum(m))])
               else before
  {
    var ownerId := MatchupOwner(ctx, m);
    if Claimed(ownerId) {
      var n := DisplayName(ctx.userMap, ownerId);
      var p := RoundToHundredths(StartersSum(m));
      match Find(owners, n, ctx.leagueName)
      case Some(i) =>
        var e := owners[i].(weekly := owners[i].weekly[week := p]);
        assert owners[i := e] == ApplyMatchup(owners, ctx, week, m);
        ScoreAfterUpdate(owners, i, e, name, league);
      case None =>
        var e := NewEntry(n, ctx.leagueName, ctx.division);
        var e' := e.(weekly := e.weekly[week := p]);
        assert (owners + [e])[|owners| := e'] == owners + [e'];
        assert owners + [e'] == ApplyMatchup(owners, ctx, week, m);
        ScoreAfterAppend(owners, e', name, league);
    }
  }

  /** A week's page sets, for each key of this league, what `PagePoints` gives its name; no total changes. */
  lemma {:induction false} MatchupsScore(owners: seq<OwnerEntry>, ctx: LeagueContext, week: int, ms: seq<Matchup>,
                                         name: Option<string>, league: string)
    ensures var before := ScoreOf(owners, name, league);
            ScoreOf(ApplyMatchups(owners, ctx, week, ms), name, league)
            == if league == ctx.leagueName then before.(weekly := SetWeek(before.weekly, week, PagePoints(ctx, ms, name)))
               else before
    decreases |ms|
  {
    if ms != [] {
      var init := ms[..|ms| - 1];
      MatchupsScore(owners, ctx, week, init, name, league);
      MatchupScore(ApplyMatchups(owners, ctx, week, init), ctx, week, ms[|ms| - 1], name, league);
      if league == ctx.leagueName && FiledUnder(ctx, ms[|ms| - 1], name) {
        var wk := ScoreOf(owners, name, league).weekly;
        var p := RoundToHundredths(StartersSum(ms[|ms| - 1]));
        SetWeekOverwrite(wk, week, PagePoints(ctx, init, name), p);
      }
    }
  }

  /** The week walk sets, for each key of this league, week after week what `WeeksWeekly` says; no total changes. */
  lemma {:induction false} WeeksScore(owners: seq<OwnerEntry>, ctx: LeagueContext, feed: LeagueFeed, first: int, count: nat,
                                      name: Option<string>, league: string)
    ensures var before := ScoreOf(owners, name, league);
            ScoreOf(ApplyWeeks(owners, ctx, feed, first, count), name, league)
            == if league == ctx.leagueName then before.(weekly := WeeksWeekly(before.weekly, ctx, feed, name, first, count))
               else before
    decreases count
  {
    if count > 0 {
      var week := first + count - 1;
      WeeksScore(owners, ctx, feed, first, count - 1, name, league);
      MatchupsScore(ApplyWeeks(owners, ctx, feed, first, count - 1), ctx, week, Page(feed, week).GetOr([]), name, league);
    }
  }

  /** One roster overwrites the total of the key it is filed under and changes nothing else. */
  lemma RosterScore(owners: seq<OwnerEntry>, ctx: LeagueContext, x: Roster, name: Option<string>, league: string)
    ensures var before := ScoreOf(owners, name, league);
            ScoreOf(ApplyRoster(owners, ctx, x), name, league)
            == if league == ctx.leagueName && RosterName(ctx, x) == name then before.(total := SeasonTotal(x.settings))
               else before
  {
    var n := RosterName(ctx, x);
    var t := SeasonTotal(x.settings);
    match Find(owners, n, ctx.leagueName)
    case Some(i) =>
      var e := owners[i].(total := t);
      assert owners[i := e] == ApplyRoster(owners, ctx, x);
      ScoreAfterUpdate(owners, i, e, name, league);
    case None =>
      var e := NewEntry(n, ctx.leagueName, ctx.division);
      var e' := e.(total := t);
      assert (owners + [e])[|owners| := e'] == owners + [e'];
      assert owners + [e'] == ApplyRoster(owners, ctx, x);
      ScoreAfterAppend(owners, e', name, league);
  }

  /** The roster pass leaves each key of this league the total of its last roster (`LastTotal`); no weekly map changes. */
  lemma {:induction false} RostersScore(owners: seq<OwnerEntry>, ctx: LeagueContext, rs: seq<Roster>, name: Option<string>, league: string)
    ensures var before := ScoreOf(owners, name, league);
            ScoreOf(ApplyRosters(owners, ctx, rs), name, league)
            == if league == ctx.leagueName then before.(total := LastTotal(ctx, rs, name, before.total))
               else before
    decreases |rs|
  {
    if rs != [] {
      var init := rs[..|rs| - 1];
      RostersScore(owners, ctx, init, name, league);
      RosterScore(ApplyRosters(owners, ctx, init), ctx, rs[|rs| - 1], name, league);
    }
  }

  /**
   * Reference definition of one league's effect on the scores of (name, league):
   * a league under another name, or one whose requests throw, leaves them;
   * otherwise its week walk sets the weeks and its rosters the total.
   */
  function LeagueScore(s: Score, division: string, feed: LeagueFeed, name: Option<string>, league: string): Score
  {
    if FeedFails(feed) || league != feed.info.value.name then s
    else
      var ctx := ContextOf(feed, division);
      Score(WeeksWeekly(s.weekly, ctx, feed, name, 1, Walk(feed, 1).value), LastTotal(ctx, feed.rosters.value, name, s.total))
  }

  /** The leagues of one division, in order. */
  function LeaguesScore(s: Score, division: string, ids: seq<string>, fetch: string -> LeagueFeed, name: Option<string>, league: string)
    : Score
  {
    if ids == [] then s
    else LeagueScore(LeaguesScore(s, division, ids[..|ids| - 1], fetch, name, league), division, fetch(ids[|ids| - 1]), name, league)
  }

  /** Every division's leagues, in order. */
  function DivisionsScore(s: Score, divs: seq<(string, seq<string>)>, fetch: string -> LeagueFeed, name: Option<string>, league: string)
    : Score
  {
    if divs == [] then s
    else LeaguesScore(DivisionsScore(s, divs[..|divs| - 1], fetch, name, league), divs[|divs| - 1].0, divs[|divs| - 1].1, fetch, name, league)
  }

  /** One league moves every key's scores as `LeagueScore` says. */
  lemma LeagueStepScore(st: State, division: string, feed: LeagueFeed, name: Option<string>, league: string)
    requires !FeedFails(feed)
    ensures ScoreOf(LeagueStep(st, division, feed).value.owners, name, league)
            == LeagueScore(ScoreOf(st.owners, name, league), division, feed, name, league)
  {
    var ctx := ContextOf(feed, division);
    var k := Walk(feed, 1).value;
    WeeksScore(st.owners, ctx, feed, 1, k, name, league);
    RostersScore(ApplyWeeks(st.owners, ctx, feed, 1, k), ctx, feed.rosters.value, name, league);
  }

  lemma {:induction false} LeaguesStepScore(st: State, division: string, ids: seq<string>, fetch: string -> LeagueFeed,
                                            name: Option<string>, league: string)
    ensures LeaguesStep(st, division, ids, fetch).Some? ==>
              ScoreOf(LeaguesStep(st, division, ids, fetch).value.owners, name, league)
              == LeaguesScore(ScoreOf(st.owners, name, league), division, ids, fetch, name, league)
    decreases |ids|
  {
    if ids != [] && LeaguesStep(st, division, ids, fetch).Some? {
      var init := ids[..|ids| - 1];
      LeaguesStepScore(st, division, init, fetch, name, league);
      var mid := LeaguesStep(st, division, init, fetch).value;
      LeagueStepScore(mid, division, fetch(ids[|ids| - 1]), name, league);
    }
  }

  lemma {:induction false} DivisionsStepScore(st: State, divs: seq<(string, seq<string>)>, fetch: string -> LeagueFeed,
                                              name: Option<string>, league: string)
    ensures DivisionsStep(st, divs, fetch).Some? ==>
              ScoreOf(DivisionsStep(st, divs, fetch).value.owners, name, league)
              == DivisionsScore(ScoreOf(st.owners, name, league), divs, fetch, name, league)
    decreases |divs|
  {
    if divs != [] && DivisionsStep(st, divs, fetch).Some? {
      var init := divs[..|divs| - 1];
      DivisionsStepScore(st, init, fetch, name, league);
      var mid := DivisionsStep(st, init, fetch).value;
      var (division, ids) := divs[|divs| - 1];
      LeaguesStepScore(mid.(leaguesByDivision := mid.leaguesByDivision[division := []]), division, ids, fetch, name, league);
    }
  }

  /** With unique keys, the scores filed under an entry's own key are that entry's. */
  lemma ScoreOfEntry(owners: seq<OwnerEntry>, i: int)
    requires UniqueKeys(owners) && 0 <= i < |owners|
    ensures ScoreOf(owners, owners[i].ownerName, owners[i].leagueName) == Score(owners[i].weekly, owners[i].total)
  {
    assert KeyIn(owners, owners[i].ownerName, owners[i].leagueName);
  }

  /**
   * The contents of the written file: every entry's weekly map and total are
   * what the leagues carrying its league name give its owner name, league
   * after league in run order (`DivisionsScore`), starting from an empty map and 0.
   */
  lemma RunScores(divs: seq<(string, seq<string>)>, fetch: string -> LeagueFeed)
    ensures Run(divs, fetch).Some? ==>
              var lb := Run(divs, fetch).value;
              forall i :: 0 <= i < |lb.owners| ==>
                Score(lb.owners[i].weekly, lb.owners[i].total)
                == DivisionsScore(NoScore, divs, fetch, lb.owners[i].ownerName, lb.owners[i].leagueName)
  {
    var st0 := State([], [], map[]);
    if DivisionsStep(st0, divs, fetch).Some? {
      var lb := Run(divs, fetch).value;
      RunSpec(divs, fetch);
      forall i | 0 <= i < |lb.owners|
        ensures Score(lb.owners[i].weekly, lb.owners[i].total)
                == DivisionsScore(NoScore, divs, fetch, lb.owners[i].ownerName, lb.owners[i].leagueName)
      {
        DivisionsStepScore(st0, divs, fetch, lb.owners[i].ownerName, lb.owners[i].leagueName);
        ScoreOfEntry(lb.owners, i);
      }
    }
  }

  // ------------------------------------------------ which keys are filed

  /** Replacing an entry by one with the same key keeps the set of keys. */
  lemma KeyInUpdate(owners: seq<OwnerEntry>, i: int, e: OwnerEntry, name: Option<string>, league: string)
    requires 0 <= i < |owners| && HasKey(e, owners[i].ownerName, owners[i].leagueName)
    ensures KeyIn(owners[i := e], name, league) <==> KeyIn(owners, name, league)
  {
    FindSameKeys(owners, owners[i := e], name, league);
  }

  lemma KeyInAppend(owners: seq<OwnerEntry>, e: OwnerEntry, name: Option<string>, league: string)
    ensures KeyIn(owners + [e], name, league) <==> KeyIn(owners, name, league) || HasKey(e, name, league)
  {
    FindAppend(owners, e, name, league);
  }

  /** One matchup files its key if it is claimed, and no other. */
  lemma MatchupKeyIn(owners: seq<OwnerEntry>, ctx: LeagueContext, week: int, m: Matchup, name: Option<string>, league: string)
    ensures KeyIn(ApplyMatchup(owners, ctx, week, m), name, league)
            <==> KeyIn(owners, name, league) || (league == ctx.leagueName && FiledUnder(ctx, m, name))
  {
    var ownerId := MatchupOwner(ctx, m);
    if Claimed(ownerId) {
      var n := DisplayName(ctx.userMap, ownerId);
      var p := RoundToHundredths(StartersSum(m));
      match Find(owners, n, ctx.leagueName)
      case Some(i) =>
        var e := owners[i].(weekly := owners[i].weekly[week := p]);
        assert owners[i := e] == ApplyMatchup(owners, ctx, week, m);
        KeyInUpdate(owners, i, e, name, league);
        if league == ctx.leagueName && name == n {
          assert HasKey(owners[i], name, league);
        }
      case None =>
        var e := NewEntry(n, ctx.leagueName, ctx.division);
        var e' := e.(weekly := e.weekly[week := p]);
        assert (owners + [e])[|owners| := e'] == owners + [e'];
        assert owners + [e'] == ApplyMatchup(owners, ctx, week, m);
        KeyInAppend(owners, e', name, league);
    }
  }

  /** A page files exactly the keys of its claimed matchups. */
  lemma {:induction false} MatchupsKeyIn(owners: seq<OwnerEntry>, ctx: LeagueContext, week: int, ms: seq<Matchup>,
                                         name: Option<string>, league: string)
    ensures KeyIn(ApplyMatchups(owners, ctx, week, ms), name, league)
            <==> KeyIn(owners, name, league) || (league == ctx.leagueName && PagePoints(ctx, ms, name).Some?)
    decreases |ms|
  {
    if ms != [] {
      var init := ms[..|ms| - 1];
      MatchupsKeyIn(owners, ctx, week, init, name, league);
      MatchupKeyIn(ApplyMatchups(owners, ctx, week, init), ctx, week, ms[|ms| - 1], name, league);
    }
  }

  /** `name` has a claimed matchup on the page of week `w`. */
  predicate Played(ctx: LeagueContext, feed: LeagueFeed, name: Option<string>, w: int)
  {
    PagePoints(ctx, Page(feed, w).GetOr([]), name).Some?
  }

  /** `name` has a claimed matchup on one of the pages of weeks `first` .. `first + count - 1`. */
  predicate PlayedWithin(ctx: LeagueContext, feed: LeagueFeed, name: Option<string>, first: int, count: nat)
  {
    exists w :: first <= w < first + count && Played(ctx, feed, name, w)
  }

  lemma PlayedWithinLast(ctx: LeagueContext, feed: LeagueFeed, name: Option<string>, first: int, count: nat)
    requires count > 0
    ensures PlayedWithin(ctx, feed, name, first, count)
            <==> PlayedWithin(ctx, feed, name, first, count - 1) || Played(ctx, feed, name, first + count - 1)
  {
    if PlayedWithin(ctx, feed, name, first, count) {
      var w :| first <= w < first + count && Played(ctx, feed, name, w);
      if w < first + count - 1 {
        assert PlayedWithin(ctx, feed, name, first, count - 1);
      }
    }
    if PlayedWithin(ctx, feed, name, first, count - 1) {
      var w :| first <= w < first + count - 1 && Played(ctx, feed, name, w);
      assert first <= w < first + count;
    }
  }

  /** The week walk files exactly the keys with a claimed matchup on a page it read. */
  lemma {:induction false} WeeksKeyIn(owners: seq<OwnerEntry>, ctx: LeagueContext, feed: LeagueFeed, first: int, count: nat,
                                      name: Option<string>, league: string)
    ensures KeyIn(ApplyWeeks(owners, ctx, feed, first, count), name, league)
            <==> KeyIn(owners, name, league) || (league == ctx.leagueName && PlayedWithin(ctx, feed, name, first, count))
    decreases count
  {
    if count > 0 {
      var week := first + count - 1;
      WeeksKeyIn(owners, ctx, feed, first, count - 1, name, league);
      MatchupsKeyIn(ApplyWeeks(owners, ctx, feed, first, count - 1), ctx, week, Page(feed, week).GetOr([]), name, league);
      PlayedWithinLast(ctx, feed, name, first, count);
    }
  }

  /** One roster files its key, owned or not, and no other. */
  lemma RosterKeyIn(owners: seq<OwnerEntry>, ctx: LeagueContext, x: Roster, name: Option<string>, league: string)
    ensures KeyIn(ApplyRoster(owners, ctx, x), name, league)
            <==> KeyIn(owners, name, league) || (league == ctx.leagueName && RosterName(ctx, x) == name)
  {
    var n := RosterName(ctx, x);
    var t := SeasonTotal(x.settings);
    match Find(owners, n, ctx.leagueName)
    case Some(i) =>
      var e := owners[i].(total := t);
      assert owners[i := e] == ApplyRoster(owners, ctx, x);
      KeyInUpdate(owners, i, e, name, league);
      if league == ctx.leagueName && name == n {
        assert HasKey(owners[i], name, league);
      }
    case None =>
      var e := NewEntry(n, ctx.leagueName, ctx.division);
      var e' := e.(total := t);
      assert (owners + [e])[|owners| := e'] == owners + [e'];
      assert owners + [e'] == ApplyRoster(owners, ctx, x);
      KeyInAppend(owners, e', name, league);
  }

  lemma RosterNamedLast(ctx: LeagueContext, rs: seq<Roster>, name: Option<string>)
    requires rs != []
    ensures RosterNamed(ctx, rs, name) <==> RosterNamed(ctx, rs[..|rs| - 1], name) || RosterName(ctx, rs[|rs| - 1]) == name
  {
    var init := rs[..|rs| - 1];
    assert forall k :: 0 <= k < |init| ==> init[k] == rs[k];
    if RosterNamed(ctx, rs, name) {
      var k :| 0 <= k < |rs| && RosterName(ctx, rs[k]) == name;
      if k < |init| {
        assert RosterName(ctx, init[k]) == name;
      }
    }
  }

  /** The roster pass files exactly the keys of its rosters. */
  lemma {:induction false} RostersKeyIn(owners: seq<OwnerEntry>, ctx: LeagueContext, rs: seq<Roster>, name: Option<string>, league: string)
    ensures KeyIn(ApplyRosters(owners, ctx, rs), name, league)
            <==> KeyIn(owners, name, league) || (league == ctx.leagueName && RosterNamed(ctx, rs, name))
    decreases |rs|
  {
    if rs != [] {
      var init := rs[..|rs| - 1];
      RostersKeyIn(owners, ctx, init, name, league);
      RosterKeyIn(ApplyRosters(owners, ctx, init), ctx, rs[|rs| - 1], name, league);
      RosterNamedLast(ctx, rs, name);
    }
  }

  /**
   * One league that answers, read under the name `league`, files (name, league):
   * some roster of it is filed under `name`, or some page it read has a claimed
   * matchup filed under `name`.
   */
  predicate LeagueFiles(division: string, feed: LeagueFeed, name: Option<string>, league: string)
  {
    && !FeedFails(feed)
    && feed.info.value.name == league
    && var ctx := ContextOf(feed, division);
       (RosterNamed(ctx, feed.rosters.value, name) || PlayedWithin(ctx, feed, name, 1, Walk(feed, 1).value))
  }

  /** One league files exactly the keys `LeagueFiles` names. */
  lemma LeagueStepKeyIn(st: State, division: string, feed: LeagueFeed, name: Option<string>, league: string)
    requires !FeedFails(feed)
    ensures KeyIn(LeagueStep(st, division, feed).value.owners, name, league)
            <==> KeyIn(st.owners, name, league) || LeagueFiles(division, feed, name, league)
  {
    var ctx := ContextOf(feed, division);
    var k := Walk(feed, 1).value;
    WeeksKeyIn(st.owners, ctx, feed, 1, k, name, league);
    RostersKeyIn(ApplyWeeks(st.owners, ctx, feed, 1, k), ctx, feed.rosters.value, name, league);
  }

  predicate LeaguesFile(division: string, ids: seq<string>, fetch: string -> LeagueFeed, name: Option<string>, league: string)
  {
    exists j :: 0 <= j < |ids| && LeagueFiles(division, fetch(ids[j]), name, league)
  }

  lemma LeaguesFileLast(division: string, ids: seq<string>, fetch: string -> LeagueFeed, name: Option<string>, league: string)
    requires ids != []
    ensures LeaguesFile(division, ids, fetch, name, league)
            <==> LeaguesFile(division, ids[..|ids| - 1], fetch, name, league) || LeagueFiles(division, fetch(ids[|ids| - 1]), name, league)
  {
    var init := ids[..|ids| - 1];
    assert forall j :: 0 <= j < |init| ==> init[j] == ids[j];
    if LeaguesFile(division, ids, fetch, name, league) {
      var j :| 0 <= j < |ids| && LeagueFiles(division, fetch(ids[j]), name, league);
      if j < |init| {
        assert LeagueFiles(division, fetch(init[j]), name, league);
      }
    }
  }

  lemma {:induction false} LeaguesStepKeyIn(st: State, division: string, ids: seq<string>, fetch: string -> LeagueFeed,
                                            name: Option<string>, league: string)
    ensures LeaguesStep(st, division, ids, fetch).Some? ==>
              (KeyIn(LeaguesStep(st, division, ids, fetch).value.owners, name, league)
               <==> KeyIn(st.owners, name, league) || LeaguesFile(division, ids, fetch, name, league))
    decreases |ids|
  {
    if ids != [] && LeaguesStep(st, division, ids, fetch).Some? {
      var init := ids[..|ids| - 1];
      LeaguesStepKeyIn(st, division, init, fetch, name, league);
      var mid := LeaguesStep(st, division, init, fetch).value;
      LeagueStepKeyIn(mid, division, fetch(ids[|ids| - 1]), name, league);
      LeaguesFileLast(division, ids, fetch, name, league);
    }
  }

  predicate DivisionsFile(divs: seq<(string, seq<string>)>, fetch: string -> LeagueFeed, name: Option<string>, league: string)
  {
    exists i :: 0 <= i < |divs| && LeaguesFile(divs[i].0, divs[i].1, fetch, name, league)
  }

  lemma DivisionsFileLast(divs: seq<(string, seq<string>)>, fetch: string -> LeagueFeed, name: Option<string>, league: string)
    requires divs != []
    ensures DivisionsFile(divs, fetch, name, league)
            <==> DivisionsFile(divs[..|divs| - 1], fetch, name, league)
                 || LeaguesFile(divs[|divs| - 1].0, divs[|divs| - 1].1, fetch, name, league)
  {
    var init := divs[..|divs| - 1];
    assert forall i :: 0 <= i < |init| ==> init[i] == divs[i];
    if DivisionsFile(divs, fetch, name, league) {
      var i :| 0 <= i < |divs| && LeaguesFile(divs[i].0, divs[i].1, fetch, name, league);
      if i < |init| {
        assert LeaguesFile(init[i].0, init[i].1, fetch, name, league);
      }
    }
  }

  lemma {:induction false} DivisionsStepKeyIn(st: State, divs: seq<(string, seq<string>)>, fetch: string -> LeagueFeed,
                                              name: Option<string>, league: string)
    ensures DivisionsStep(st, divs, fetch).Some? ==>
              (KeyIn(DivisionsStep(st, divs, fetch).value.owners, name, league)
               <==> KeyIn(st.owners, name, league) || DivisionsFile(divs, fetch, name, league))
    decreases |divs|
  {
    if divs != [] && DivisionsStep(st, divs, fetch).Some? {
      var init := divs[..|divs| - 1];
      DivisionsStepKeyIn(st, init, fetch, name, league);
      var mid := DivisionsStep(st, init, fetch).value;
      var (division, ids) := divs[|divs| - 1];
      LeaguesStepKeyIn(mid.(leaguesByDivision := mid.leaguesByDivision[division := []]), division, ids, fetch, name, league);
      DivisionsFileLast(divs, fetch, name, league);
    }
  }

  /**
   * The entries of the written file: one for (name, league) exactly when some
   * league of some division, read under the name `league`, has a roster filed
   * under `name` (owned or not) or a claimed matchup filed under `name` on a
   * page its walk read.
   */
  lemma RunKeys(divs: seq<(string, seq<string>)>, fetch: string -> LeagueFeed, name: Option<string>, league: string)
    ensures Run(divs, fetch).Some? ==>
              (KeyIn(Run(divs, fetch).value.owners, name, league) <==> DivisionsFile(divs, fetch, name, league))
  {
    DivisionsStepKeyIn(State([], [], map[]), divs, fetch, name, league);
  }
}

/**
 * The records the Sleeper API returns, as the leaderboard scripts read them, and the
 * lookups every consumer builds from them.
 *
 * Points: a roster's season total is kept in integer hundredths of a point;
 * a matchup's `starters_points` are kept in integer ten-thousandths, finer
 * than the two decimals the ledger stores.
 */
module Sleeper {
  import opened Wrappers
  import opened Collections
  import Text

  /** `settings.fpts_decimal`: the two-digit fractional part of a season total. */
  type Hundredths = d: int | 0 <= d < 100

  /** `{user_id, display_name}` from `/league/{id}/users`. */
  datatype User = User(userId: string, displayName: string)

  /** `settings.fpts` (whole points) and `settings.fpts_decimal` of a roster. */
  datatype Settings = Settings(fpts: int, fptsDecimal: Hundredths)

  /** `{roster_id, owner_id, settings}` from `/league/{id}/rosters`; `owner_id` may be null. */
  datatype Roster = Roster(rosterId: int, ownerId: Option<string>, settings: Settings)

  /** `{roster_id, starters_points}` from `/league/{id}/matchups/{week}`; the points may be absent. */
  datatype Matchup = Matchup(rosterId: int, startersPoints: Option<seq<int>>)

  /** `{name, total_rosters}` from `/league/{id}`; an absent name is the empty string. */
  datatype LeagueInfo = LeagueInfo(name: string, totalRosters: Option<int>)

  /** JavaScript truthiness of an `owner_id`: present and not the empty string. */
  predicate Claimed(ownerId: Option<string>)
  {
    ownerId.Some? && ownerId.value != ""
  }

  /** No user after index `i` has the id of user `i`. */
  predicate LastUserWithId(users: seq<User>, i: int)
    requires 0 <= i < |users|
  {
    forall j :: i < j < |users| ==> users[j].userId != users[i].userId
  }

  /** `users.forEach(u => (userMap[u.user_id] = u.display_name))`. */
  function UserMap(users: seq<User>): map<string, string>
  {
    if users == [] then map[]
    else UserMap(users[..|users| - 1])[users[|users| - 1].userId := users[|users| - 1].displayName]
  }

  /** The user ids are exactly the keys of the user map. */
  lemma {:induction false} UserMapKeys(users: seq<User>)
    ensures UserMap(users).Keys == set u | u in users :: u.userId
    decreases |users|
  {
    if users != [] {
      var init, last := users[..|users| - 1], users[|users| - 1];
      UserMapKeys(init);
      assert users == init + [last];
    }
  }

  /** The last user listed with an id gives the name stored under it. */
  lemma {:induction false} UserMapLastWins(users: seq<User>, i: int)
    requires 0 <= i < |users| && LastUserWithId(users, i)
    ensures users[i].userId in UserMap(users)
    ensures UserMap(users)[users[i].userId] == users[i].displayName
    decreases |users|
  {
    var init, last := users[..|users| - 1], users[|users| - 1];
    if i < |users| - 1 {
      assert LastUserWithId(init, i);
      UserMapLastWins(init, i);
    }
  }

  /** `rosters.forEach(r => (rosterMap[r.roster_id] = r.owner_id))`. */
  function RosterMap(rosters: seq<Roster>): map<int, Option<string>>
  {
    if rosters == [] then map[]
    else RosterMap(rosters[..|rosters| - 1])[rosters[|rosters| - 1].rosterId := rosters[|rosters| - 1].ownerId]
  }

  /** No roster after index `i` has the id of roster `i`. */
  predicate LastRosterWithId(rosters: seq<Roster>, i: int)
    requires 0 <= i < |rosters|
  {
    forall j :: i < j < |rosters| ==> rosters[j].rosterId != rosters[i].rosterId
  }

  /** The roster ids are exactly the keys of the roster map. */
  lemma {:induction false} RosterMapKeys(rosters: seq<Roster>)
    ensures RosterMap(rosters).Keys == set r | r in rosters :: r.rosterId
    decreases |rosters|
  {
    if rosters != [] {
      var init, last := rosters[..|rosters| - 1], rosters[|rosters| - 1];
      RosterMapKeys(init);
      assert rosters == init + [last];
    }
  }

  /** The last roster listed with an id gives the owner stored under it. */
  lemma {:induction false} RosterMapLastWins(rosters: seq<Roster>, i: int)
    requires 0 <= i < |rosters| && LastRosterWithId(rosters, i)
    ensures rosters[i].rosterId in RosterMap(rosters)
    ensures RosterMap(rosters)[rosters[i].rosterId] == rosters[i].ownerId
    decreases |rosters|
  {
    var init, last := rosters[..|rosters| - 1], rosters[|rosters| - 1];
    if i < |rosters| - 1 {
      assert LastRosterWithId(init, i);
      RosterMapLastWins(init, i);
    }
  }

  /** `users.forEach(u => (userMap[u.user_id] = u.display_name))`. */
  method BuildUserMap(users: seq<User>) returns (userMap: map<string, string>)
    ensures userMap == UserMap(users)
  {
    userMap := map[];
    for i := 0 to |users|
      invariant userMap == UserMap(users[..i])
    {
      assert users[..i + 1][..i] == users[..i];
      userMap := userMap[users[i].userId := users[i].displayName];
    }
    assert users[..|users|] == users;
  }

  /** `rosters.forEach(r => (rosterMap[r.roster_id] = r.owner_id))`. */
  method BuildRosterMap(rosters: seq<Roster>) returns (rosterMap: map<int, Option<string>>)
    ensures rosterMap == RosterMap(rosters)
  {
    rosterMap := map[];
    for i := 0 to |rosters|
      invariant rosterMap == RosterMap(rosters[..i])
    {
      assert rosters[..i + 1][..i] == rosters[..i];
      rosterMap := rosterMap[rosters[i].rosterId := rosters[i].ownerId];
    }
    assert rosters[..|rosters|] == rosters;
  }

  /** `rosterMap[m.roster_id]`: undefined for a roster id nobody listed. */
  function OwnerOfRoster(rosterMap: map<int, Option<string>>, rosterId: int): Option<string>
  {
    if rosterId in rosterMap then rosterMap[rosterId] else None
  }

  /** `userMap[ownerId]`: undefined for a missing owner or an unknown user. */
  function DisplayName(userMap: map<string, string>, ownerId: Option<string>): (r: Option<string>)
    ensures r.Some? <==> ownerId.Some? && ownerId.value in userMap
    ensures r.Some? ==> r.value == userMap[ownerId.value]
  {
    if ownerId.Some? && ownerId.value in userMap then Some(userMap[ownerId.value]) else None
  }

  /** `(m.starters_points || []).reduce((a, b) => a + b, 0)`, in ten-thousandths. */
  function StartersSum(m: Matchup): int
  {
    Sum(m.startersPoints.GetOr([]))
  }

  /**
   * `Number(pts.toFixed(2))`: ten-thousandths to hundredths, to the nearest,
   * halves away from zero.
   */
  function RoundToHundredths(raw: int): (h: int)
    ensures -50 <= raw - h * 100 <= 50
    ensures raw % 100 == 0 ==> h * 100 == raw
  {
    if raw >= 0 then (raw + 50) / 100 else -((-raw + 50) / 100)
  }

  /**
   * The season total in hundredths: `fpts` whole points and `fpts_decimal`
   * hundredths, the sign of a negative whole part carried over the fraction.
   * SeasonTotalParses shows this is what the source's `parseFloat` of the
   * text `${fpts}.${String(fpts_decimal).padStart(2, "0")}` yields.
   */
  function SeasonTotal(s: Settings): int
  {
    if s.fpts < 0 then s.fpts * 100 - s.fptsDecimal else s.fpts * 100 + s.fptsDecimal
  }

  /** Printing the two fields as fixed-point text and parsing it back gives SeasonTotal. */
  lemma SeasonTotalParses(s: Settings)
    ensures var parsed := Text.ParseHundredths(Text.FixedPointText(s.fpts, s.fptsDecimal));
            parsed.Some? && parsed.value == SeasonTotal(s)
  {
    Text.FixedPointRoundTrip(s.fpts, s.fptsDecimal);
  }

  /** The text for (123, 7) is "123.07", so the total is 123.07 points, not 123.7. */
  lemma SeasonTotalExample()
    ensures Text.FixedPointText(123, 7) == "123.07"
    ensures SeasonTotal(Settings(123, 7)) == 12307
  {
    Text.FixedPointTextExample();
  }
}

/**
 * `src/utils/computeYearStats.js`: for every year of loaded leaderboards,
 * how many teams play in "full" leagues and how many distinct owner names
 * those teams have. A league is full in a mode when it has at least the
 * mode's minimum number of ledger entries.
 */
module YearStats {
  import opened Wrappers
  import opened Collections
  import Ledger

  type Entry = Ledger.OwnerEntry

  /** The built-in minimum league size per mode. */
  const Defaults: map<string, int> := map[
    "big_game" := 10,
    "mini_game" := 12,
    "redraft" := 12,
    "redraft_2025" := 12,
    "triathlon" := 12,
    "dynasty" := 12]

  /** `{ ...defaults, ...perModeMinSizes }`: an override replaces the default of its mode. */
  function MinByMode(overrides: map<string, int>): map<string, int>
  {
    Defaults + overrides
  }

  /** `minByMode[modeKey] ?? 0`. */
  function MinSize(overrides: map<string, int>, mode: string): int
  {
    var table := MinByMode(overrides);
    if mode in table then table[mode] else 0
  }

  /** The threshold is the override if there is one, else the built-in default, else 0. */
  lemma MinSizeOrder(overrides: map<string, int>, mode: string)
    ensures mode in overrides ==> MinSize(overrides, mode) == overrides[mode]
    ensures mode !in overrides && mode in Defaults ==> MinSize(overrides, mode) == Defaults[mode]
    ensures mode !in overrides && mode !in Defaults ==> MinSize(overrides, mode) == 0
    ensures overrides == map[] ==> MinSize(overrides, "big_game") == 10 && MinSize(overrides, "dynasty") == 12
  {
  }

  /** A mode's block; `owners` may be missing, and so may the whole block. */
  datatype Block = Block(owners: Option<seq<Entry>>)

  /** `block?.owners || []`. */
  function OwnersOf(block: Option<Block>): seq<Entry>
  {
    if block.Some? && block.value.owners.Some? then block.value.owners.value else []
  }

  // -------------------------------------------------------------- grouping

  /** The league name of each entry, in order. */
  function Leagues(owners: seq<Entry>): seq<string>
  {
    if owners == [] then [] else Leagues(owners[..|owners| - 1]) + [owners[|owners| - 1].leagueName]
  }

  lemma {:induction false} LeaguesMembers(owners: seq<Entry>, k: string)
    ensures k in Leagues(owners) <==> exists e :: e in owners && e.leagueName == k
    decreases |owners|
  {
    if owners != [] {
      var init := owners[..|owners| - 1];
      LeaguesMembers(init, k);
      assert owners == init + [owners[|owners| - 1]];
    }
  }

  /** The entries of league `k`, in order: what `byLeague.get(k)` holds once grouping ends. */
  function InLeague(owners: seq<Entry>, k: string): seq<Entry>
  {
    if owners == [] then []
    else
      var e := owners[|owners| - 1];
      InLeague(owners[..|owners| - 1], k) + (if e.leagueName == k then [e] else [])
  }

  /** Each entry lies in the group of its own league and in no other: the groups partition the entries. */
  lemma {:induction false} InLeagueMembers(owners: seq<Entry>, k: string, e: Entry)
    ensures e in InLeague(owners, k) <==> e in owners && e.leagueName == k
    decreases |owners|
  {
    if owners != [] {
      var init := owners[..|owners| - 1];
      InLeagueMembers(init, k, e);
      assert owners == init + [owners[|owners| - 1]];
    }
  }

  lemma InLeagueEmpty(owners: seq<Entry>, k: string)
    requires k !in Leagues(owners)
    ensures InLeague(owners, k) == []
  {
    LeaguesMembers(owners, k);
    if InLeague(owners, k) != [] {
      InLeagueMembers(owners, k, InLeague(owners, k)[0]);
    }
  }

  /** The league keys of `byLeague`, in the order the Map first saw them. */
  function LeagueKeys(owners: seq<Entry>): seq<string>
  {
    if owners == [] then [] else SetAdd(LeagueKeys(owners[..|owners| - 1]), owners[|owners| - 1].leagueName)
  }

  lemma LeagueKeysStep(s: seq<Entry>, o: Entry)
    ensures LeagueKeys(s + [o]) == SetAdd(LeagueKeys(s), o.leagueName)
  {
    var s' := s + [o];
    assert s'[..|s'| - 1] == s;
  }

  /** The keys are distinct and are exactly the entries' league names. */
  lemma {:induction false} LeagueKeysMembers(owners: seq<Entry>)
    ensures Distinct(LeagueKeys(owners))
    ensures forall k :: k in LeagueKeys(owners) <==> k in Leagues(owners)
    decreases |owners|
  {
    if owners != [] {
      LeagueKeysMembers(owners[..|owners| - 1]);
    }
  }

  lemma InLeagueStep(s: seq<Entry>, o: Entry, k: string)
    ensures InLeague(s + [o], k) == if o.leagueName == k then InLeague(s, k) + [o] else InLeague(s, k)
  {
    var s' := s + [o];
    assert s'[..|s'| - 1] == s;
    assert InLeague(s, k) + [] == InLeague(s, k);
  }

  /** Every list in the Map holds exactly its league's entries of `s`, in order. */
  ghost predicate ListsMatch(s: seq<Entry>, byLeague: map<string, seq<Entry>>)
  {
    forall k :: k in byLeague ==> byLeague[k] == InLeague(s, k)
  }

  /** Pushing an entry onto its league's list, created empty if it was missing, keeps the lists exact. */
  lemma ListsStep(s: seq<Entry>, o: Entry, byLeague: map<string, seq<Entry>>, byLeague': map<string, seq<Entry>>)
    requires ListsMatch(s, byLeague)
    requires o.leagueName !in byLeague ==> InLeague(s, o.leagueName) == []
    requires byLeague' == byLeague[o.leagueName := (if o.leagueName in byLeague then byLeague[o.leagueName] else []) + [o]]
    ensures ListsMatch(s + [o], byLeague')
  {
    forall k | k in byLeague' ensures byLeague'[k] == InLeague(s + [o], k) {
      InLeagueStep(s, o, k);
      if k == o.leagueName && o.leagueName !in byLeague {
        assert [] + [o] == [o];
      }
    }
  }

  /** src/utils/computeYearStats.js:29-33: fill a Map from league name to its entries, in insertion order. */
  method GroupByLeague(owners: seq<Entry>) returns (keys: seq<string>, byLeague: map<string, seq<Entry>>)
    ensures keys == LeagueKeys(owners)
    ensures forall k :: k in byLeague <==> k in keys
    ensures forall k :: k in byLeague ==> byLeague[k] == InLeague(owners, k)
  {
    keys, byLeague := [], map[];
    for i := 0 to |owners|
      invariant keys == LeagueKeys(owners[..i])
      invariant forall k :: k in byLeague <==> k in keys
      invariant ListsMatch(owners[..i], byLeague)
    {
      var o := owners[i];
      ghost var byLeague0 := byLeague;
      if o.leagueName !in byLeague {
        LeagueKeysMembers(owners[..i]);
        InLeagueEmpty(owners[..i], o.leagueName);
        byLeague := byLeague[o.leagueName := []];
        keys := keys + [o.leagueName];
      }
      byLeague := byLeague[o.leagueName := byLeague[o.leagueName] + [o]];
      ListsStep(owners[..i], o, byLeague0, byLeague);
      LeagueKeysStep(owners[..i], o);
      assert owners[..i + 1] == owners[..i] + [o];
    }
    assert owners[..|owners|] == owners;
  }

  // -------------------------------------------------------------- counting

  /** `list.length >= minSize` for the group of league `k`. */
  predicate Full(owners: seq<Entry>, k: string, minSize: int)
  {
    |InLeague(owners, k)| >= minSize
  }

  /** For the leagues `keys`: the summed sizes, in `s`, of those that are full in `all`. */
  function KeysSum(all: seq<Entry>, s: seq<Entry>, keys: seq<string>, minSize: int): nat
  {
    if keys == [] then 0
    else
      var k := keys[|keys| - 1];
      KeysSum(all, s, keys[..|keys| - 1], minSize) + (if Full(all, k, minSize) then |InLeague(s, k)| else 0)
  }

  function NamesOf(list: seq<Entry>): set<Option<string>>
  {
    set e | e in list :: e.ownerName
  }

  /** For the leagues `keys`: the owner names of those that are full. */
  function KeysNames(owners: seq<Entry>, keys: seq<string>, minSize: int): set<Option<string>>
  {
    if keys == [] then {}
    else
      var k := keys[|keys| - 1];
      KeysNames(owners, keys[..|keys| - 1], minSize) + (if Full(owners, k, minSize) then NamesOf(InLeague(owners, k)) else {})
  }

  /** What one mode adds to `teams`: the sizes of its full leagues. */
  function ModeTeams(owners: seq<Entry>, minSize: int): nat
  {
    KeysSum(owners, owners, LeagueKeys(owners), minSize)
  }

  /** What one mode adds to the `owners` Set: the names in its full leagues. */
  function ModeNames(owners: seq<Entry>, minSize: int): set<Option<string>>
  {
    KeysNames(owners, LeagueKeys(owners), minSize)
  }

  /** Reference definition: how many entries of `s` belong to a league that is full in `all`. */
  function FullCount(all: seq<Entry>, s: seq<Entry>, minSize: int): nat
  {
    if s == [] then 0
    else FullCount(all, s[..|s| - 1], minSize) + (if Full(all, s[|s| - 1].leagueName, minSize) then 1 else 0)
  }

  /** How many of `keys` are `n` and full. */
  function Hits(all: seq<Entry>, keys: seq<string>, n: string, minSize: int): nat
  {
    if keys == [] then 0
    else Hits(all, keys[..|keys| - 1], n, minSize) + (if keys[|keys| - 1] == n && Full(all, n, minSize) then 1 else 0)
  }

  lemma {:induction false} HitsOnce(all: seq<Entry>, keys: seq<string>, n: string, minSize: int)
    requires Distinct(keys) && n in keys
    ensures Hits(all, keys, n, minSize) == if Full(all, n, minSize) then 1 else 0
    decreases |keys|
  {
    var init, last := keys[..|keys| - 1], keys[|keys| - 1];
    if last == n {
      HitsNone(all, init, n, minSize);
    } else {
      assert keys == init + [last];
      HitsOnce(all, init, n, minSize);
    }
  }

  lemma {:induction false} HitsNone(all: seq<Entry>, keys: seq<string>, n: string, minSize: int)
    requires n !in keys
    ensures Hits(all, keys, n, minSize) == 0
    decreases |keys|
  {
    if keys != [] {
      HitsNone(all, keys[..|keys| - 1], n, minSize);
    }
  }

  lemma {:induction false} KeysSumEmpty(all: seq<Entry>, keys: seq<string>, minSize: int)
    ensures KeysSum(all, [], keys, minSize) == 0
    decreases |keys|
  {
    if keys != [] {
      KeysSumEmpty(all, keys[..|keys| - 1], minSize);
    }
  }

  /** One more entry adds, to the sum over `keys`, one for each time its league is among them and full. */
  lemma {:induction false} KeysSumStep(all: seq<Entry>, s: seq<Entry>, keys: seq<string>, minSize: int)
    requires s != []
    ensures KeysSum(all, s, keys, minSize) == KeysSum(all, s[..|s| - 1], keys, minSize) + Hits(all, keys, s[|s| - 1].leagueName, minSize)
    decreases |keys|
  {
    if keys != [] {
      KeysSumStep(all, s, keys[..|keys| - 1], minSize);
    }
  }

  lemma {:induction false} KeysSumCountsFull(all: seq<Entry>, s: seq<Entry>, keys: seq<string>, minSize: int)
    requires Distinct(keys)
    requires forall e :: e in s ==> e.leagueName in keys
    ensures KeysSum(all, s, keys, minSize) == FullCount(all, s, minSize)
    decreases |s|
  {
    if s == [] {
      KeysSumEmpty(all, keys, minSize);
    } else {
      var init, o := s[..|s| - 1], s[|s| - 1];
      assert forall e :: e in init ==> e in s;
      KeysSumCountsFull(all, init, keys, minSize);
      KeysSumStep(all, s, keys, minSize);
      HitsOnce(all, keys, o.leagueName, minSize);
    }
  }

  lemma LeagueKeysCover(owners: seq<Entry>)
    ensures Distinct(LeagueKeys(owners))
    ensures forall e :: e in owners ==> e.leagueName in LeagueKeys(owners)
  {
    LeagueKeysMembers(owners);
    forall e | e in owners ensures e.leagueName in LeagueKeys(owners) {
      LeaguesMembers(owners, e.leagueName);
    }
  }

  /**
   * Full-or-nothing: a mode adds to `teams` exactly the number of its
   * entries whose league is full. An entry of a smaller league adds nothing.
   */
  lemma ModeTeamsCountsFull(owners: seq<Entry>, minSize: int)
    ensures ModeTeams(owners, minSize) == FullCount(owners, owners, minSize)
  {
    LeagueKeysCover(owners);
    KeysSumCountsFull(owners, owners, LeagueKeys(owners), minSize);
  }

  lemma {:induction false} FullCountAll(all: seq<Entry>, s: seq<Entry>, minSize: int)
    requires minSize <= 0
    ensures FullCount(all, s, minSize) == |s|
    decreases |s|
  {
    if s != [] {
      FullCountAll(all, s[..|s| - 1], minSize);
    }
  }

  /** The group sizes add up to the number of entries. */
  lemma GroupSizesSum(owners: seq<Entry>)
    ensures KeysSum(owners, owners, LeagueKeys(owners), 0) == |owners|
  {
    ModeTeamsCountsFull(owners, 0);
    FullCountAll(owners, owners, 0);
  }

  lemma {:induction false} KeysNamesMembers(owners: seq<Entry>, keys: seq<string>, minSize: int, n: Option<string>)
    ensures n in KeysNames(owners, keys, minSize)
            <==> exists e :: e in owners && e.ownerName == n && e.leagueName in keys && Full(owners, e.leagueName, minSize)
    decreases |keys|
  {
    if keys != [] {
      var init, k := keys[..|keys| - 1], keys[|keys| - 1];
      KeysNamesMembers(owners, init, minSize, n);
      assert keys == init + [k];
      if n in KeysNames(owners, keys, minSize) && n !in KeysNames(owners, init, minSize) {
        var e :| e in InLeague(owners, k) && e.ownerName == n;
        InLeagueMembers(owners, k, e);
      }
      if e :| e in owners && e.ownerName == n && e.leagueName in keys && Full(owners, e.leagueName, minSize) {
        if e.leagueName == k {
          InLeagueMembers(owners, k, e);
        }
      }
    }
  }

  /** A name is counted for a mode exactly when one of its entries lies in a full league. */
  lemma ModeNamesFull(owners: seq<Entry>, minSize: int, n: Option<string>)
    ensures n in ModeNames(owners, minSize)
            <==> exists e :: e in owners && e.ownerName == n && Full(owners, e.leagueName, minSize)
  {
    LeagueKeysCover(owners);
    KeysNamesMembers(owners, LeagueKeys(owners), minSize, n);
  }

  lemma {:induction false} NamesOfBound(list: seq<Entry>)
    ensures |NamesOf(list)| <= |list|
    decreases |list|
  {
    if list != [] {
      var init := list[..|list| - 1];
      NamesOfBound(init);
      assert list == init + [list[|list| - 1]];
      assert NamesOf(list) == NamesOf(init) + {list[|list| - 1].ownerName};
    }
  }

  lemma {:induction false} KeysNamesBound(owners: seq<Entry>, keys: seq<string>, minSize: int)
    ensures |KeysNames(owners, keys, minSize)| <= KeysSum(owners, owners, keys, minSize)
    decreases |keys|
  {
    if keys != [] {
      var k := keys[|keys| - 1];
      KeysNamesBound(owners, keys[..|keys| - 1], minSize);
      NamesOfBound(InLeague(owners, k));
    }
  }

  /** A mode adds no more names than teams. */
  lemma ModeNamesBound(owners: seq<Entry>, minSize: int)
    ensures |ModeNames(owners, minSize)| <= ModeTeams(owners, minSize)
  {
    KeysNamesBound(owners, LeagueKeys(owners), minSize);
  }

  // ----------------------------------------------------------------- years

  /** `{ totalTeams, uniqueOwners }`. */
  datatype YearStat = YearStat(totalTeams: nat, uniqueOwners: nat)

  /** src/utils/computeYearStats.js:17-41 for one year: the modes' full-league sizes, summed. */
  function YearTeams(modes: seq<(string, Option<Block>)>, overrides: map<string, int>): nat
  {
    if modes == [] then 0
    else
      var m := modes[|modes| - 1];
      YearTeams(modes[..|modes| - 1], overrides) + ModeTeams(OwnersOf(m.1), MinSize(overrides, m.0))
  }

  /** The names of all the modes' full leagues. */
  function YearNames(modes: seq<(string, Option<Block>)>, overrides: map<string, int>): set<Option<string>>
  {
    Union(Map(modes, ModeNamer(overrides)))
  }

  /** `NamesOfMode` under a fixed override table, as a function value. */
  function ModeNamer(overrides: map<string, int>): ((string, Option<Block>)) -> set<Option<string>>
  {
    m => NamesOfMode(m, overrides)
  }

  lemma YearNamesStep(modes: seq<(string, Option<Block>)>, overrides: map<string, int>)
    requires modes != []
    ensures YearNames(modes, overrides) == YearNames(modes[..|modes| - 1], overrides) + NamesOfMode(modes[|modes| - 1], overrides)
  {
    var sets := Map(modes, ModeNamer(overrides));
    assert sets[..|sets| - 1] == Map(modes[..|modes| - 1], ModeNamer(overrides));
  }

  function Union<T>(sets: seq<set<T>>): set<T>
  {
    if sets == [] then {} else Union(sets[..|sets| - 1]) + sets[|sets| - 1]
  }

  lemma {:induction false} UnionMembers<T>(sets: seq<set<T>>, x: T)
    ensures x in Union(sets) <==> exists i :: 0 <= i < |sets| && x in sets[i]
    decreases |sets|
  {
    if sets != [] {
      var init := sets[..|sets| - 1];
      UnionMembers(init, x);
      assert forall i :: 0 <= i < |init| ==> init[i] == sets[i];
    }
  }

  /** The names one mode adds: those of its full leagues, by its own threshold. */
  function NamesOfMode(m: (string, Option<Block>), overrides: map<string, int>): set<Option<string>>
  {
    ModeNames(OwnersOf(m.1), MinSize(overrides, m.0))
  }

  function StatOf(modes: seq<(string, Option<Block>)>, overrides: map<string, int>): YearStat
  {
    YearStat(YearTeams(modes, overrides), |YearNames(modes, overrides)|)
  }

  /** Distinct names never outnumber teams. */
  lemma {:induction false} UniqueOwnersBound(modes: seq<(string, Option<Block>)>, overrides: map<string, int>)
    ensures StatOf(modes, overrides).uniqueOwners <= StatOf(modes, overrides).totalTeams
    decreases |modes|
  {
    if modes != [] {
      var m := modes[|modes| - 1];
      UniqueOwnersBound(modes[..|modes| - 1], overrides);
      YearNamesStep(modes, overrides);
      ModeNamesBound(OwnersOf(m.1), MinSize(overrides, m.0));
    }
  }

  /** A name is counted for a year exactly when one of its modes counts it. */
  lemma YearNamesFull(modes: seq<(string, Option<Block>)>, overrides: map<string, int>, n: Option<string>)
    ensures n in YearNames(modes, overrides) <==> exists i :: 0 <= i < |modes| && n in NamesOfMode(modes[i], overrides)
  {
    UnionMembers(Map(modes, ModeNamer(overrides)), n);
  }

  /** A mode without owners, or without a block at all, changes nothing. */
  lemma EmptyModeAddsNothing(modes: seq<(string, Option<Block>)>, overrides: map<string, int>, mode: string, block: Option<Block>)
    requires OwnersOf(block) == []
    ensures StatOf(modes + [(mode, block)], overrides) == StatOf(modes, overrides)
  {
    var all := modes + [(mode, block)];
    assert all[..|all| - 1] == modes;
    assert LeagueKeys([]) == [];
    YearNamesStep(all, overrides);
  }

  /** `for (const o of list) owners.add(o.ownerName)`. */
  method AddNames(names: set<Option<string>>, list: seq<Entry>) returns (r: set<Option<string>>)
    ensures r == names + NamesOf(list)
  {
    r := names;
    for i := 0 to |list|
      invariant r == names + NamesOf(list[..i])
    {
      assert list[..i + 1] == list[..i] + [list[i]];
      r := r + {list[i].ownerName};
    }
    assert list[..|list|] == list;
  }

  /** src/utils/computeYearStats.js:21-41 for one mode: group, then count the full leagues. */
  method CountMode(owners: seq<Entry>, minSize: int, teams0: nat, names0: set<Option<string>>)
    returns (teams: nat, names: set<Option<string>>)
    ensures teams == teams0 + ModeTeams(owners, minSize)
    ensures names == names0 + ModeNames(owners, minSize)
  {
    var keys, byLeague := GroupByLeague(owners);
    teams, names := teams0, names0;
    for j := 0 to |keys|
      invariant teams == teams0 + KeysSum(owners, owners, keys[..j], minSize)
      invariant names == names0 + KeysNames(owners, keys[..j], minSize)
    {
      assert keys[..j + 1][..j] == keys[..j];
      var list := byLeague[keys[j]];
      if |list| >= minSize {
        teams := teams + |list|;
        names := AddNames(names, list);
      }
    }
    assert keys[..|keys|] == keys;
  }

  /** src/utils/computeYearStats.js:20-42: mode `i` of a year added to the year's counters. */
  method AddMode(modes: seq<(string, Option<Block>)>, i: int, overrides: map<string, int>, teams0: nat, names0: set<Option<string>>)
    returns (teams: nat, names: set<Option<string>>)
    requires 0 <= i < |modes|
    requires teams0 == YearTeams(modes[..i], overrides) && names0 == YearNames(modes[..i], overrides)
    ensures teams == YearTeams(modes[..i + 1], overrides) && names == YearNames(modes[..i + 1], overrides)
  {
    var (modeKey, block) := modes[i];
    teams, names := CountMode(OwnersOf(block), MinSize(overrides, modeKey), teams0, names0);
    assert modes[..i + 1][..i] == modes[..i];
    YearNamesStep(modes[..i + 1], overrides);
  }

  /** src/utils/computeYearStats.js:17-44 for one year. */
  method ComputeYear(modes: seq<(string, Option<Block>)>, overrides: map<string, int>) returns (stat: YearStat)
    ensures stat == StatOf(modes, overrides)
  {
    var teams: nat := 0;
    var names: set<Option<string>> := {};
    for i := 0 to |modes|
      invariant teams == YearTeams(modes[..i], overrides) && names == YearNames(modes[..i], overrides)
    {
      teams, names := AddMode(modes, i, overrides, teams, names);
    }
    assert modes[..|modes|] == modes;
    stat := YearStat(teams, |names|);
  }

  /**
   * `computeYearStats(leaderboards, perModeMinSizes)`: one result per year,
   * each computed from that year's modes alone. The years are the keys of
   * an object, so each is listed once.
   */
  method ComputeYearStats(leaderboards: seq<(string, seq<(string, Option<Block>)>)>, overrides: map<string, int>)
    returns (result: map<string, YearStat>)
    requires DistinctKeys(leaderboards)
    ensures forall y :: y in result <==> exists i :: 0 <= i < |leaderboards| && leaderboards[i].0 == y
    ensures forall i :: 0 <= i < |leaderboards| ==> result[leaderboards[i].0] == StatOf(leaderboards[i].1, overrides)
  {
    result := map[];
    for i := 0 to |leaderboards|
      invariant AssignedUpTo(leaderboards, i, result, StatFor(overrides))
    {
      var (year, modesObj) := leaderboards[i];
      var stat := ComputeYear(modesObj, overrides);
      AssignNext(leaderboards, i, result, StatFor(overrides));
      result := result[year := stat];
    }
  }

  /** `StatOf` under a fixed override table, as a function value. */
  function StatFor(overrides: map<string, int>): seq<(string, Option<Block>)> -> YearStat
  {
    modes => StatOf(modes, overrides)
  }
}

/**
 * The body of `main` in `test.js`: one pass over every league of the
 * year that totals the full leagues and collects their owners, a second
 * pass that counts each owner's teams, and the CSV of owners in name order.
 *
 * Each league's three requests are given by `fetch(leagueId)`: `None` when
 * one of them threw after its retries.
 */
module AuditRun {
  import opened Wrappers
  import opened Collections
  import opened Audit

  /** `{name, divisions}` of one `LEAGUE_MAP[year]` category; divisions in `Object.entries` order. */
  datatype Category = Category(name: string, divisions: seq<(string, seq<string>)>)

  /** The league ids of a division list, in order. */
  function DivisionIds(divisions: seq<(string, seq<string>)>): seq<string>
  {
    if divisions == [] then []
    else DivisionIds(divisions[..|divisions| - 1]) + divisions[|divisions| - 1].1
  }

  /** The league ids of every division of every category, in the order both passes visit them. */
  function LeagueIds(categories: seq<(string, Category)>): seq<string>
  {
    if categories == [] then []
    else LeagueIds(categories[..|categories| - 1]) + DivisionIds(categories[|categories| - 1].1.divisions)
  }

  function Loader(fetch: string -> Option<BundleInput>): string -> Option<Bundle>
  {
    id => LoadBundle(id, fetch(id))
  }

  /** The bundle of each league id, `None` for one whose fetch failed (`{error: true}`). */
  function LoadAll(ids: seq<string>, fetch: string -> Option<BundleInput>): seq<Option<Bundle>>
  {
    Map(ids, Loader(fetch))
  }

  predicate IsFull(b: Option<Bundle>)
  {
    b.Some? && b.value.isFull
  }

  // ------------------------------------------------------ the first pass

  /** `globalTotals` and `ownerNameMap`; the `Set` of ids as its insertion-ordered contents. */
  datatype Totals = Totals(leaguesTotal: nat, leaguesFull: nat, teams: int, unique: seq<string>, names: map<string, string>)

  const Start := Totals(0, 0, 0, [], map[])

  /** One id of a full bundle: skipped when empty; else added, and its name kept if it is the first. */
  function AddOwnerTo(t: Totals, b: Bundle, id: string): Totals
  {
    if id == "" then t
    else
      var named := id in b.userNameById && b.userNameById[id] != "" && id !in t.names;
      t.(unique := SetAdd(t.unique, id), names := if named then t.names[id := b.userNameById[id]] else t.names)
  }

  function AddOwners(t: Totals, b: Bundle, ids: seq<string>): Totals
  {
    if ids == [] then t else AddOwnerTo(AddOwners(t, b, ids[..|ids| - 1]), b, ids[|ids| - 1])
  }

  /** The body of `for (const b of bundles)`. */
  function Tally(t: Totals, b: Option<Bundle>): Totals
  {
    var counted := t.(leaguesTotal := t.leaguesTotal + 1);
    if b.None? || !b.value.isFull then counted
    else
      AddOwners(counted.(leaguesFull := counted.leaguesFull + 1, teams := counted.teams + b.value.totalRosters),
                b.value, b.value.ownerIds)
  }

  function TallyAll(bs: seq<Option<Bundle>>): Totals
  {
    if bs == [] then Start else Tally(TallyAll(bs[..|bs| - 1]), bs[|bs| - 1])
  }

  /** The seats of the full bundles: the reference for `teamsTotalFullLeagues`. */
  function Seats(bs: seq<Option<Bundle>>): int
  {
    if bs == [] then 0
    else Seats(bs[..|bs| - 1]) + (if IsFull(bs[|bs| - 1]) then bs[|bs| - 1].value.totalRosters else 0)
  }

  /** Bundle `b` is full, lists `id` and gives it a non-empty name. */
  predicate NamedIn(b: Option<Bundle>, id: string)
  {
    IsFull(b) && id != "" && id in b.value.ownerIds && id in b.value.userNameById && b.value.userNameById[id] != ""
  }

  /** The name of `id` in the first bundle, in visiting order, that names it. */
  function FirstName(bs: seq<Option<Bundle>>, id: string): Option<string>
  {
    if bs == [] then None
    else if NamedIn(bs[0], id) then Some(bs[0].value.userNameById[id])
    else FirstName(bs[1..], id)
  }

  lemma {:induction false} FirstNameAppend(bs: seq<Option<Bundle>>, b: Option<Bundle>, id: string)
    ensures FirstName(bs + [b], id) ==
            if FirstName(bs, id).Some? then FirstName(bs, id)
            else if NamedIn(b, id) then Some(b.value.userNameById[id]) else None
    decreases |bs|
  {
    if bs == [] {
      assert ([] + [b])[1..] == [];
    } else {
      assert (bs + [b])[1..] == bs[1..] + [b];
      FirstNameAppend(bs[1..], b, id);
    }
  }

  /** A name once found for an id is the one found after any further bundles. */
  lemma {:induction false} FirstNameKept(bs: seq<Option<Bundle>>, more: seq<Option<Bundle>>, id: string)
    requires FirstName(bs, id).Some?
    ensures FirstName(bs + more, id) == FirstName(bs, id)
    decreases |bs|
  {
    if !NamedIn(bs[0], id) {
      assert (bs + more)[1..] == bs[1..] + more;
      FirstNameKept(bs[1..], more, id);
    }
  }

  /** What the ids of one full bundle add to the owner set and the name map. */
  lemma {:induction false} AddOwnersEffect(t: Totals, b: Bundle, ids: seq<string>)
    requires Distinct(t.unique)
    ensures var t' := AddOwners(t, b, ids);
            && (t'.leaguesTotal, t'.leaguesFull, t'.teams) == (t.leaguesTotal, t.leaguesFull, t.teams)
            && Distinct(t'.unique)
            && (forall x :: x in t'.unique <==> x in t.unique || (x != "" && x in ids))
            && (forall x :: x in t'.names <==> x in t.names || (x != "" && x in ids && x in b.userNameById && b.userNameById[x] != ""))
            && (forall x :: x in t.names ==> t'.names[x] == t.names[x])
            && (forall x :: x in t'.names && x !in t.names ==> t'.names[x] == b.userNameById[x])
    decreases |ids|
  {
    if ids != [] {
      var init := ids[..|ids| - 1];
      AddOwnersEffect(t, b, init);
      assert ids == init + [ids[|ids| - 1]];
    }
  }

  /** What one bundle does to the totals. */
  lemma TallyEffect(t: Totals, b: Option<Bundle>)
    requires Distinct(t.unique)
    ensures var t' := Tally(t, b);
            && t'.leaguesTotal == t.leaguesTotal + 1
            && t'.leaguesFull == t.leaguesFull + (if IsFull(b) then 1 else 0)
            && t'.teams == t.teams + (if IsFull(b) then b.value.totalRosters else 0)
            && Distinct(t'.unique)
            && (forall x :: x in t'.unique <==> x in t.unique || (IsFull(b) && x != "" && x in b.value.ownerIds))
            && (forall x :: x in t'.names <==> x in t.names || NamedIn(b, x))
            && (forall x :: x in t.names ==> t'.names[x] == t.names[x])
            && (forall x :: x in t'.names && x !in t.names ==> t'.names[x] == b.value.userNameById[x])
  {
    if IsFull(b) {
      var counted := t.(leaguesTotal := t.leaguesTotal + 1, leaguesFull := t.leaguesFull + 1, teams := t.teams + b.value.totalRosters);
      AddOwnersEffect(counted, b.value, b.value.ownerIds);
    }
  }

  /**
   * The first pass: every bundle is counted, failed ones too; the full ones
   * are counted again and give their seats; the owner ids are exactly the
   * non-empty ids of full bundles, each once; an id's name is the first
   * non-empty one any full bundle gave it.
   */
  lemma {:induction false} TallyAllFacts(bs: seq<Option<Bundle>>)
    ensures var t := TallyAll(bs);
            && t.leaguesTotal == |bs|
            && t.leaguesFull == CountWhere(bs, IsFull) <= t.leaguesTotal
            && t.teams == Seats(bs)
            && Distinct(t.unique)
            && (forall x :: x in t.unique <==> x != "" && exists k :: 0 <= k < |bs| && IsFull(bs[k]) && x in bs[k].value.ownerIds)
            && (forall x :: x in t.names <==> FirstName(bs, x).Some?)
            && (forall x :: x in t.names ==> t.names[x] == FirstName(bs, x).value)
    decreases |bs|
  {
    CountWhereBound(bs, IsFull);
    if bs != [] {
      var init, b := bs[..|bs| - 1], bs[|bs| - 1];
      TallyAllFacts(init);
      var t0 := TallyAll(init);
      TallyEffect(t0, b);
      assert bs == init + [b];
      forall x ensures x in TallyAll(bs).unique <==> x != "" && exists k :: 0 <= k < |bs| && IsFull(bs[k]) && x in bs[k].value.ownerIds {
        if x in TallyAll(bs).unique && !(IsFull(b) && x != "" && x in b.value.ownerIds) {
          var k :| 0 <= k < |init| && IsFull(init[k]) && x in init[k].value.ownerIds;
          assert bs[k] == init[k];
        }
        if x != "" && exists k :: 0 <= k < |bs| && IsFull(bs[k]) && x in bs[k].value.ownerIds {
          var k :| 0 <= k < |bs| && IsFull(bs[k]) && x in bs[k].value.ownerIds;
          if k < |init| {
            assert init[k] == bs[k];
          }
        }
      }
      forall x ensures (x in TallyAll(bs).names <==> FirstName(bs, x).Some?)
                       && (x in TallyAll(bs).names ==> TallyAll(bs).names[x] == FirstName(bs, x).value) {
        FirstNameAppend(init, b, x);
      }
    }
  }

  /** Names are only kept for collected ids. */
  lemma NamedAreCollected(bs: seq<Option<Bundle>>)
    ensures forall x :: x in TallyAll(bs).names ==> x in TallyAll(bs).unique
  {
    TallyAllFacts(bs);
    forall x | x in TallyAll(bs).names ensures x in TallyAll(bs).unique {
      FirstNameFound(bs, x);
    }
  }

  lemma {:induction false} FirstNameFound(bs: seq<Option<Bundle>>, id: string)
    requires FirstName(bs, id).Some?
    ensures exists k :: 0 <= k < |bs| && NamedIn(bs[k], id)
    decreases |bs|
  {
    if !NamedIn(bs[0], id) {
      FirstNameFound(bs[1..], id);
      var k :| 0 <= k < |bs[1..]| && NamedIn(bs[1..][k], id);
      assert bs[k + 1] == bs[1..][k];
    }
  }

  /** `ownerNameMap` never replaces a name: further leagues leave every kept name as it was. */
  lemma NameNeverReplaced(bs: seq<Option<Bundle>>, more: seq<Option<Bundle>>, id: string)
    requires id in TallyAll(bs).names
    ensures id in TallyAll(bs + more).names
    ensures TallyAll(bs + more).names[id] == TallyAll(bs).names[id]
  {
    TallyAllFacts(bs);
    TallyAllFacts(bs + more);
    FirstNameKept(bs, more, id);
  }

  // ----------------------------------------------------------- the recount

  /** How many times `id` is listed among the owners of full bundles: the teams it holds. */
  function Occ(bs: seq<Option<Bundle>>, id: string): nat
  {
    if bs == [] then 0
    else Occ(bs[..|bs| - 1], id) + (if IsFull(bs[|bs| - 1]) then Count(bs[|bs| - 1].value.ownerIds, id) else 0)
  }

  /** `ownerCounts` after the recount has seen `bs`. */
  ghost predicate CountsMatch(counts: map<string, nat>, unique: seq<string>, names: map<string, string>, bs: seq<Option<Bundle>>)
  {
    && (forall u :: u in counts <==> u in unique || u in names)
    && (forall u :: u in counts ==> counts[u] == if u in unique then Occ(bs, u) else 0)
  }

  // --------------------------------------------------------- reconciliation

  /** The sum over `us` of the occurrences of each in `s`. */
  function CountSum(us: seq<string>, s: seq<string>): int
  {
    if us == [] then 0 else CountSum(us[..|us| - 1], s) + Count(s, us[|us| - 1])
  }

  /** The sum over `us` of the teams of each. */
  function OccSum(us: seq<string>, bs: seq<Option<Bundle>>): int
  {
    if us == [] then 0 else OccSum(us[..|us| - 1], bs) + Occ(bs, us[|us| - 1])
  }

  /** The owner lists' lengths over the full bundles. */
  function Listed(bs: seq<Option<Bundle>>): int
  {
    if bs == [] then 0
    else Listed(bs[..|bs| - 1]) + (if IsFull(bs[|bs| - 1]) then |bs[|bs| - 1].value.ownerIds| else 0)
  }

  lemma {:induction false} CountSumStep(us: seq<string>, s: seq<string>, x: string)
    ensures CountSum(us, s + [x]) == CountSum(us, s) + Count(us, x)
    decreases |us|
  {
    if us != [] {
      CountSumStep(us[..|us| - 1], s, x);
      assert (s + [x])[..|s|] == s;
    }
  }

  lemma {:induction false} CountSumAll(us: seq<string>, s: seq<string>)
    requires Distinct(us)
    requires forall k :: 0 <= k < |s| ==> s[k] in us
    ensures CountSum(us, s) == |s|
    decreases |s|
  {
    if s == [] {
      CountSumEmpty(us);
    } else {
      var init := s[..|s| - 1];
      CountSumAll(us, init);
      assert s == init + [s[|s| - 1]];
      CountSumStep(us, init, s[|s| - 1]);
      CountOfDistinct(us, s[|s| - 1]);
    }
  }

  lemma {:induction false} CountSumEmpty(us: seq<string>)
    ensures CountSum(us, []) == 0
    decreases |us|
  {
    if us != [] {
      CountSumEmpty(us[..|us| - 1]);
    }
  }

  lemma {:induction false} OccSumStep(us: seq<string>, bs: seq<Option<Bundle>>, b: Option<Bundle>)
    ensures OccSum(us, bs + [b]) == OccSum(us, bs) + (if IsFull(b) then CountSum(us, b.value.ownerIds) else 0)
    decreases |us|
  {
    if us != [] {
      OccSumStep(us[..|us| - 1], bs, b);
      assert (bs + [b])[..|bs|] == bs;
    }
  }

  lemma {:induction false} OccSumEmpty(us: seq<string>)
    ensures OccSum(us, []) == 0
    decreases |us|
  {
    if us != [] {
      OccSumEmpty(us[..|us| - 1]);
    }
  }

  /** Summing every collected owner's teams gives every listed owner of a full bundle once. */
  lemma {:induction false} OccSumListed(us: seq<string>, bs: seq<Option<Bundle>>)
    requires Distinct(us)
    requires forall k, x :: 0 <= k < |bs| && IsFull(bs[k]) && x in bs[k].value.ownerIds ==> x in us
    ensures OccSum(us, bs) == Listed(bs)
    decreases |bs|
  {
    if bs == [] {
      OccSumEmpty(us);
    } else {
      var init, b := bs[..|bs| - 1], bs[|bs| - 1];
      assert bs == init + [b];
      forall k, x | 0 <= k < |init| && IsFull(init[k]) && x in init[k].value.ownerIds ensures x in us {
        assert bs[k] == init[k];
      }
      OccSumListed(us, init);
      OccSumStep(us, init, b);
      if IsFull(b) {
        forall k | 0 <= k < |b.value.ownerIds| ensures b.value.ownerIds[k] in us {
          assert b.value.ownerIds[k] in bs[|bs| - 1].value.ownerIds;
        }
        CountSumAll(us, b.value.ownerIds);
      }
    }
  }

  lemma {:induction false} ListedSeats(bs: seq<Option<Bundle>>)
    requires forall k :: 0 <= k < |bs| && IsFull(bs[k]) ==> |bs[k].value.ownerIds| == bs[k].value.totalRosters
    ensures Listed(bs) == Seats(bs)
    decreases |bs|
  {
    if bs != [] {
      var init := bs[..|bs| - 1];
      forall k | 0 <= k < |init| && IsFull(init[k]) ensures |init[k].value.ownerIds| == init[k].value.totalRosters {
        assert init[k] == bs[k];
      }
      ListedSeats(init);
    }
  }

  /** A loaded full bundle lists one non-empty owner id per seat. */
  lemma LoadedListsSeats(ids: seq<string>, fetch: string -> Option<BundleInput>)
    ensures Listed(LoadAll(ids, fetch)) == Seats(LoadAll(ids, fetch))
    ensures forall k, x :: 0 <= k < |ids| && IsFull(LoadAll(ids, fetch)[k]) && x in LoadAll(ids, fetch)[k].value.ownerIds ==> x != ""
  {
    var bs := LoadAll(ids, fetch);
    forall k | 0 <= k < |bs| && IsFull(bs[k]) ensures |bs[k].value.ownerIds| == bs[k].value.totalRosters {
      assert bs[k] == LoadBundle(ids[k], fetch(ids[k]));
      FullBundleSeats(ids[k], fetch(ids[k]));
    }
    ListedSeats(bs);
    forall k, x | 0 <= k < |ids| && IsFull(bs[k]) && x in bs[k].value.ownerIds ensures x != "" {
      assert bs[k] == LoadBundle(ids[k], fetch(ids[k]));
      BundleFacts(ids[k], fetch(ids[k]));
    }
  }

  /**
   * When the recount sees the same data as the first pass, the team counts
   * of the collected owners add up to `teamsTotalFullLeagues`.
   */
  lemma CountsReconcile(categories: seq<(string, Category)>, fetch: string -> Option<BundleInput>)
    ensures var bs := LoadAll(LeagueIds(categories), fetch);
            OccSum(TallyAll(bs).unique, bs) == TallyAll(bs).teams
  {
    var ids := LeagueIds(categories);
    var bs := LoadAll(ids, fetch);
    TallyAllFacts(bs);
    LoadedListsSeats(ids, fetch);
    var us := TallyAll(bs).unique;
    forall k, x | 0 <= k < |bs| && IsFull(bs[k]) && x in bs[k].value.ownerIds ensures x in us {
    }
    OccSumListed(us, bs);
  }

  // --------------------------------------------------------- the programme

  lemma TallyNext(done: seq<Option<Bundle>>, bundles: seq<Option<Bundle>>, k: int)
    requires 0 <= k < |bundles|
    ensures TallyAll(done + bundles[..k + 1]) == Tally(TallyAll(done + bundles[..k]), bundles[k])
  {
    assert (done + bundles[..k + 1])[..|done| + k] == done + bundles[..k];
  }

  lemma OccNext(done: seq<Option<Bundle>>, b: Option<Bundle>, u: string)
    ensures Occ(done + [b], u) == Occ(done, u) + (if IsFull(b) then Count(b.value.ownerIds, u) else 0)
  {
    assert (done + [b])[..|done|] == done;
  }

  lemma IdsNext(categories: seq<(string, Category)>, i: int)
    requires 0 <= i < |categories|
    ensures LeagueIds(categories[..i + 1]) == LeagueIds(categories[..i]) + DivisionIds(categories[i].1.divisions)
  {
    assert categories[..i + 1][..i] == categories[..i];
  }

  lemma DivisionIdsNext(divisions: seq<(string, seq<string>)>, j: int)
    requires 0 <= j < |divisions|
    ensures DivisionIds(divisions[..j + 1]) == DivisionIds(divisions[..j]) + divisions[j].1
  {
    assert divisions[..j + 1][..j] == divisions[..j];
  }

  /** `globalTotals` and `ownerNameMap`, updated in place. */
  class Auditor {
    var leaguesTotal: nat
    var leaguesFull: nat
    var teamsTotalFullLeagues: int
    var uniqueOwnerIds: seq<string>
    var ownerNameMap: map<string, string>

    function Snapshot(): Totals
      reads this
    {
      Totals(leaguesTotal, leaguesFull, teamsTotalFullLeagues, uniqueOwnerIds, ownerNameMap)
    }

    constructor ()
      ensures Snapshot() == Start
    {
      leaguesTotal, leaguesFull, teamsTotalFullLeagues := 0, 0, 0;
      uniqueOwnerIds, ownerNameMap := [], map[];
    }

    /** One id of a full bundle. */
    method AddOwner(b: Bundle, id: string)
      modifies this
      ensures Snapshot() == AddOwnerTo(old(Snapshot()), b, id)
    {
      if id == "" {
        return;
      }
      uniqueOwnerIds := SetAdd(uniqueOwnerIds, id);
      if id in b.userNameById && b.userNameById[id] != "" && id !in ownerNameMap {
        ownerNameMap := ownerNameMap[id := b.userNameById[id]];
      }
    }

    /** The body of `for (const b of bundles)`. */
    method RecordBundle(b: Option<Bundle>)
      modifies this
      ensures Snapshot() == Tally(old(Snapshot()), b)
    {
      leaguesTotal := leaguesTotal + 1;
      if b.None? || !b.value.isFull {
        return;
      }
      leaguesFull := leaguesFull + 1;
      teamsTotalFullLeagues := teamsTotalFullLeagues + b.value.totalRosters;
      var start := Snapshot();
      var ids := b.value.ownerIds;
      for k := 0 to |ids|
        invariant Snapshot() == AddOwners(start, b.value, ids[..k])
      {
        assert ids[..k + 1][..k] == ids[..k];
        AddOwner(b.value, ids[k]);
      }
      assert ids[..|ids|] == ids;
    }
  }

  /** The bundles of one division: fetched together, then tallied in order. */
  method TallyDivision(a: Auditor, leagueIds: seq<string>, fetch: string -> Option<BundleInput>, ghost ids: seq<string>)
    modifies a
    requires a.Snapshot() == TallyAll(LoadAll(ids, fetch))
    ensures a.Snapshot() == TallyAll(LoadAll(ids + leagueIds, fetch))
  {
    MapAppend(ids, leagueIds, Loader(fetch));
    if |leagueIds| == 0 {
      assert ids + leagueIds == ids;
      return;
    }
    var bundles := LoadAll(leagueIds, fetch);
    ghost var done := LoadAll(ids, fetch);
    assert done + bundles[..0] == done;
    for k := 0 to |bundles|
      invariant a.Snapshot() == TallyAll(done + bundles[..k])
    {
      TallyNext(done, bundles, k);
      a.RecordBundle(bundles[k]);
    }
    assert bundles[..|bundles|] == bundles;
  }

  /** The divisions of one category; a category without divisions is skipped. */
  method TallyCategory(a: Auditor, divisions: seq<(string, seq<string>)>, fetch: string -> Option<BundleInput>, ghost ids0: seq<string>)
    modifies a
    requires a.Snapshot() == TallyAll(LoadAll(ids0, fetch))
    ensures a.Snapshot() == TallyAll(LoadAll(ids0 + DivisionIds(divisions), fetch))
  {
    if |divisions| == 0 {
      assert ids0 + DivisionIds(divisions) == ids0;
      return;
    }
    ghost var ids := ids0;
    for j := 0 to |divisions|
      invariant ids == ids0 + DivisionIds(divisions[..j])
      invariant a.Snapshot() == TallyAll(LoadAll(ids, fetch))
    {
      DivisionIdsNext(divisions, j);
      TallyDivision(a, divisions[j].1, fetch, ids);
      ids := ids + divisions[j].1;
    }
    assert divisions[..|divisions|] == divisions;
  }

  /** The first pass over every category, division and league. */
  method FirstPass(categories: seq<(string, Category)>, fetch: string -> Option<BundleInput>) returns (totals: Totals)
    ensures totals == TallyAll(LoadAll(LeagueIds(categories), fetch))
  {
    var a := new Auditor();
    ghost var ids: seq<string> := [];
    for i := 0 to |categories|
      invariant ids == LeagueIds(categories[..i])
      invariant a.Snapshot() == TallyAll(LoadAll(ids, fetch))
    {
      IdsNext(categories, i);
      TallyCategory(a, categories[i].1.divisions, fetch, ids);
      ids := ids + DivisionIds(categories[i].1.divisions);
    }
    assert categories[..|categories|] == categories;
    totals := a.Snapshot();
  }

  /** One refetched bundle of the recount. */
  method CountBundle(counts0: map<string, nat>, unique: seq<string>, b: Option<Bundle>, ghost names: map<string, string>, ghost done: seq<Option<Bundle>>)
    returns (counts: map<string, nat>)
    requires CountsMatch(counts0, unique, names, done)
    ensures CountsMatch(counts, unique, names, done + [b])
  {
    counts := counts0;
    forall u ensures Occ(done + [b], u) == Occ(done, u) + (if IsFull(b) then Count(b.value.ownerIds, u) else 0) {
      OccNext(done, b, u);
    }
    if IsFull(b) {
      var ids := b.value.ownerIds;
      for m := 0 to |ids|
        invariant forall u :: u in counts <==> u in unique || u in names
        invariant forall u :: u in counts ==> counts[u] == if u in unique then Occ(done, u) + Count(ids[..m], u) else 0
      {
        assert ids[..m + 1][..m] == ids[..m];
        if ids[m] in unique {
          counts := counts[ids[m] := CountFor(counts, ids[m]) + 1];
        }
      }
      assert ids[..|ids|] == ids;
    }
  }

  /** One division's leagues in the recount, fetched one at a time. */
  method CountDivision(counts0: map<string, nat>, unique: seq<string>, leagueIds: seq<string>, refetch: string -> Option<BundleInput>,
                       ghost names: map<string, string>, ghost ids0: seq<string>)
    returns (counts: map<string, nat>)
    requires CountsMatch(counts0, unique, names, LoadAll(ids0, refetch))
    ensures CountsMatch(counts, unique, names, LoadAll(ids0 + leagueIds, refetch))
  {
    counts := counts0;
    ghost var ids := ids0;
    for k := 0 to |leagueIds|
      invariant ids == ids0 + leagueIds[..k]
      invariant CountsMatch(counts, unique, names, LoadAll(ids, refetch))
    {
      var b := LoadBundle(leagueIds[k], refetch(leagueIds[k]));
      MapAppend(ids, [leagueIds[k]], Loader(refetch));
      counts := CountBundle(counts, unique, b, names, LoadAll(ids, refetch));
      ids := ids + [leagueIds[k]];
      assert leagueIds[..k + 1] == leagueIds[..k] + [leagueIds[k]];
    }
    assert leagueIds[..|leagueIds|] == leagueIds;
  }

  /** `for (const leagueIds of Object.values(divisions))` in the recount. */
  method CountCategory(counts0: map<string, nat>, unique: seq<string>, divisions: seq<(string, seq<string>)>, refetch: string -> Option<BundleInput>,
                       ghost names: map<string, string>, ghost ids0: seq<string>)
    returns (counts: map<string, nat>)
    requires CountsMatch(counts0, unique, names, LoadAll(ids0, refetch))
    ensures CountsMatch(counts, unique, names, LoadAll(ids0 + DivisionIds(divisions), refetch))
  {
    counts := counts0;
    ghost var ids := ids0;
    for j := 0 to |divisions|
      invariant ids == ids0 + DivisionIds(divisions[..j])
      invariant CountsMatch(counts, unique, names, LoadAll(ids, refetch))
    {
      DivisionIdsNext(divisions, j);
      counts := CountDivision(counts, unique, divisions[j].1, refetch, names, ids);
      ids := ids + divisions[j].1;
    }
    assert divisions[..|divisions|] == divisions;
  }

  /** `ownerCounts[id] = 0` for every collected id, then for every named one. */
  method ZeroCounts(unique: seq<string>, names: map<string, string>) returns (counts: map<string, nat>)
    ensures CountsMatch(counts, unique, names, [])
  {
    counts := map[];
    for k := 0 to |unique|
      invariant forall u :: u in counts <==> u in unique[..k]
      invariant forall u :: u in counts ==> counts[u] == 0
    {
      counts := counts[unique[k] := 0];
    }
    assert unique[..|unique|] == unique;
    counts := counts + map u | u in names :: 0;
  }

  /** The recount: every owner collected or named starts at 0; each full league adds one per listing. */
  method Recount(categories: seq<(string, Category)>, refetch: string -> Option<BundleInput>, unique: seq<string>, names: map<string, string>)
    returns (counts: map<string, nat>)
    ensures forall u :: u in counts <==> u in unique || u in names
    ensures forall u :: u in counts ==> counts[u] == if u in unique then Occ(LoadAll(LeagueIds(categories), refetch), u) else 0
  {
    counts := ZeroCounts(unique, names);
    ghost var ids: seq<string> := [];
    for i := 0 to |categories|
      invariant ids == LeagueIds(categories[..i])
      invariant CountsMatch(counts, unique, names, LoadAll(ids, refetch))
    {
      IdsNext(categories, i);
      counts := CountCategory(counts, unique, categories[i].1.divisions, refetch, names, ids);
      ids := ids + DivisionIds(categories[i].1.divisions);
    }
    assert categories[..|categories|] == categories;
  }

  /**
   * `main()` after the year check: the CSV lines, or `None` when the year is
   * not in the table and the script exits. `fetch` answers the first pass,
   * `refetch` the recount.
   */
  method RunAudit(argv: seq<string>, leagueMap: map<string, seq<(string, Category)>>,
                  fetch: string -> Option<BundleInput>, refetch: string -> Option<BundleInput>)
    returns (csv: Option<seq<string>>)
    ensures csv.None? <==> SelectYear(argv, leagueMap).None?
    ensures csv.Some? ==>
              var categories := SelectYear(argv, leagueMap).value;
              var t := TallyAll(LoadAll(LeagueIds(categories), fetch));
              var ids := SortOwners(t.names, t.unique);
              var lines := csv.value;
              && |lines| == |t.unique| + 1 && lines[0] == Header
              && forall i :: 0 <= i < |ids| ==>
                   lines[i + 1] == Row(i, ids[i], NameFor(t.names, ids[i]), Occ(LoadAll(LeagueIds(categories), refetch), ids[i]))
  {
    var year := SelectYear(argv, leagueMap);
    if year.None? {
      return None;
    }
    var categories := year.value;
    var t := FirstPass(categories, fetch);
    var counts := Recount(categories, refetch, t.unique, t.names);
    var ids := SortOwners(t.names, t.unique);
    assert forall x :: x in ids <==> x in t.unique by {
      assert multiset(ids) == multiset(t.unique);
      forall x ensures x in ids <==> x in t.unique {
        assert x in ids <==> x in multiset(ids);
        assert x in t.unique <==> x in multiset(t.unique);
      }
    }
    var lines := CsvLines(ids, t.names, counts);
    return Some(lines);
  }
}

/**
 * `test.js`, the count-verification script: its command-line parser, its
 * request retry loop, the per-league bundle it derives from the Sleeper
 * records, the order it sorts owners in and the CSV lines it writes.
 */
module Audit {
  import opened Wrappers
  import opened Collections
  import opened Sleeper
  import opened Sorting
  import Text

  // ------------------------------------------------------- command line

  /** A parsed argument: `true` when it had no `=`, else the text after the first `=`. */
  datatype ArgValue = Flag | Given(text: string)

  /** `arg.replace(/^--/, "")`: one leading `--` removed. */
  function StripDashes(arg: string): string
  {
    if |arg| >= 2 && arg[..2] == "--" then arg[2..] else arg
  }

  /** `s.split(c)`: the pieces between the separators, at least one. */
  function Split(s: string, c: char): (parts: seq<string>)
    ensures |parts| >= 1
  {
    if s == [] then [""]
    else if s[0] == c then [""] + Split(s[1..], c)
    else
      var rest := Split(s[1..], c);
      [[s[0]] + rest[0]] + rest[1..]
  }

  /** `parts.join(c)`. */
  function Join(parts: seq<string>, c: char): string
    requires |parts| >= 1
  {
    if |parts| == 1 then parts[0] else parts[0] + [c] + Join(parts[1..], c)
  }

  /** Splitting and joining back gives the text again, and no piece holds the separator. */
  lemma {:induction false} SplitJoin(s: string, c: char)
    ensures Join(Split(s, c), c) == s
    ensures forall k :: 0 <= k < |Split(s, c)| ==> c !in Split(s, c)[k]
    decreases |s|
  {
    if s != [] {
      SplitJoin(s[1..], c);
      var rest := Split(s[1..], c);
      if s[0] == c {
        assert Split(s, c)[1..] == rest;
        assert s == [c] + s[1..];
      } else {
        var parts := Split(s, c);
        assert parts[1..] == rest[1..];
        if |rest| == 1 {
          assert s == [s[0]] + rest[0];
        } else {
          assert rest[1..][1..] == rest[2..];
          assert rest == [rest[0]] + rest[1..];
          assert s == [s[0]] + (rest[0] + [c] + Join(rest[1..], c));
        }
        forall k | 0 <= k < |parts| ensures c !in parts[k] {
          if k > 0 {
            assert parts[k] == rest[k];
          }
        }
      }
    }
  }

  lemma {:induction false} SplitNone(a: string, c: char)
    requires c !in a
    ensures Split(a, c) == [a]
    decreases |a|
  {
    if a != [] {
      SplitNone(a[1..], c);
      assert a == [a[0]] + a[1..];
    }
  }

  lemma {:induction false} SplitFirst(a: string, b: string, c: char)
    requires c !in a
    ensures Split(a + [c] + b, c) == [a] + Split(b, c)
    decreases |a|
  {
    var s := a + [c] + b;
    if a == [] {
      assert s[1..] == b;
    } else {
      assert s[1..] == a[1..] + [c] + b;
      SplitFirst(a[1..], b, c);
      assert a == [a[0]] + a[1..];
    }
  }

  /** `const [k, v] = arg.replace(/^--/, "").split("="); return [k, v ?? true];` */
  function ParseArg(arg: string): (string, ArgValue)
  {
    var parts := Split(StripDashes(arg), '=');
    (parts[0], if |parts| >= 2 then Given(parts[1]) else Flag)
  }

  /** `--k=v` reads back as key `k` with value `v`; `--k` alone reads as `k` set to `true`. */
  lemma ParseArgRoundTrip(k: string, v: string)
    requires '=' !in k && '=' !in v
    ensures ParseArg("--" + k + "=" + v) == (k, Given(v))
    ensures ParseArg("--" + k) == (k, Flag)
  {
    assert ("--" + k + "=" + v)[..2] == "--" && ("--" + k + "=" + v)[2..] == k + ['='] + v;
    assert ("--" + k)[..2] == "--" && ("--" + k)[2..] == k;
    SplitFirst(k, v, '=');
    SplitNone(v, '=');
    SplitNone(k, '=');
  }

  /** `Object.fromEntries(process.argv.slice(2).map(...))`: a later argument with the same key wins. */
  function Args(argv: seq<string>): map<string, ArgValue>
  {
    LastWins(Map(argv, ParseArg))
  }

  /** `args.year || "2025"`, as the property key `LEAGUE_MAP[YEAR]` then reads: `true` becomes "true". */
  function YearKey(args: map<string, ArgValue>): string
  {
    if "year" !in args then "2025"
    else match args["year"]
      case Flag => "true"
      case Given(t) => if t == "" then "2025" else t
  }

  /** `Boolean(args.verbose)`. */
  function Verbose(args: map<string, ArgValue>): bool
  {
    "verbose" in args && (args["verbose"].Flag? || args["verbose"].text != "")
  }

  /** test.js:613-616: the year's league table, or `None` when the run stops before any request. */
  function SelectYear<C>(argv: seq<string>, leagueMap: map<string, C>): Option<C>
  {
    var year := YearKey(Args(argv));
    if year in leagueMap then Some(leagueMap[year]) else None
  }

  /** Without a `year` argument the year is "2025"; `--year=Y` selects Y. */
  lemma YearChoice(y: string)
    requires '=' !in y && y != ""
    ensures YearKey(Args([])) == "2025"
    ensures YearKey(Args(["--year=" + y])) == y
  {
    ParseArgRoundTrip("year", y);
    assert "--year=" + y == "--" + "year" + "=" + y;
    assert Map(["--year=" + y], ParseArg) == [("year", Given(y))];
  }

  /**
   * The usage line in the file's header, `--year 2025`, passes the year as
   * a separate argument: the key "year" is then `true`, and the run stops
   * unless the table has a year called "true".
   */
  lemma SpacedYearIsFatal<C>(leagueMap: map<string, C>)
    requires "true" !in leagueMap
    ensures YearKey(Args(["--year", "2025"])) == "true"
    ensures SelectYear(["--year", "2025"], leagueMap).None?
  {
    ParseArgRoundTrip("year", "");
    assert ParseArg("--year") == ("year", Flag) by { assert "--" + "year" == "--year"; }
    assert ParseArg("2025") == ("2025", Flag) by {
      assert "2025"[..2][0] == '2' != "--"[0];
      SplitNone("2025", '=');
    }
    var pairs := Map(["--year", "2025"], ParseArg);
    assert pairs[0] == ("year", Flag) && pairs[1] == ("2025", Flag);
    assert LastWithKey(pairs, 0);
  }

  // ------------------------------------------------------------- retries

  /** What one `http.get` does: answer with data, or throw with a code. */
  datatype Attempt<T> = Success(data: T) | Failure(code: string)

  /** What `getWithRetry` does: return data, rethrow, or (with no attempts allowed) return `undefined`. */
  datatype Retried<T> = Returned(data: T, attempts: nat) | Rethrown(code: string, attempts: nat) | Undefined

  /** Attempts `i`, `i + 1`, ... of at most `retries`, attempt `j` answering `outcome(j)`. */
  function RetryFrom<T>(outcome: nat -> Attempt<T>, retries: int, i: nat): Retried<T>
    decreases if i < retries then retries - i else 0
  {
    if i >= retries then Undefined
    else match outcome(i)
      case Success(d) => Returned(d, i + 1)
      case Failure(c) => if i == retries - 1 then Rethrown(c, i + 1) else RetryFrom(outcome, retries, i + 1)
  }

  lemma {:induction false} RetryFromFacts<T>(outcome: nat -> Attempt<T>, retries: int, i: nat)
    requires i < retries
    ensures match RetryFrom(outcome, retries, i)
            case Returned(d, n) =>
              i < n <= retries && outcome(n - 1) == Success(d) && forall j :: i <= j < n - 1 ==> outcome(j).Failure?
            case Rethrown(c, n) =>
              n == retries && outcome(n - 1) == Failure(c) && forall j :: i <= j < n ==> outcome(j).Failure?
            case Undefined => false
    decreases retries - i
  {
    if outcome(i).Failure? && i != retries - 1 {
      RetryFromFacts(outcome, retries, i + 1);
    }
  }

  /**
   * At most `retries` attempts: the data of the first attempt that
   * succeeds, all earlier ones having failed; else the last attempt's error,
   * after exactly `retries` failures; `undefined` only when no attempt is
   * allowed.
   */
  lemma RetryOutcome<T>(outcome: nat -> Attempt<T>, retries: int)
    ensures RetryFrom(outcome, retries, 0).Undefined? <==> retries <= 0
    ensures match RetryFrom(outcome, retries, 0)
            case Returned(d, n) =>
              1 <= n <= retries && outcome(n - 1) == Success(d) && forall j :: 0 <= j < n - 1 ==> outcome(j).Failure?
            case Rethrown(c, n) =>
              n == retries && outcome(n - 1) == Failure(c) && forall j :: 0 <= j < n ==> outcome(j).Failure?
            case Undefined => true
    ensures (exists j :: 0 <= j < retries && outcome(j).Success?) ==> RetryFrom(outcome, retries, 0).Returned?
  {
    if retries > 0 {
      RetryFromFacts(outcome, retries, 0);
    }
  }

  /** The waits before attempts 2 .. n + 1: `500 * (i + 1)` ms after failed attempt `i`. */
  function Waits(n: nat): seq<int>
  {
    if n == 0 then [] else Waits(n - 1) + [500 * n]
  }

  /** One wait per failed attempt, the `k`-th being `500 * (k + 1)` ms. */
  lemma {:induction false} WaitsGrow(n: nat)
    ensures |Waits(n)| == n
    ensures forall k :: 0 <= k < n ==> Waits(n)[k] == 500 * (k + 1)
    decreases n
  {
    if n > 0 {
      WaitsGrow(n - 1);
      assert Waits(n)[..n - 1] == Waits(n - 1);
    }
  }

  /** In total `n` failed attempts wait `250 * n * (n + 1)` ms. */
  lemma {:induction false} WaitsTotal(n: nat)
    ensures Sum(Waits(n)) == 250 * n * (n + 1)
    decreases n
  {
    if n > 0 {
      WaitsTotal(n - 1);
      var w := Waits(n);
      assert w[..|w| - 1] == Waits(n - 1);
      TriangleStep(n);
    }
  }

  lemma TriangleStep(n: nat)
    ensures 250 * (n - 1) * n + 500 * n == 250 * n * (n + 1)
  {
  }

  /** `getWithRetry(url, label, retries)`: the result and the waits it sleeps. */
  method GetWithRetry<T>(outcome: nat -> Attempt<T>, retries: int) returns (r: Retried<T>, waits: seq<int>)
    ensures r == RetryFrom(outcome, retries, 0)
    ensures r.Undefined? ==> waits == []
    ensures !r.Undefined? ==> r.attempts >= 1 && waits == Waits(r.attempts - 1)
  {
    waits := [];
    var i: nat := 0;
    while i < retries
      invariant i == 0 || i < retries
      invariant RetryFrom(outcome, retries, i) == RetryFrom(outcome, retries, 0)
      invariant waits == Waits(i)
      decreases retries - i
    {
      match outcome(i)
      case Success(d) =>
        return Returned(d, i + 1), waits;
      case Failure(c) =>
        if i == retries - 1 {
          return Rethrown(c, i + 1), waits;
        }
        waits := waits + [500 * (i + 1)];
        i := i + 1;
    }
    return Undefined, waits;
  }

  // -------------------------------------------------------- league bundle

  /** The three answers of one league, as data; `None` stands for a `null` body. */
  datatype BundleInput = BundleInput(info: Option<LeagueInfo>, rosters: Option<seq<Roster>>, users: Option<seq<User>>)

  /** What `fetchLeagueBundle` returns. */
  datatype Bundle = Bundle(
    leagueId: string,
    leagueName: string,
    totalRosters: int,
    ownedRosters: nat,
    isFull: bool,
    ownerIds: seq<string>,
    userNameById: map<string, string>)

  /** `!!r.owner_id`. */
  predicate Owned(r: Roster)
  {
    Claimed(r.ownerId)
  }

  function OwnerIdOf(r: Roster): string
  {
    r.ownerId.GetOr("")
  }

  /**
   * `fetchLeagueBundle(leagueId)`; `fetched` is `None` when one of its three
   * requests threw after its retries. A `null` league body makes the
   * function throw as well.
   */
  function LoadBundle(leagueId: string, fetched: Option<BundleInput>): Option<Bundle>
  {
    if fetched.None? || fetched.value.info.None? then None
    else
      var info := fetched.value.info.value;
      var rosters := fetched.value.rosters.GetOr([]);
      var ownedRosters := Filter(rosters, Owned);
      var total := if info.totalRosters.Some? then info.totalRosters.value
                   else if fetched.value.rosters.Some? then |fetched.value.rosters.value| else 0;
      var owned := |ownedRosters|;
      Some(Bundle(
        leagueId,
        if info.name != "" then info.name else "League " + leagueId,
        total,
        owned,
        owned == total && total > 0,
        Map(ownedRosters, OwnerIdOf),
        UserMap(fetched.value.users.GetOr([]))))
  }

  /**
   * A bundle counts the rosters with an owner; its size is `total_rosters`
   * when given, else the number of rosters; it is full exactly when every
   * seat is owned and there is at least one; its owner ids are exactly the
   * owned rosters' owners, none empty; its name falls back to `League <id>`.
   */
  lemma BundleFacts(leagueId: string, fetched: Option<BundleInput>)
    ensures LoadBundle(leagueId, fetched).Some? <==> fetched.Some? && fetched.value.info.Some?
    ensures LoadBundle(leagueId, fetched).Some? ==>
              var b := LoadBundle(leagueId, fetched).value;
              var info := fetched.value.info.value;
              var rosters := fetched.value.rosters.GetOr([]);
              && b.ownedRosters == CountWhere(rosters, Owned)
              && b.totalRosters == (if info.totalRosters.Some? then info.totalRosters.value else |rosters|)
              && (b.isFull <==> b.ownedRosters == b.totalRosters && b.totalRosters > 0)
              && |b.ownerIds| == b.ownedRosters
              && (forall id :: id in b.ownerIds <==> exists r :: r in rosters && Owned(r) && r.ownerId.value == id)
              && (forall k :: 0 <= k < |b.ownerIds| ==> b.ownerIds[k] != "")
              && b.leagueName == (if info.name != "" then info.name else "League " + leagueId)
  {
    if LoadBundle(leagueId, fetched).Some? {
      var b := LoadBundle(leagueId, fetched).value;
      var rosters := fetched.value.rosters.GetOr([]);
      var owned := Filter(rosters, Owned);
      forall id ensures id in b.ownerIds <==> exists r :: r in rosters && Owned(r) && r.ownerId.value == id {
        if id in b.ownerIds {
          var k :| 0 <= k < |b.ownerIds| && b.ownerIds[k] == id;
          assert owned[k] in owned;
        }
        if r :| r in rosters && Owned(r) && r.ownerId.value == id {
          assert r in owned;
          var k :| 0 <= k < |owned| && owned[k] == r;
          assert b.ownerIds[k] == id;
        }
      }
      forall k | 0 <= k < |b.ownerIds| ensures b.ownerIds[k] != "" {
        assert owned[k] in owned;
      }
    }
  }

  /** A full bundle lists one owner id per roster seat. */
  lemma FullBundleSeats(leagueId: string, fetched: Option<BundleInput>)
    requires LoadBundle(leagueId, fetched).Some? && LoadBundle(leagueId, fetched).value.isFull
    ensures |LoadBundle(leagueId, fetched).value.ownerIds| == LoadBundle(leagueId, fetched).value.totalRosters
  {
  }

  // ---------------------------------------------------------- owner order

  /** `(ownerNameMap.get(id) || "").toLowerCase()`. */
  function SortName(names: map<string, string>, id: string): string
  {
    Text.ToLower(if id in names then names[id] else "")
  }

  /**
   * The comparator of `ids.sort`: named ids first, by lower-cased name;
   * then the unnamed ones by id. Code-point order stands for `localeCompare`.
   */
  function CompareOwners(names: map<string, string>, a: string, b: string): int
  {
    var na, nb := SortName(names, a), SortName(names, b);
    if na != "" && nb != "" then Text.StrCompare(na, nb)
    else if na != "" then -1
    else if nb != "" then 1
    else Text.StrCompare(a, b)
  }

  function OwnerLeq(names: map<string, string>): (string, string) -> bool
  {
    (a, b) => CompareOwners(names, a, b) <= 0
  }

  lemma StrLessAsymmetric(a: string, b: string)
    requires Text.StrLess(a, b)
    ensures !Text.StrLess(b, a)
  {
    if Text.StrLess(b, a) {
      Text.StrLessTransitive(a, b, a);
      Text.StrLessIrreflexive(a);
    }
  }

  /** `a` is at most `c` in code-point order when `a` is at most `b` and `b` at most `c`. */
  lemma StrLeqTransitive(a: string, b: string, c: string)
    requires !Text.StrLess(b, a) && !Text.StrLess(c, b)
    ensures !Text.StrLess(c, a)
  {
    Text.StrLessTotal(a, b);
    Text.StrLessTotal(b, c);
    if Text.StrLess(c, a) {
      if a == b {
      } else if b == c {
      } else {
        Text.StrLessTransitive(c, a, b);
        StrLessAsymmetric(c, b);
      }
    }
  }

  /** The comparator is consistent, so the sort is well defined. */
  lemma OwnerOrderTotal(names: map<string, string>)
    ensures TotalPreorder(OwnerLeq(names))
  {
    var leq := OwnerLeq(names);
    forall a, b ensures leq(a, b) || leq(b, a) {
      Text.StrLessTotal(SortName(names, a), SortName(names, b));
      Text.StrLessTotal(a, b);
    }
    forall a, b, c | leq(a, b) && leq(b, c) ensures leq(a, c) {
      var na, nb, nc := SortName(names, a), SortName(names, b), SortName(names, c);
      if na != "" && nb != "" && nc != "" {
        StrLeqTransitive(na, nb, nc);
      } else if na == "" && nb == "" && nc == "" {
        StrLeqTransitive(a, b, c);
      }
    }
  }

  /** `ids.sort(...)`. */
  function SortOwners(names: map<string, string>, ids: seq<string>): (sorted: seq<string>)
    ensures multiset(sorted) == multiset(ids)
    ensures SortedBy(sorted, OwnerLeq(names))
  {
    OwnerOrderTotal(names);
    SortBy(ids, OwnerLeq(names))
  }

  /** Ids the comparator ties (equal lower-cased names) keep their order of first sight. */
  lemma SortOwnersStable(names: map<string, string>, ids: seq<string>, x: string)
    ensures Ties(SortOwners(names, ids), x, OwnerLeq(names)) == Ties(ids, x, OwnerLeq(names))
  {
    OwnerOrderTotal(names);
    SortByStable(ids, x, OwnerLeq(names));
  }

  /** After sorting, every id with a name comes before every id without one. */
  lemma NamedFirst(names: map<string, string>, ids: seq<string>, i: int, j: int)
    requires var sorted := SortOwners(names, ids); 0 <= i < j < |sorted| && SortName(names, sorted[j]) != ""
    ensures SortName(names, SortOwners(names, ids)[i]) != ""
  {
    var sorted := SortOwners(names, ids);
    assert OwnerLeq(names)(sorted[i], sorted[j]);
  }

  /** Named ids come out in code-point order of their lower-cased names. */
  lemma NamedInOrder(names: map<string, string>, ids: seq<string>, i: int, j: int)
    requires var sorted := SortOwners(names, ids);
             0 <= i < j < |sorted| && SortName(names, sorted[i]) != "" && SortName(names, sorted[j]) != ""
    ensures !Text.StrLess(SortName(names, SortOwners(names, ids)[j]), SortName(names, SortOwners(names, ids)[i]))
  {
    var sorted := SortOwners(names, ids);
    assert OwnerLeq(names)(sorted[i], sorted[j]);
  }

  /** Ids without a name come out in code-point order of the ids themselves. */
  lemma NamelessInOrder(names: map<string, string>, ids: seq<string>, i: int, j: int)
    requires var sorted := SortOwners(names, ids);
             0 <= i < j < |sorted| && SortName(names, sorted[i]) == "" && SortName(names, sorted[j]) == ""
    ensures !Text.StrLess(SortOwners(names, ids)[j], SortOwners(names, ids)[i])
  {
    var sorted := SortOwners(names, ids);
    assert OwnerLeq(names)(sorted[i], sorted[j]);
  }

  // ------------------------------------------------------------------ CSV

  const Header := "No.,user_id,display_name,team_count"

  /** `${i + 1},"${id}","${name}",${count}` with the name's quotes doubled; the id is not escaped. */
  function Row(i: nat, id: string, name: string, count: nat): string
  {
    Text.NatToDecimal(i + 1) + ",\"" + id + "\",\"" + Text.EscapeQuotes(name) + "\"," + Text.NatToDecimal(count)
  }

  /** `(ownerNameMap.get(id) || "")`. */
  function NameFor(names: map<string, string>, id: string): string
  {
    if id in names then names[id] else ""
  }

  /** `ownerCounts[id] || 0`. */
  function CountFor(counts: map<string, nat>, id: string): nat
  {
    if id in counts then counts[id] else 0
  }

  /**
   * A row reads back: its number is `i + 1`; an id without quotes and the
   * name come back out of their quoted fields; the count follows.
   */
  lemma RowReadsBack(i: nat, id: string, name: string, count: nat)
    requires '"' !in id
    ensures var row := Row(i, id, name, count);
            var num := Text.NatToDecimal(i + 1);
            && row[..|num|] == num && Text.DigitsValue(num) == i + 1
            && row[|num|..|num| + 2] == ",\""
            && Text.ReadQuoted(row[|num| + 2..]) == Some((id, ",\"" + Text.EscapeQuotes(name) + "\"," + Text.NatToDecimal(count)))
            && Text.ReadQuoted(Text.EscapeQuotes(name) + "\"," + Text.NatToDecimal(count)) == Some((name, "," + Text.NatToDecimal(count)))
  {
    var num := Text.NatToDecimal(i + 1);
    var esc, cnt := Text.EscapeQuotes(name), Text.NatToDecimal(count);
    var rest2 := "," + cnt;
    var tail := esc + "\"" + rest2;
    assert tail == esc + "\"," + cnt;
    var rest1 := ",\"" + tail;
    assert rest1 == ",\"" + esc + "\"," + cnt;
    var field := id + "\"" + rest1;
    var row := Row(i, id, name, count);
    assert row == num + ",\"" + field;
    assert row[|num| + 2..] == field;
    Text.NatToDecimalRoundTrip(i + 1);
    assert Text.EscapeQuotes(id) == id;
    Text.QuotedFieldRoundTrip(id, rest1);
    Text.QuotedFieldRoundTrip(name, rest2);
  }

  /** test.js:758-763: the header, then one numbered row per id in order. */
  method CsvLines(ids: seq<string>, names: map<string, string>, counts: map<string, nat>) returns (lines: seq<string>)
    ensures |lines| == |ids| + 1 && lines[0] == Header
    ensures forall i :: 0 <= i < |ids| ==> lines[i + 1] == Row(i, ids[i], NameFor(names, ids[i]), CountFor(counts, ids[i]))
  {
    lines := [Header];
    for i := 0 to |ids|
      invariant |lines| == i + 1 && lines[0] == Header
      invariant forall k :: 0 <= k < i ==> lines[k + 1] == Row(k, ids[k], NameFor(names, ids[k]), CountFor(counts, ids[k]))
    {
      var name := NameFor(names, ids[i]);
      var count := CountFor(counts, ids[i]);
      lines := lines + [Row(i, ids[i], name, count)];
    }
  }
}

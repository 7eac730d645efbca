/**
 * The list arithmetic of `src/components/Leaderboard.js`: the owner search
 * and its suggestions, the pages of fifteen rows, and the three-week window.
 */
module LeaderboardView {
  import opened Wrappers
  import opened Collections
  import Text
  import Ledger

  type Owner = Ledger.OwnerEntry

  // ---------------------------------------------------------- search

  /** `String(s || "").toLowerCase().trim()`; an absent name reads as "". */
  function Norm(s: Option<string>): string
  {
    Text.Trim(Text.ToLower(s.GetOr("")))
  }

  function NameMatches(q: string): Owner -> bool
  {
    (o: Owner) => Text.Contains(Norm(o.ownerName), q)
  }

  /** `filteredOwners`: every owner for an empty query, else those whose name contains it. */
  function FilteredOwners(owners: seq<Owner>, query: string): seq<Owner>
  {
    var q := Norm(Some(query));
    if q == "" then owners else Filter(owners, NameMatches(q))
  }

  /** The filter keeps the list for a blank query and otherwise keeps exactly the matching owners. */
  lemma FilteredOwnersFacts(owners: seq<Owner>, query: string)
    ensures Norm(Some(query)) == "" ==> FilteredOwners(owners, query) == owners
    ensures Norm(Some(query)) != "" ==>
              forall o :: o in FilteredOwners(owners, query) <==> o in owners && Text.Contains(Norm(o.ownerName), Norm(Some(query)))
    ensures |FilteredOwners(owners, query)| <= |owners|
  {
    CountWhereBound(owners, NameMatches(Norm(Some(query))));
  }

  lemma LowerCharIdempotent(c: char)
    ensures Text.LowerChar(Text.LowerChar(c)) == Text.LowerChar(c)
  {
  }

  lemma ToLowerIdempotent(s: string)
    ensures Text.ToLower(Text.ToLower(s)) == Text.ToLower(s)
  {
    forall i | 0 <= i < |s| ensures Text.ToLower(Text.ToLower(s))[i] == Text.ToLower(s)[i] {
      LowerCharIdempotent(s[i]);
    }
  }

  /** The query's letter case does not matter: upper-casing it differently selects the same owners. */
  lemma QueryCaseInsensitive(owners: seq<Owner>, query: string)
    ensures FilteredOwners(owners, Text.ToLower(query)) == FilteredOwners(owners, query)
  {
    ToLowerIdempotent(query);
  }

  /** `ownerSuggestions`' `startsWith` test. */
  function StartsQ(q: string): Option<string> -> bool
  {
    (n: Option<string>) => Text.StartsWith(Norm(n), q)
  }

  /** `ownerSuggestions`' "contains but does not start with" test. */
  function IncludesQ(q: string): Option<string> -> bool
  {
    (n: Option<string>) => !Text.StartsWith(Norm(n), q) && Text.Contains(Norm(n), q)
  }

  function NameOf(o: Owner): Option<string>
  {
    o.ownerName
  }

  /** The most suggestions shown. */
  const MaxSuggestions := 8

  /** The distinct owner names, in order of first appearance. */
  function OwnerNames(owners: seq<Owner>): seq<Option<string>>
  {
    Dedup(Map(owners, NameOf))
  }

  /** `[...starts, ...includes]` for a non-blank query `q`. */
  function Candidates(owners: seq<Owner>, q: string): seq<Option<string>>
  {
    Filter(OwnerNames(owners), StartsQ(q)) + Filter(OwnerNames(owners), IncludesQ(q))
  }

  /** `ownerSuggestions`: the distinct names, prefix matches first, then the other matches, at most 8. */
  function Suggestions(owners: seq<Owner>, query: string): seq<Option<string>>
  {
    var q := Norm(Some(query));
    if q == "" then []
    else
      var all := Candidates(owners, q);
      all[..if |all| < MaxSuggestions then |all| else MaxSuggestions]
  }

  lemma CandidatesDistinct(owners: seq<Owner>, q: string)
    ensures Distinct(Candidates(owners, q))
  {
    var names := OwnerNames(owners);
    var starts, includes := Filter(names, StartsQ(q)), Filter(names, IncludesQ(q));
    FilterDistinct(names, StartsQ(q));
    FilterDistinct(names, IncludesQ(q));
    forall x | x in starts ensures x !in includes {
      assert StartsQ(q)(x);
    }
    AppendDistinct(starts, includes);
  }

  lemma IncludesDoNotStart(owners: seq<Owner>, q: string, j: int)
    requires |Filter(OwnerNames(owners), StartsQ(q))| <= j < |Candidates(owners, q)|
    ensures !Text.StartsWith(Norm(Candidates(owners, q)[j]), q)
  {
    var starts, includes := Filter(OwnerNames(owners), StartsQ(q)), Filter(OwnerNames(owners), IncludesQ(q));
    assert Candidates(owners, q)[j] == includes[j - |starts|];
    assert includes[j - |starts|] in includes;
  }

  /** No name that starts with `q` comes after one that does not. */
  predicate PrefixMatchesFirst(names: seq<Option<string>>, q: string)
  {
    forall i, j :: 0 <= i < j < |names| && Text.StartsWith(Norm(names[j]), q) ==> Text.StartsWith(Norm(names[i]), q)
  }

  lemma PrefixMatchesFirstTake(names: seq<Option<string>>, q: string, n: nat)
    requires PrefixMatchesFirst(names, q) && n <= |names|
    ensures PrefixMatchesFirst(names[..n], q)
  {
    var r := names[..n];
    forall i, j | 0 <= i < j < |r| && Text.StartsWith(Norm(r[j]), q) ensures Text.StartsWith(Norm(r[i]), q) {
      assert r[i] == names[i] && r[j] == names[j];
    }
  }

  lemma CandidatesOrder(owners: seq<Owner>, q: string)
    ensures PrefixMatchesFirst(Candidates(owners, q), q)
  {
    var starts := Filter(OwnerNames(owners), StartsQ(q));
    var all := Candidates(owners, q);
    forall i, j | 0 <= i < j < |all| && Text.StartsWith(Norm(all[j]), q) ensures Text.StartsWith(Norm(all[i]), q) {
      if j >= |starts| {
        IncludesDoNotStart(owners, q, j);
      }
      assert all[i] == starts[i];
      assert starts[i] in starts;
    }
  }

  lemma OwnerNameFrom(owners: seq<Owner>, n: Option<string>)
    requires n in OwnerNames(owners)
    ensures exists o :: o in owners && o.ownerName == n
  {
    assert n in Map(owners, NameOf);
    var k :| 0 <= k < |owners| && Map(owners, NameOf)[k] == n;
    assert owners[k] in owners;
  }

  lemma OwnerNameListed(owners: seq<Owner>, o: Owner)
    requires o in owners
    ensures o.ownerName in OwnerNames(owners)
  {
    var k :| 0 <= k < |owners| && owners[k] == o;
    assert Map(owners, NameOf)[k] == o.ownerName;
  }

  lemma CandidateMatches(owners: seq<Owner>, q: string, n: Option<string>)
    requires n in Candidates(owners, q)
    ensures Text.Contains(Norm(n), q) && n in OwnerNames(owners)
  {
    if n in Filter(OwnerNames(owners), StartsQ(q)) {
      Text.StartsWithContains(Norm(n), q);
    }
  }

  lemma CandidatesMatch(owners: seq<Owner>, q: string)
    ensures forall n :: n in Candidates(owners, q) ==> Text.Contains(Norm(n), q) && exists o :: o in owners && o.ownerName == n
  {
    forall n | n in Candidates(owners, q) ensures Text.Contains(Norm(n), q) && exists o :: o in owners && o.ownerName == n {
      CandidateMatches(owners, q, n);
      OwnerNameFrom(owners, n);
    }
  }

  lemma CandidateFound(owners: seq<Owner>, q: string, n: Option<string>)
    requires n in OwnerNames(owners) && Text.Contains(Norm(n), q)
    ensures n in Candidates(owners, q)
  {
    var names := OwnerNames(owners);
    if StartsQ(q)(n) {
      FilterKeeps(names, StartsQ(q), n);
    } else {
      assert IncludesQ(q)(n);
      FilterKeeps(names, IncludesQ(q), n);
    }
  }

  lemma CandidatesComplete(owners: seq<Owner>, q: string)
    ensures forall o :: o in owners && Text.Contains(Norm(o.ownerName), q) ==> o.ownerName in Candidates(owners, q)
  {
    forall o | o in owners && Text.Contains(Norm(o.ownerName), q) ensures o.ownerName in Candidates(owners, q) {
      OwnerNameListed(owners, o);
      CandidateFound(owners, q, o.ownerName);
    }
  }

  /** A blank query suggests nothing; otherwise the suggestions are the first (at most 8) candidates. */
  lemma SuggestionsPrefix(owners: seq<Owner>, query: string)
    ensures var q, r := Norm(Some(query)), Suggestions(owners, query);
            && |r| <= MaxSuggestions
            && (q == "" ==> r == [])
            && (q != "" ==> r == Candidates(owners, q)[..|r|])
            && (q != "" && |r| < MaxSuggestions ==> r == Candidates(owners, q))
  {
  }

  /** The suggestions are distinct. */
  lemma SuggestionsDistinct(owners: seq<Owner>, query: string)
    ensures Distinct(Suggestions(owners, query))
  {
    var q := Norm(Some(query));
    if q != "" {
      var all := Candidates(owners, q);
      SuggestionsPrefix(owners, query);
      CandidatesDistinct(owners, q);
      PrefixDistinct(all, |Suggestions(owners, query)|);
    }
  }

  /** Every suggestion is some owner's name and contains the normalised query. */
  lemma SuggestionsMatch(owners: seq<Owner>, query: string)
    ensures var q := Norm(Some(query));
            forall n :: n in Suggestions(owners, query) ==> Text.Contains(Norm(n), q) && exists o :: o in owners && o.ownerName == n
  {
    var q := Norm(Some(query));
    var r := Suggestions(owners, query);
    if q != "" {
      SuggestionsPrefix(owners, query);
      CandidatesMatch(owners, q);
      forall n | n in r ensures n in Candidates(owners, q) {
        PrefixIn(Candidates(owners, q), |r|, n);
      }
    }
  }

  /** Prefix matches come before every other suggestion. */
  lemma SuggestionsOrder(owners: seq<Owner>, query: string)
    ensures PrefixMatchesFirst(Suggestions(owners, query), Norm(Some(query)))
  {
    var q := Norm(Some(query));
    if q != "" {
      SuggestionsPrefix(owners, query);
      CandidatesOrder(owners, q);
      PrefixMatchesFirstTake(Candidates(owners, q), q, |Suggestions(owners, query)|);
    }
  }

  /** Unless all 8 places are used, every owner whose name contains a non-blank query is suggested. */
  lemma SuggestionsComplete(owners: seq<Owner>, query: string)
    ensures var q, r := Norm(Some(query)), Suggestions(owners, query);
            q != "" && |r| < MaxSuggestions ==>
              forall o :: o in owners && Text.Contains(Norm(o.ownerName), q) ==> o.ownerName in r
  {
    var q := Norm(Some(query));
    if q != "" {
      SuggestionsPrefix(owners, query);
      CandidatesComplete(owners, q);
    }
  }

  // ------------------------------------------------------ pagination

  const ItemsPerPage := 15

  /** `Math.ceil(n / itemsPerPage) || 1`. */
  function TotalPages(n: nat): (pages: nat)
    ensures pages >= 1
    ensures n <= pages * ItemsPerPage
    ensures n == 0 || (pages - 1) * ItemsPerPage < n
  {
    var c := (n + ItemsPerPage - 1) / ItemsPerPage;
    if c == 0 then 1 else c
  }

  /** JavaScript's index clamping in `slice(i, ...)`: a negative index counts from the end. */
  function SliceIndex(i: int, len: nat): (r: nat)
    ensures r <= len
  {
    if i < 0 then (if len + i < 0 then 0 else len + i) else if i > len then len else i
  }

  /** `s.slice(a, b)`. */
  function Slice<T>(s: seq<T>, a: int, b: int): seq<T>
  {
    var i, j := SliceIndex(a, |s|), SliceIndex(b, |s|);
    if i < j then s[i..j] else []
  }

  /** `(page - 1) * itemsPerPage`. */
  function StartIndex(page: int): int
  {
    (page - 1) * ItemsPerPage
  }

  /** `currentOwners`. */
  function PageRows<T>(rows: seq<T>, page: int): seq<T>
  {
    Slice(rows, StartIndex(page), StartIndex(page) + ItemsPerPage)
  }

  /** Page `page` shows at most 15 rows, the ones from `(page - 1) * 15` on, in order. */
  lemma PageRowsFacts<T>(rows: seq<T>, page: int)
    requires page >= 1
    ensures |PageRows(rows, page)| <= ItemsPerPage
    ensures forall k :: 0 <= k < |PageRows(rows, page)| ==> PageRows(rows, page)[k] == rows[StartIndex(page) + k]
    ensures StartIndex(page) < |rows| ==> |PageRows(rows, page)| == if |rows| - StartIndex(page) < ItemsPerPage then |rows| - StartIndex(page) else ItemsPerPage
  {
  }

  /** Every row is on exactly one page, and that page is one of `totalPages`. */
  lemma EveryRowOnAPage<T>(rows: seq<T>, k: int)
    requires 0 <= k < |rows|
    ensures var page := k / ItemsPerPage + 1;
            && 1 <= page <= TotalPages(|rows|)
            && k - StartIndex(page) < |PageRows(rows, page)|
            && PageRows(rows, page)[k - StartIndex(page)] == rows[k]
    ensures forall p :: p >= 1 && StartIndex(p) <= k < StartIndex(p) + ItemsPerPage ==> p == k / ItemsPerPage + 1
  {
    var page := k / ItemsPerPage + 1;
    assert StartIndex(page) <= k < StartIndex(page) + ItemsPerPage;
    PageRowsFacts(rows, page);
  }

  /** `setPage((p) => Math.max(p - 1, 1))`. */
  function PrevPage(page: int): int
  {
    if page - 1 > 1 then page - 1 else 1
  }

  /** `setPage((p) => Math.min(p + 1, totalPages))`. */
  function NextPage(page: int, totalPages: int): int
  {
    if page + 1 < totalPages then page + 1 else totalPages
  }

  /** Prev and Next keep the page between 1 and `totalPages` and move it by at most one. */
  lemma PagesStayInRange(page: int, totalPages: int)
    requires 1 <= page <= totalPages
    ensures 1 <= PrevPage(page) <= totalPages && 1 <= NextPage(page, totalPages) <= totalPages
    ensures PrevPage(page) == (if page == 1 then 1 else page - 1)
    ensures NextPage(page, totalPages) == (if page == totalPages then totalPages else page + 1)
  {
  }

  /** The `page` state. */
  class Pager {
    var page: int

    /** `useState(1)`. */
    constructor ()
      ensures page == 1
    {
      page := 1;
    }

    /** The effect that runs when the query, year or category changes. */
    method Reset()
      modifies this
      ensures page == 1
    {
      page := 1;
    }

    /** Back one page, never below page 1. */
    method Prev()
      modifies this
      ensures page == PrevPage(old(page))
      ensures page >= 1 && (old(page) <= 1 || page == old(page) - 1)
    {
      page := if page - 1 > 1 then page - 1 else 1;
    }

    /** Forward one page, never past the last. */
    method Next(totalPages: int)
      modifies this
      ensures page == NextPage(old(page), totalPages)
      ensures 1 <= old(page) <= totalPages ==> 1 <= page <= totalPages
      ensures old(page) + 1 < totalPages ==> page == old(page) + 1
    {
      page := if page + 1 < totalPages then page + 1 else totalPages;
    }
  }

  // ------------------------------------------------------- week window

  const WeeksToShow := 3

  /** `nextWeeks`: forward one window unless that start would reach `maxWeeks`. */
  function NextStart(start: int, maxWeeks: int): int
  {
    if start + WeeksToShow < maxWeeks then start + WeeksToShow else start
  }

  /** `prevWeeks`: back one window unless that would go below 0. */
  function PrevStart(start: int): int
  {
    if start - WeeksToShow >= 0 then start - WeeksToShow else start
  }

  /** `currentWeeks`. */
  function CurrentWeeks(weeks: seq<int>, start: int, showWeeks: bool): seq<int>
  {
    if showWeeks then Slice(weeks, start, start + WeeksToShow) else []
  }

  /** A start reached from 0 by these moves: a multiple of 3, not negative, before `maxWeeks` unless it is 0. */
  predicate WindowOk(start: int, maxWeeks: int)
  {
    0 <= start && start % WeeksToShow == 0 && (start == 0 || start < maxWeeks)
  }

  /** Both moves keep the window start well placed. */
  lemma WindowMovesKeepOk(start: int, maxWeeks: int)
    requires WindowOk(start, maxWeeks)
    ensures WindowOk(NextStart(start, maxWeeks), maxWeeks)
    ensures WindowOk(PrevStart(start), maxWeeks)
  {
  }

  /** A window shows at most 3 weeks, consecutive and from its start; a well-placed one over the weeks is never empty when there are weeks. */
  lemma WindowContents(weeks: seq<int>, start: int, showWeeks: bool)
    requires start >= 0
    ensures |CurrentWeeks(weeks, start, showWeeks)| <= WeeksToShow
    ensures forall k :: 0 <= k < |CurrentWeeks(weeks, start, showWeeks)| ==> CurrentWeeks(weeks, start, showWeeks)[k] == weeks[start + k]
    ensures showWeeks && WindowOk(start, |weeks|) && weeks != [] ==> CurrentWeeks(weeks, start, showWeeks) != []
  {
  }

  /** The `visibleWeeksStart` state. */
  class WeekWindow {
    var visibleWeeksStart: int

    /** `useState(0)`. */
    constructor ()
      ensures visibleWeeksStart == 0
    {
      visibleWeeksStart := 0;
    }

    /** Forward one window; the start stays well placed and never reaches `maxWeeks` by moving. */
    method NextWeeks(maxWeeks: int)
      modifies this
      ensures visibleWeeksStart == NextStart(old(visibleWeeksStart), maxWeeks)
      ensures old(WindowOk(visibleWeeksStart, maxWeeks)) ==> WindowOk(visibleWeeksStart, maxWeeks)
      ensures visibleWeeksStart != old(visibleWeeksStart) ==> visibleWeeksStart == old(visibleWeeksStart) + WeeksToShow < maxWeeks
    {
      if visibleWeeksStart + WeeksToShow < maxWeeks {
        visibleWeeksStart := visibleWeeksStart + WeeksToShow;
      }
    }

    /** Back one window, never below 0. */
    method PrevWeeks()
      modifies this
      ensures visibleWeeksStart == PrevStart(old(visibleWeeksStart))
      ensures old(visibleWeeksStart) >= 0 ==> visibleWeeksStart >= 0
      ensures visibleWeeksStart <= old(visibleWeeksStart)
      ensures old(visibleWeeksStart) % WeeksToShow == 0 ==> visibleWeeksStart % WeeksToShow == 0
    {
      if visibleWeeksStart - WeeksToShow >= 0 {
        visibleWeeksStart := visibleWeeksStart - WeeksToShow;
      }
    }
  }
}

/**
 * `loadWeeklyData` in `src/components/Leaderboard.js`: the weekly roster
 * snapshot is published in numbered parts; the page fetches them in order,
 * merges each into one year → mode → league table and keeps the result.
 *
 * A league's value (its weeks and their rosters) is left abstract as `V`:
 * the merge copies it whole and never looks inside.
 */
module Snapshots {
  import opened Wrappers

  /** year → mode → league → that league's data. */
  type Table<V> = map<string, map<string, map<string, V>>>

  /** What `fetch(partUrl)` and `res.json()` give: an answer (`None` when the body is not JSON) or a throw. */
  datatype PartReply<V> = Reply(status: int, body: Option<Table<V>>) | Threw

  /** The highest part number probed. */
  const MaxParts := 20

  /** Part is read: not a 404, `res.ok`, and its body parses. */
  predicate Readable<V>(r: PartReply<V>)
  {
    r.Reply? && r.status != 404 && 200 <= r.status <= 299 && r.body.Some?
  }

  function Modes<V>(t: Table<V>, y: string): map<string, map<string, V>>
  {
    if y in t then t[y] else map[]
  }

  function Leagues<V>(m: map<string, map<string, V>>, c: string): map<string, V>
  {
    if c in m then m[c] else map[]
  }

  /** `table[y]?.[c]?.[l]`. */
  function Lookup<V>(t: Table<V>, y: string, c: string, l: string): Option<V>
  {
    if y in t && c in t[y] && l in t[y][c] then Some(t[y][c][l]) else None
  }

  /** The modes `cs` of one year of a part merged in: `Object.assign` on each mode's league map. */
  function MergeModes<V>(into: map<string, map<string, V>>, from: map<string, map<string, V>>, cs: set<string>): map<string, map<string, V>>
    requires cs <= from.Keys
  {
    map c | c in into.Keys + cs :: if c in cs then Leagues(into, c) + from[c] else into[c]
  }

  /** The years `ys` of a part merged in. */
  function MergeYears<V>(into: Table<V>, from: Table<V>, ys: set<string>): Table<V>
    requires ys <= from.Keys
  {
    map y | y in into.Keys + ys :: if y in ys then MergeModes(Modes(into, y), from[y], from[y].Keys) else into[y]
  }

  /** One part merged into the table. */
  function MergePart<V>(into: Table<V>, from: Table<V>): Table<V>
  {
    MergeYears(into, from, from.Keys)
  }

  /** Parts merged in order. */
  function MergeAll<V>(into: Table<V>, parts: seq<Table<V>>): Table<V>
    decreases |parts|
  {
    if parts == [] then into else MergeAll(MergePart(into, parts[0]), parts[1..])
  }

  /**
   * A merge overlays at league depth: a league in the part replaces that
   * league's whole value; every other league keeps its value; years and
   * modes of either side are all kept.
   */
  lemma MergeLookup<V>(into: Table<V>, from: Table<V>, y: string, c: string, l: string)
    ensures Lookup(MergePart(into, from), y, c, l) ==
            if Lookup(from, y, c, l).Some? then Lookup(from, y, c, l) else Lookup(into, y, c, l)
    ensures y in MergePart(into, from) <==> y in into || y in from
    ensures y in MergePart(into, from) ==> (c in MergePart(into, from)[y] <==> c in Modes(into, y) || c in Modes(from, y))
  {
  }

  /** Two tables with the same years, the same modes per year and the same lookups are equal. */
  lemma SameTable<V>(a: Table<V>, b: Table<V>)
    requires a.Keys == b.Keys
    requires forall y :: y in a ==> a[y].Keys == b[y].Keys
    requires forall y, c, l :: Lookup(a, y, c, l) == Lookup(b, y, c, l)
    ensures a == b
  {
    forall y | y in a ensures a[y] == b[y] {
      forall c | c in a[y] ensures a[y][c] == b[y][c] {
        forall l ensures l in a[y][c] <==> l in b[y][c] {
          assert Lookup(a, y, c, l) == Lookup(b, y, c, l);
        }
        forall l | l in a[y][c] ensures a[y][c][l] == b[y][c][l] {
          assert Lookup(a, y, c, l) == Lookup(b, y, c, l);
        }
      }
    }
  }

  /** No (year, mode, league) key is in both parts. */
  ghost predicate LeagueDisjoint<V>(p: Table<V>, q: Table<V>)
  {
    forall y, c, l :: Lookup(p, y, c, l).Some? ==> Lookup(q, y, c, l).None?
  }

  lemma MergeTwo<V>(d: Table<V>, p: Table<V>, q: Table<V>)
    ensures MergeAll(d, [p, q]) == MergePart(MergePart(d, p), q)
  {
    assert [p, q][1..] == [q];
    assert MergeAll(d, [p, q]) == MergeAll(MergePart(d, p), [q]);
    assert [q][1..] == [];
    assert MergeAll(MergePart(d, p), [q]) == MergeAll(MergePart(MergePart(d, p), q), []);
  }

  /** Two merges, read back: the later part wins, then the earlier, then the table. */
  lemma MergeTwoLookup<V>(d: Table<V>, p: Table<V>, q: Table<V>, y: string, c: string, l: string)
    ensures var t := MergePart(MergePart(d, p), q);
            && Lookup(t, y, c, l) == (if Lookup(q, y, c, l).Some? then Lookup(q, y, c, l)
                                      else if Lookup(p, y, c, l).Some? then Lookup(p, y, c, l) else Lookup(d, y, c, l))
            && (y in t <==> y in d || y in p || y in q)
            && (y in t ==> (c in t[y] <==> c in Modes(d, y) || c in Modes(p, y) || c in Modes(q, y)))
  {
    MergeLookup(d, p, y, c, l);
    MergeLookup(MergePart(d, p), q, y, c, l);
  }

  /** Parts with no (year, mode, league) key in common can be merged in either order. */
  lemma MergeCommutes<V>(d: Table<V>, p: Table<V>, q: Table<V>)
    requires LeagueDisjoint(p, q)
    ensures MergeAll(d, [p, q]) == MergeAll(d, [q, p])
  {
    var pq := MergePart(MergePart(d, p), q);
    var qp := MergePart(MergePart(d, q), p);
    MergeTwo(d, p, q);
    MergeTwo(d, q, p);
    forall y, c, l ensures Lookup(pq, y, c, l) == Lookup(qp, y, c, l) {
      MergeTwoLookup(d, p, q, y, c, l);
      MergeTwoLookup(d, q, p, y, c, l);
    }
    forall y ensures y in pq <==> y in qp {
      MergeTwoLookup(d, p, q, y, "", "");
      MergeTwoLookup(d, q, p, y, "", "");
    }
    forall y | y in pq ensures pq[y].Keys == qp[y].Keys {
      forall c ensures c in pq[y] <==> c in qp[y] {
        MergeTwoLookup(d, p, q, y, c, "");
        MergeTwoLookup(d, q, p, y, c, "");
      }
    }
    SameTable(pq, qp);
  }

  /**
   * Because a league is replaced whole, two parts that split one league's
   * weeks between them do not commute: the later part's weeks win and the
   * earlier part's weeks of that league are lost.
   */
  lemma WeekSplitDoesNotCommute()
    ensures var a: Table<map<int, int>> := map["2025" := map["big_game" := map["L" := map[1 := 10]]]];
            var b: Table<map<int, int>> := map["2025" := map["big_game" := map["L" := map[2 := 20]]]];
            && Lookup(MergeAll(map[], [a, b]), "2025", "big_game", "L") == Some(map[2 := 20])
            && Lookup(MergeAll(map[], [b, a]), "2025", "big_game", "L") == Some(map[1 := 10])
  {
    var a: Table<map<int, int>> := map["2025" := map["big_game" := map["L" := map[1 := 10]]]];
    var b: Table<map<int, int>> := map["2025" := map["big_game" := map["L" := map[2 := 20]]]];
    MergeTwo(map[], a, b);
    MergeTwo(map[], b, a);
    MergeLookup(MergePart(map[], a), b, "2025", "big_game", "L");
    MergeLookup(MergePart(map[], b), a, "2025", "big_game", "L");
  }

  // ----------------------------------------------------------- probing

  /** The parts read from part `i` on: each readable reply up to the first that is not, or part 20. */
  function ReadFrom<V>(replies: nat -> PartReply<V>, i: nat): seq<Table<V>>
    decreases MaxParts + 1 - i
  {
    if i > MaxParts || !Readable(replies(i)) then [] else [replies(i).body.value] + ReadFrom(replies, i + 1)
  }

  /** How many requests the probe makes from part `i` on. */
  function RequestsFrom<V>(replies: nat -> PartReply<V>, i: nat): nat
    decreases MaxParts + 1 - i
  {
    if i > MaxParts then 0 else if !Readable(replies(i)) then 1 else 1 + RequestsFrom(replies, i + 1)
  }

  /** The table the page ends up with when nothing is cached. */
  function Loaded<V>(replies: nat -> PartReply<V>): Table<V>
  {
    MergeAll(map[], ReadFrom(replies, 1))
  }

  lemma {:induction false} ReadFromLength<V>(replies: nat -> PartReply<V>, i: nat)
    ensures |ReadFrom(replies, i)| <= if i > MaxParts then 0 else MaxParts + 1 - i
    ensures i + |ReadFrom(replies, i)| <= MaxParts ==> !Readable(replies(i + |ReadFrom(replies, i)|))
    ensures RequestsFrom(replies, i) == if i + |ReadFrom(replies, i)| <= MaxParts then |ReadFrom(replies, i)| + 1 else |ReadFrom(replies, i)|
    decreases MaxParts + 1 - i
  {
    if i <= MaxParts && Readable(replies(i)) {
      ReadFromLength(replies, i + 1);
    }
  }

  lemma {:induction false} ReadFromParts<V>(replies: nat -> PartReply<V>, i: nat)
    ensures forall k :: i <= k < i + |ReadFrom(replies, i)| ==>
              Readable(replies(k)) && ReadFrom(replies, i)[k - i] == replies(k).body.value
    decreases MaxParts + 1 - i
  {
    if i <= MaxParts && Readable(replies(i)) {
      ReadFromParts(replies, i + 1);
      var rest := ReadFrom(replies, i + 1);
      forall k | i < k < i + |ReadFrom(replies, i)|
        ensures Readable(replies(k)) && ReadFrom(replies, i)[k - i] == replies(k).body.value
      {
        assert ReadFrom(replies, i)[k - i] == rest[k - (i + 1)];
      }
    }
  }

  /** The probe reads parts 1, 2, ... in order, each one readable, at most 20 of them. */
  lemma ProbeOrder<V>(replies: nat -> PartReply<V>)
    ensures var parts := ReadFrom(replies, 1);
            && |parts| <= MaxParts
            && (forall k :: 1 <= k <= |parts| ==> Readable(replies(k)) && parts[k - 1] == replies(k).body.value)
  {
    ReadFromLength(replies, 1);
    ReadFromParts(replies, 1);
  }

  /**
   * The probe stops at the first reply that is a 404, not ok, not JSON or a
   * throw, and makes at most 20 requests: one per part read, plus the one
   * that stopped it when that came before part 20.
   */
  lemma ProbeStops<V>(replies: nat -> PartReply<V>)
    ensures var n := |ReadFrom(replies, 1)|;
            && (n < MaxParts ==> !Readable(replies(n + 1)))
            && 1 <= RequestsFrom(replies, 1) <= MaxParts
            && RequestsFrom(replies, 1) == if n < MaxParts then n + 1 else MaxParts
  {
    ReadFromLength(replies, 1);
  }

  /** `weeklyCache`: the merged table once it has been built. */
  class WeeklyCache<V> {
    var current: Option<Table<V>>

    /** `useRef(null)`. */
    constructor ()
      ensures current == None
    {
      current := None;
    }

    /**
     * `loadWeeklyData()`: the cached table when there is one, with no
     * request; otherwise the merge of the parts read, which is then cached.
     */
    method LoadWeeklyData(replies: nat -> PartReply<V>) returns (data: Table<V>, requests: nat)
      modifies this
      ensures old(current).Some? ==> data == old(current).value && current == old(current) && requests == 0
      ensures old(current).None? ==> data == Loaded(replies) && current == Some(data) && requests == RequestsFrom(replies, 1)
    {
      if current.Some? {
        return current.value, 0;
      }
      var combined: Table<V> := map[];
      requests := 0;
      var i := 1;
      while i <= MaxParts
        invariant 1 <= i <= MaxParts + 1
        invariant MergeAll(combined, ReadFrom(replies, i)) == Loaded(replies)
        invariant requests + RequestsFrom(replies, i) == RequestsFrom(replies, 1)
        decreases MaxParts + 1 - i
      {
        var reply := replies(i);
        requests := requests + 1;
        if reply.Threw? || reply.status == 404 || !(200 <= reply.status <= 299) || reply.body.None? {
          assert ReadFrom(replies, i) == [] && RequestsFrom(replies, i) == 1;
          break;
        }
        combined := MergeInto(combined, reply.body.value);
        i := i + 1;
      }
      current := Some(combined);
      data := combined;
    }
  }

  lemma MergeYearsNext<V>(into: Table<V>, from: Table<V>, ys: set<string>, y: string)
    requires ys <= from.Keys && y in from && y !in ys
    ensures Modes(MergeYears(into, from, ys), y) == Modes(into, y)
    ensures MergeYears(into, from, ys + {y}) == MergeYears(into, from, ys)[y := MergeModes(Modes(into, y), from[y], from[y].Keys)]
  {
    var a := MergeYears(into, from, ys + {y});
    var b := MergeYears(into, from, ys)[y := MergeModes(Modes(into, y), from[y], from[y].Keys)];
    assert a.Keys == b.Keys;
    forall k | k in a ensures a[k] == b[k] {
    }
  }

  lemma MergeModesNext<V>(into: map<string, map<string, V>>, from: map<string, map<string, V>>, cs: set<string>, c: string)
    requires cs <= from.Keys && c in from && c !in cs
    ensures Leagues(MergeModes(into, from, cs), c) == Leagues(into, c)
    ensures MergeModes(into, from, cs + {c}) == MergeModes(into, from, cs)[c := Leagues(into, c) + from[c]]
  {
    var a := MergeModes(into, from, cs + {c});
    var b := MergeModes(into, from, cs)[c := Leagues(into, c) + from[c]];
    assert a.Keys == b.Keys;
    forall k | k in a ensures a[k] == b[k] {
    }
  }

  lemma MergeYearsNone<V>(into: Table<V>, from: Table<V>)
    ensures MergeYears(into, from, {}) == into
  {
  }

  lemma MergeModesNone<V>(into: map<string, map<string, V>>, from: map<string, map<string, V>>)
    ensures MergeModes(into, from, {}) == into
  {
  }

  /** `for (const y in partData) { ... for (const c in partData[y]) Object.assign(...) }`. */
  method MergeInto<V>(combined: Table<V>, part: Table<V>) returns (r: Table<V>)
    ensures r == MergePart(combined, part)
  {
    r := combined;
    MergeYearsNone(combined, part);
    var done: set<string> := {};
    var todo := part.Keys;
    while todo != {}
      invariant done !! todo && done + todo == part.Keys
      invariant r == MergeYears(combined, part, done)
      decreases todo
    {
      var y :| y in todo;
      MergeYearsNext(combined, part, done, y);
      var modes := MergeModesInto(Modes(r, y), part[y]);
      r := r[y := modes];
      done, todo := done + {y}, todo - {y};
    }
    assert done == part.Keys;
  }

  /** One year: `if (!combinedData[y][c]) combinedData[y][c] = {}; Object.assign(combinedData[y][c], partData[y][c])`. */
  method MergeModesInto<V>(into: map<string, map<string, V>>, from: map<string, map<string, V>>) returns (r: map<string, map<string, V>>)
    ensures r == MergeModes(into, from, from.Keys)
  {
    r := into;
    MergeModesNone(into, from);
    var done: set<string> := {};
    var todo := from.Keys;
    while todo != {}
      invariant done !! todo && done + todo == from.Keys
      invariant r == MergeModes(into, from, done)
      decreases todo
    {
      var c :| c in todo;
      MergeModesNext(into, from, done, c);
      r := r[c := Leagues(r, c) + from[c]];
      done, todo := done + {c}, todo - {c};
    }
    assert done == from.Keys;
  }
}

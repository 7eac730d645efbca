/** `Array.prototype.sort` with a comparator, as an insertion sort, which is stable as the JavaScript sort is. */
module Sorting {

  /** `leq` orders every pair and is transitive: what a consistent comparator gives. */
  ghost predicate TotalPreorder<T(!new)>(leq: (T, T) -> bool)
  {
    && (forall a, b :: leq(a, b) || leq(b, a))
    && (forall a, b, c :: leq(a, b) && leq(b, c) ==> leq(a, c))
  }

  predicate SortedBy<T>(s: seq<T>, leq: (T, T) -> bool)
  {
    forall i, j :: 0 <= i < j < |s| ==> leq(s[i], s[j])
  }

  /** Puts `x` before the first element it is not after. */
  function Insert<T(!new)>(x: T, s: seq<T>, leq: (T, T) -> bool): (r: seq<T>)
    requires TotalPreorder(leq)
    requires SortedBy(s, leq)
    ensures SortedBy(r, leq)
    ensures multiset(r) == multiset(s) + multiset{x}
    ensures |r| == |s| + 1
  {
    if s == [] then [x]
    else if leq(x, s[0]) then [x] + s
    else
      var t := Insert(x, s[1..], leq);
      assert s == [s[0]] + s[1..];
      assert forall k :: 0 <= k < |t| ==> leq(s[0], t[k]) by {
        forall k | 0 <= k < |t| ensures leq(s[0], t[k]) {
          assert t[k] in multiset(t);
          assert t[k] in multiset(s[1..]) || t[k] == x;
        }
      }
      [s[0]] + t
  }

  /** The sorted permutation of `s`; elements the order ties keep their relative order. */
  function SortBy<T(!new)>(s: seq<T>, leq: (T, T) -> bool): (r: seq<T>)
    requires TotalPreorder(leq)
    ensures SortedBy(r, leq)
    ensures multiset(r) == multiset(s)
    ensures |r| == |s|
  {
    if s == [] then []
    else
      assert s == [s[0]] + s[1..];
      Insert(s[0], SortBy(s[1..], leq), leq)
  }

  /** The elements of `s` the order ties with `x`, in their order in `s`. */
  function Ties<T>(s: seq<T>, x: T, leq: (T, T) -> bool): seq<T>
  {
    if s == [] then [] else TieOf(s[0], x, leq) + Ties(s[1..], x, leq)
  }

  /** The part a single element contributes to `Ties`. */
  function TieOf<T>(a: T, x: T, leq: (T, T) -> bool): seq<T>
  {
    if leq(x, a) && leq(a, x) then [a] else []
  }

  lemma TiesCons<T>(a: T, s: seq<T>, x: T, leq: (T, T) -> bool)
    ensures Ties([a] + s, x, leq) == TieOf(a, x, leq) + Ties(s, x, leq)
  {
    assert ([a] + s)[1..] == s;
  }

  lemma TiesFront<T>(s: seq<T>, x: T, leq: (T, T) -> bool)
    requires s != []
    ensures Ties(s, x, leq) == TieOf(s[0], x, leq) + Ties(s[1..], x, leq)
  {
  }

  /** Two elements that are not ordered `a` before `b` cannot both tie with `x`. */
  lemma TiesExclusive<T(!new)>(a: T, b: T, x: T, leq: (T, T) -> bool)
    requires TotalPreorder(leq) && !leq(a, b)
    ensures TieOf(a, x, leq) == [] || TieOf(b, x, leq) == []
  {
  }

  /** `Insert` puts `y` in front of every element it ties with. */
  lemma {:induction false} InsertTies<T(!new)>(y: T, t: seq<T>, x: T, leq: (T, T) -> bool)
    requires TotalPreorder(leq)
    requires SortedBy(t, leq)
    ensures Ties(Insert(y, t, leq), x, leq) == TieOf(y, x, leq) + Ties(t, x, leq)
    decreases |t|
  {
    if t == [] {
      TiesCons(y, t, x, leq);
    } else if leq(y, t[0]) {
      TiesCons(y, t, x, leq);
    } else {
      assert SortedBy(t[1..], leq);
      InsertTies(y, t[1..], x, leq);
      TiesPast(y, t, Insert(y, t[1..], leq), x, leq);
    }
  }

  /** When `y` goes past `t[0]`, the ties still list `y` first. */
  lemma TiesPast<T(!new)>(y: T, t: seq<T>, rest: seq<T>, x: T, leq: (T, T) -> bool)
    requires TotalPreorder(leq) && t != [] && !leq(y, t[0])
    requires Ties(rest, x, leq) == TieOf(y, x, leq) + Ties(t[1..], x, leq)
    ensures Ties([t[0]] + rest, x, leq) == TieOf(y, x, leq) + Ties(t, x, leq)
  {
    TiesCons(t[0], rest, x, leq);
    assert t == [t[0]] + t[1..];
    TiesCons(t[0], t[1..], x, leq);
    TiesExclusive(y, t[0], x, leq);
  }

  /** The sort is stable: elements that tie keep their order in the input. */
  lemma {:induction false} SortByStable<T(!new)>(s: seq<T>, x: T, leq: (T, T) -> bool)
    requires TotalPreorder(leq)
    ensures Ties(SortBy(s, leq), x, leq) == Ties(s, x, leq)
    decreases |s|
  {
    if s != [] {
      var rest := SortBy(s[1..], leq);
      SortByStable(s[1..], x, leq);
      InsertTies(s[0], rest, x, leq);
      assert SortBy(s, leq) == Insert(s[0], rest, leq);
      TiesFront(s, x, leq);
    }
  }

  /** Sorting what is already sorted changes nothing. */
  lemma {:induction false} SortSorted<T(!new)>(s: seq<T>, leq: (T, T) -> bool)
    requires TotalPreorder(leq)
    requires SortedBy(s, leq)
    ensures SortBy(s, leq) == s
    decreases |s|
  {
    if s != [] {
      assert SortedBy(s[1..], leq);
      SortSorted(s[1..], leq);
      assert s == [s[0]] + s[1..];
    }
  }
}

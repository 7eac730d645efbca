/**
 * JavaScript collection idioms the leaderboard scripts rely on: a `Set` kept in
 * insertion order, an object filled by assignments (the last write wins),
 * and counting.
 */
module Collections {

  predicate Distinct<T(==)>(s: seq<T>)
  {
    forall i, j :: 0 <= i < j < |s| ==> s[i] != s[j]
  }

  /** `set.add(x)` on a `Set` seen as its insertion-ordered contents. */
  function SetAdd<T(==,!new)>(s: seq<T>, x: T): (r: seq<T>)
    ensures Distinct(s) ==> Distinct(r)
    ensures forall y :: y in r <==> y in s || y == x
    ensures x in s ==> r == s
    ensures x !in s ==> r == s + [x]
  {
    if x in s then s else s + [x]
  }

  /** `Array.from(new Set(s))`: the distinct elements in order of first occurrence. */
  function Dedup<T(==,!new)>(s: seq<T>): (r: seq<T>)
    ensures Distinct(r)
    ensures forall x :: x in r <==> x in s
    ensures |r| <= |s|
  {
    if s == [] then [] else SetAdd(Dedup(s[..|s| - 1]), s[|s| - 1])
  }

  /** The index of the first occurrence of `x` in `s`. */
  function FirstIndex<T(==)>(s: seq<T>, x: T): (i: nat)
    requires x in s
    ensures i < |s| && s[i] == x
    ensures forall k :: 0 <= k < i ==> s[k] != x
  {
    if s[0] == x then 0 else 1 + FirstIndex(s[1..], x)
  }

  /** Appending leaves the first occurrence of an element already present where it was. */
  lemma FirstIndexAppend<T>(p: seq<T>, y: T, x: T)
    requires x in p
    ensures FirstIndex(p + [y], x) == FirstIndex(p, x)
  {
    var i := FirstIndex(p, x);
    var q := p + [y];
    assert q[i] == x;
    assert forall k :: 0 <= k < i ==> q[k] != x by {
      forall k | 0 <= k < i ensures q[k] != x { assert q[k] == p[k]; }
    }
  }

  /** `Dedup` lists the elements in the order of their first occurrences in `s`. */
  lemma {:induction false} DedupFirstSeen<T(!new)>(s: seq<T>)
    ensures forall i, j :: 0 <= i < j < |Dedup(s)| ==> FirstIndex(s, Dedup(s)[i]) < FirstIndex(s, Dedup(s)[j])
    decreases |s|
  {
    if s != [] {
      var p, x := s[..|s| - 1], s[|s| - 1];
      assert s == p + [x];
      DedupFirstSeen(p);
      var d, r := Dedup(p), Dedup(s);
      forall e | e in d ensures FirstIndex(s, e) == FirstIndex(p, e) {
        FirstIndexAppend(p, x, e);
      }
      forall i, j | 0 <= i < j < |r| ensures FirstIndex(s, r[i]) < FirstIndex(s, r[j]) {
        assert r[i] in d;
        if j < |d| {
          assert r[j] == d[j] && r[i] == d[i];
        } else {
          assert x !in p && r[j] == x;
          assert FirstIndex(p, r[i]) < |p|;
        }
      }
    }
  }

  /** No pair after index `i` has the key of pair `i`. */
  predicate LastWithKey<K(==), V>(pairs: seq<(K, V)>, i: int)
    requires 0 <= i < |pairs|
  {
    forall j :: i < j < |pairs| ==> pairs[j].0 != pairs[i].0
  }

  /**
   * The object a sequence of assignments `obj[k] = v` leaves behind: every
   * key assigned is present and holds the value of its last assignment.
   */
  function LastWins<K(==,!new), V(!new)>(pairs: seq<(K, V)>): (m: map<K, V>)
    ensures m.Keys == set p | p in pairs :: p.0
    ensures forall i :: 0 <= i < |pairs| && LastWithKey(pairs, i) ==> m[pairs[i].0] == pairs[i].1
  {
    if pairs == [] then map[]
    else
      var init := pairs[..|pairs| - 1];
      var p := pairs[|pairs| - 1];
      var m := LastWins(init);
      LastWinsStep(pairs, m);
      m[p.0 := p.1]
  }

  lemma LastWinsStep<K(!new), V(!new)>(pairs: seq<(K, V)>, m: map<K, V>)
    requires pairs != []
    requires m.Keys == set p | p in pairs[..|pairs| - 1] :: p.0
    requires forall i :: 0 <= i < |pairs| - 1 && LastWithKey(pairs[..|pairs| - 1], i) ==> m[pairs[i].0] == pairs[i].1
    ensures var p := pairs[|pairs| - 1];
            && m[p.0 := p.1].Keys == (set q | q in pairs :: q.0)
            && forall i :: 0 <= i < |pairs| && LastWithKey(pairs, i) ==> m[p.0 := p.1][pairs[i].0] == pairs[i].1
  {
    var init := pairs[..|pairs| - 1];
    var p := pairs[|pairs| - 1];
    assert pairs == init + [p];
    var m' := m[p.0 := p.1];
    forall i | 0 <= i < |pairs| && LastWithKey(pairs, i) ensures m'[pairs[i].0] == pairs[i].1 {
      if i < |pairs| - 1 {
        assert pairs[|pairs| - 1].0 != pairs[i].0;
        assert LastWithKey(init, i);
      }
    }
  }

  /** How many elements of `s` satisfy `p` (`s.filter(p).length`). */
  function CountWhere<T>(s: seq<T>, p: T -> bool): nat
  {
    if s == [] then 0 else CountWhere(s[..|s| - 1], p) + (if p(s[|s| - 1]) then 1 else 0)
  }

  /** `s.filter(p)`. */
  function Filter<T(!new)>(s: seq<T>, p: T -> bool): (r: seq<T>)
    ensures |r| == CountWhere(s, p)
    ensures forall x :: x in r <==> x in s && p(x)
  {
    if s == [] then []
    else Filter(s[..|s| - 1], p) + (if p(s[|s| - 1]) then [s[|s| - 1]] else [])
  }

  lemma AppendDistinct<T>(a: seq<T>, b: seq<T>)
    requires Distinct(a) && Distinct(b)
    requires forall x :: x in a ==> x !in b
    ensures Distinct(a + b)
  {
    forall i, j | 0 <= i < j < |a + b| ensures (a + b)[i] != (a + b)[j] {
      if j < |a| {
        assert (a + b)[i] == a[i] && (a + b)[j] == a[j];
      } else if i < |a| {
        assert (a + b)[i] == a[i] && (a + b)[j] == b[j - |a|];
        assert a[i] in a;
      } else {
        assert (a + b)[i] == b[i - |a|] && (a + b)[j] == b[j - |a|];
      }
    }
  }

  lemma PrefixDistinct<T>(s: seq<T>, n: nat)
    requires Distinct(s) && n <= |s|
    ensures Distinct(s[..n])
  {
  }

  lemma PrefixIn<T>(s: seq<T>, n: nat, x: T)
    requires n <= |s| && x in s[..n]
    ensures x in s
  {
  }

  lemma FilterKeeps<T(!new)>(s: seq<T>, p: T -> bool, x: T)
    requires x in s && p(x)
    ensures x in Filter(s, p)
  {
  }

  lemma {:induction false} FilterDistinct<T(!new)>(s: seq<T>, p: T -> bool)
    requires Distinct(s)
    ensures Distinct(Filter(s, p))
    decreases |s|
  {
    if s != [] {
      var init := s[..|s| - 1];
      assert Distinct(init);
      FilterDistinct(init, p);
      assert s[|s| - 1] !in init;
    }
  }

  /** `s.map(f)`. */
  function Map<T, U>(s: seq<T>, f: T -> U): (r: seq<U>)
    ensures |r| == |s|
    ensures forall i :: 0 <= i < |s| ==> r[i] == f(s[i])
  {
    if s == [] then [] else Map(s[..|s| - 1], f) + [f(s[|s| - 1])]
  }

  /** How many times `x` occurs in `s`. */
  function Count<T(==)>(s: seq<T>, x: T): nat
  {
    if s == [] then 0 else Count(s[..|s| - 1], x) + (if s[|s| - 1] == x then 1 else 0)
  }

  lemma {:induction false} CountOfDistinct<T>(s: seq<T>, x: T)
    requires Distinct(s)
    ensures Count(s, x) == if x in s then 1 else 0
    decreases |s|
  {
    if s != [] {
      var init := s[..|s| - 1];
      CountOfDistinct(init, x);
      assert s == init + [s[|s| - 1]];
      if s[|s| - 1] == x {
        assert x !in init;
      }
    }
  }

  lemma CountWhereBound<T>(s: seq<T>, p: T -> bool)
    ensures CountWhere(s, p) <= |s|
  {
  }

  lemma MapAppend<T, U>(a: seq<T>, b: seq<T>, f: T -> U)
    ensures Map(a + b, f) == Map(a, f) + Map(b, f)
  {
  }

  function Sum(s: seq<int>): int
  {
    if s == [] then 0 else Sum(s[..|s| - 1]) + s[|s| - 1]
  }

  lemma {:induction false} SumAppend(a: seq<int>, b: seq<int>)
    ensures Sum(a + b) == Sum(a) + Sum(b)
    decreases |b|
  {
    if b == [] {
      assert a + b == a;
    } else {
      SumAppend(a, b[..|b| - 1]);
      assert (a + b)[..|a + b| - 1] == a + b[..|b| - 1];
    }
  }

  /** Keys listed at most once, as the entries of an object are. */
  predicate DistinctKeys<K(==), X>(pairs: seq<(K, X)>)
  {
    forall i, j :: 0 <= i < j < |pairs| ==> pairs[i].0 != pairs[j].0
  }

  /** After `result[k] = f(x)` for the first `n` pairs `(k, x)`: exactly their keys, each holding its value. */
  ghost predicate AssignedUpTo<K(!new), X, V>(pairs: seq<(K, X)>, n: int, result: map<K, V>, f: X -> V)
    requires 0 <= n <= |pairs|
  {
    && (forall k :: k in result <==> exists j :: 0 <= j < n && pairs[j].0 == k)
    && (forall j :: 0 <= j < n ==> pairs[j].0 in result && result[pairs[j].0] == f(pairs[j].1))
  }

  lemma AssignNext<K(!new), X, V>(pairs: seq<(K, X)>, n: int, result: map<K, V>, f: X -> V)
    requires DistinctKeys(pairs) && 0 <= n < |pairs| && AssignedUpTo(pairs, n, result, f)
    ensures AssignedUpTo(pairs, n + 1, result[pairs[n].0 := f(pairs[n].1)], f)
  {
  }
}

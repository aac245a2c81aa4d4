/** Order-preserving filtering, slicing and a stable sort by an integer key:
  * the list comprehensions, `[:n]` slices, SQL `ORDER BY` and Python
  * `list.sort` the service applies to query results. */
module Collections {

  // ------------------------------------------------------------------ filter

  /** `[x for x in s if p(x)]`. */
  function Filter<T>(s: seq<T>, p: T -> bool): (r: seq<T>)
    ensures |r| <= |s|
    ensures forall x :: x in r ==> x in s && p(x)
    ensures forall x :: x in s && p(x) ==> x in r
  {
    if s == [] then []
    else if p(s[0]) then [s[0]] + Filter(s[1..], p)
    else Filter(s[1..], p)
  }

  lemma {:induction false} FilterConcat<T>(a: seq<T>, b: seq<T>, p: T -> bool)
    ensures Filter(a + b, p) == Filter(a, p) + Filter(b, p)
  {
    if a != [] {
      assert (a + b)[1..] == a[1..] + b;
      FilterConcat(a[1..], b, p);
    } else {
      assert a + b == b;
    }
  }

  /** Extending the input by one element extends the filtered prefix by that
    * element exactly when it passes. */
  lemma FilterSnoc<T>(s: seq<T>, i: nat, p: T -> bool)
    requires i < |s|
    ensures Filter(s[..i + 1], p) == Filter(s[..i], p) + (if p(s[i]) then [s[i]] else [])
  {
    assert s[..i + 1] == s[..i] + [s[i]];
    FilterConcat(s[..i], [s[i]], p);
  }

  /** The same for the images of the elements that pass. */
  lemma FilterMapSnoc<T, U>(s: seq<T>, i: nat, p: T -> bool, f: T -> U)
    requires i < |s|
    ensures Map(Filter(s[..i + 1], p), f) == Map(Filter(s[..i], p), f) + (if p(s[i]) then [f(s[i])] else [])
  {
    FilterSnoc(s, i, p);
    MapConcat(Filter(s[..i], p), if p(s[i]) then [s[i]] else [], f);
  }

  /** Filtering twice is filtering once by both conditions. */
  lemma {:induction false} FilterTwice<T>(s: seq<T>, p: T -> bool, q: T -> bool, pq: T -> bool)
    requires forall x :: x in s ==> pq(x) == (p(x) && q(x))
    ensures Filter(Filter(s, p), q) == Filter(s, pq)
  {
    if s != [] {
      FilterTwice(s[1..], p, q, pq);
    }
  }

  /** Two conditions that agree on every element select the same elements. */
  lemma {:induction false} FilterSame<T>(s: seq<T>, p: T -> bool, q: T -> bool)
    requires forall x :: x in s ==> p(x) == q(x)
    ensures Filter(s, p) == Filter(s, q)
  {
    if s != [] {
      FilterSame(s[1..], p, q);
    }
  }

  /** Every element goes to exactly one side of a split by a condition. */
  lemma {:induction false} FilterSplit<T>(s: seq<T>, p: T -> bool, notP: T -> bool)
    requires forall x :: x in s ==> notP(x) == !p(x)
    ensures |Filter(s, p)| + |Filter(s, notP)| == |s|
    ensures multiset(Filter(s, p)) + multiset(Filter(s, notP)) == multiset(s)
  {
    if s != [] {
      FilterSplit(s[1..], p, notP);
      assert s == [s[0]] + s[1..];
    }
  }

  /** A condition that holds nowhere selects nothing. */
  lemma {:induction false} FilterNone<T>(s: seq<T>, p: T -> bool)
    requires forall x :: x in s ==> !p(x)
    ensures Filter(s, p) == []
  {
    if s != [] {
      FilterNone(s[1..], p);
    }
  }

  /** A condition that holds everywhere selects everything. */
  lemma {:induction false} FilterAll<T>(s: seq<T>, p: T -> bool)
    requires forall x :: x in s ==> p(x)
    ensures Filter(s, p) == s
  {
    if s != [] {
      FilterAll(s[1..], p);
    }
  }

  /** Every two elements, taken in order, are related by `rel`. */
  predicate Pairwise<T>(s: seq<T>, rel: (T, T) -> bool) {
    forall i, j :: 0 <= i < j < |s| ==> rel(s[i], s[j])
  }

  /** Filtering keeps a relation that held between every earlier and later
    * element (ids increasing, keys distinct, ...). */
  lemma {:induction false} FilterPairwise<T>(s: seq<T>, p: T -> bool, rel: (T, T) -> bool)
    requires Pairwise(s, rel)
    ensures Pairwise(Filter(s, p), rel)
  {
    if s != [] {
      var tail := s[1..];
      assert Pairwise(tail, rel) by {
        forall i, j | 0 <= i < j < |tail| ensures rel(tail[i], tail[j]) {
          assert tail[i] == s[i + 1] && tail[j] == s[j + 1];
        }
      }
      FilterPairwise(tail, p, rel);
      var rest := Filter(tail, p);
      if p(s[0]) {
        forall j | 0 <= j < |rest| ensures rel(s[0], rest[j]) {
          assert rest[j] in tail;
          var t :| 0 <= t < |tail| && tail[t] == rest[j];
          assert s[t + 1] == rest[j];
        }
        var r := [s[0]] + rest;
        forall i, j | 0 <= i < j < |r| ensures rel(r[i], r[j]) {
          if i == 0 {
            assert r[j] == rest[j - 1];
          } else {
            assert r[i] == rest[i - 1] && r[j] == rest[j - 1];
          }
        }
      }
    }
  }

  /** `[f(x) for x in s]`. */
  function Map<T, U>(s: seq<T>, f: T -> U): (r: seq<U>)
    ensures |r| == |s|
    ensures forall i :: 0 <= i < |s| ==> r[i] == f(s[i])
  {
    if s == [] then [] else [f(s[0])] + Map(s[1..], f)
  }

  lemma {:induction false} MapConcat<T, U>(a: seq<T>, b: seq<T>, f: T -> U)
    ensures Map(a + b, f) == Map(a, f) + Map(b, f)
  {
    var l := Map(a, f) + Map(b, f);
    assert forall i :: 0 <= i < |a + b| ==> Map(a + b, f)[i] == l[i] by {
      forall i | 0 <= i < |a + b| ensures Map(a + b, f)[i] == l[i] {
        if i < |a| { assert (a + b)[i] == a[i]; } else { assert (a + b)[i] == b[i - |a|]; }
      }
    }
  }

  // ------------------------------------------------------------------ slices

  /** `s[:n]`. */
  function Take<T>(s: seq<T>, n: nat): (r: seq<T>)
    ensures |r| == if n < |s| then n else |s|
    ensures r == s[..|r|]
  {
    if n < |s| then s[..n] else s
  }

  /** SQL `OFFSET skip LIMIT limit`, or `s[skip:skip + limit]`. */
  function Window<T>(s: seq<T>, skip: nat, limit: nat): (r: seq<T>)
    ensures |r| <= limit
    ensures skip >= |s| ==> r == []
    ensures skip < |s| ==> r == Take(s[skip..], limit)
  {
    if skip >= |s| then [] else Take(s[skip..], limit)
  }

  // ------------------------------------------------------------ stable sort

  /** `a` may stand before `b` in the requested direction. */
  predicate InOrder(a: int, b: int, descending: bool) {
    if descending then a >= b else a <= b
  }

  predicate SortedBy<T>(s: seq<T>, key: T -> int, descending: bool) {
    forall i, j :: 0 <= i < j < |s| ==> InOrder(key(s[i]), key(s[j]), descending)
  }

  /** Inserts `x` after every element that may stand before it, so elements
    * with equal keys keep their order. */
  function Insert<T>(s: seq<T>, x: T, key: T -> int, descending: bool): (r: seq<T>)
    ensures |r| == |s| + 1
    ensures multiset(r) == multiset(s) + multiset{x}
  {
    if s == [] then [x]
    else if InOrder(key(s[0]), key(x), descending) then
      assert s == [s[0]] + s[1..];
      [s[0]] + Insert(s[1..], x, key, descending)
    else [x] + s
  }

  /** Python's `sorted(s, key=key, reverse=descending)`: stable insertion
    * sort, the later of two equal elements going last. */
  function SortBy<T>(s: seq<T>, key: T -> int, descending: bool): (r: seq<T>)
    ensures |r| == |s|
  {
    if s == [] then [] else Insert(SortBy(s[..|s| - 1], key, descending), s[|s| - 1], key, descending)
  }

  lemma {:induction false} InsertSorted<T>(s: seq<T>, x: T, key: T -> int, descending: bool)
    requires SortedBy(s, key, descending)
    ensures SortedBy(Insert(s, x, key, descending), key, descending)
  {
    if s != [] && InOrder(key(s[0]), key(x), descending) {
      InsertSorted(s[1..], x, key, descending);
      var rest := Insert(s[1..], x, key, descending);
      forall j | 0 <= j < |rest| ensures InOrder(key(s[0]), key(rest[j]), descending) {
        assert rest[j] in multiset(rest);
        assert rest[j] in multiset(s[1..]) || rest[j] == x;
      }
    }
  }

  /** The sort returns its input reordered, in key order. */
  lemma SortByCorrect<T>(s: seq<T>, key: T -> int, descending: bool)
    ensures SortedBy(SortBy(s, key, descending), key, descending)
    ensures multiset(SortBy(s, key, descending)) == multiset(s)
  {
    SortBySorted(s, key, descending);
    SortByPermutes(s, key, descending);
  }

  lemma {:induction false} SortBySorted<T>(s: seq<T>, key: T -> int, descending: bool)
    ensures SortedBy(SortBy(s, key, descending), key, descending)
  {
    if s != [] {
      var init := s[..|s| - 1];
      SortBySorted(init, key, descending);
      InsertSorted(SortBy(init, key, descending), s[|s| - 1], key, descending);
    }
  }

  lemma {:induction false} SortByPermutes<T>(s: seq<T>, key: T -> int, descending: bool)
    ensures multiset(SortBy(s, key, descending)) == multiset(s)
  {
    if s != [] {
      var init := s[..|s| - 1];
      SortByPermutes(init, key, descending);
      assert s == init + [s[|s| - 1]];
    }
  }

  /** Sorting keeps exactly the elements it was given. */
  lemma SortByMembers<T>(s: seq<T>, key: T -> int, descending: bool)
    ensures forall x :: x in SortBy(s, key, descending) <==> x in s
  {
    SortByCorrect(s, key, descending);
    forall x ensures x in SortBy(s, key, descending) <==> x in s {
      assert x in SortBy(s, key, descending) <==> x in multiset(SortBy(s, key, descending));
      assert x in s <==> x in multiset(s);
    }
  }

  /** Taking a prefix or window of a sorted list keeps it sorted. */
  lemma WindowSorted<T>(s: seq<T>, skip: nat, limit: nat, key: T -> int, descending: bool)
    requires SortedBy(s, key, descending)
    ensures SortedBy(Window(s, skip, limit), key, descending)
  {
    var w := Window(s, skip, limit);
    if skip < |s| {
      forall i, j | 0 <= i < j < |w| ensures InOrder(key(w[i]), key(w[j]), descending) {
        assert w[i] == s[skip + i] && w[j] == s[skip + j];
      }
    }
  }

  /** A window of the sorted list is sorted and holds only elements of the
    * original list. */
  lemma SortedWindow<T>(s: seq<T>, skip: nat, limit: nat, key: T -> int, descending: bool)
    ensures SortedBy(Window(SortBy(s, key, descending), skip, limit), key, descending)
    ensures forall x :: x in Window(SortBy(s, key, descending), skip, limit) ==> x in s
  {
    var ordered := SortBy(s, key, descending);
    SortByCorrect(s, key, descending);
    SortByMembers(s, key, descending);
    WindowSorted(ordered, skip, limit, key, descending);
    var w := Window(ordered, skip, limit);
    forall x | x in w ensures x in s {
      var i :| 0 <= i < |w| && w[i] == x;
      assert w[i] == ordered[skip + i];
    }
  }

  /** One optional stage of a conjunctive query: filtering by `q` when the
    * stage applies, and not at all otherwise, gives the filter by the
    * combined condition. */
  lemma FilterStage<T>(s: seq<T>, p: T -> bool, applies: bool, q: T -> bool, pq: T -> bool)
    requires forall x :: x in s ==> pq(x) == (p(x) && (applies ==> q(x)))
    ensures (if applies then Filter(Filter(s, p), q) else Filter(s, p)) == Filter(s, pq)
  {
    if applies {
      FilterTwice(s, p, q, pq);
    } else {
      FilterSame(s, p, pq);
    }
  }

  /** Filtering out exactly one position shortens the list by one. */
  lemma {:induction false} FilterDropOne<T>(s: seq<T>, k: nat, p: T -> bool)
    requires k < |s| && !p(s[k])
    requires forall i :: 0 <= i < |s| && i != k ==> p(s[i])
    ensures |Filter(s, p)| == |s| - 1
  {
    if k == 0 {
      forall x | x in s[1..] ensures p(x) {
        var i :| 0 <= i < |s[1..]| && s[1..][i] == x;
        assert s[i + 1] == x;
      }
      FilterAll(s[1..], p);
    } else {
      assert p(s[0]);
      FilterDropOne(s[1..], k - 1, p);
    }
  }
}

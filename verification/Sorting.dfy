// A stable sort on an integer key, standing for the library sorts the program
// calls (`sort.SliceStable`, `sorted`).

module Sorting {
  function Insert<T>(x: T, xs: seq<T>, key: T -> int): seq<T> {
    if xs == [] || key(x) <= key(xs[0]) then [x] + xs else [xs[0]] + Insert(x, xs[1..], key)
  }

  function Sort<T>(xs: seq<T>, key: T -> int): seq<T> {
    if xs == [] then [] else Insert(xs[0], Sort(xs[1..], key), key)
  }

  ghost predicate Sorted<T>(xs: seq<T>, key: T -> int) {
    forall i, j :: 0 <= i < j < |xs| ==> key(xs[i]) <= key(xs[j])
  }

  lemma {:induction false} InsertPermutes<T>(x: T, xs: seq<T>, key: T -> int)
    ensures multiset(Insert(x, xs, key)) == multiset([x]) + multiset(xs)
  {
    if xs != [] && key(x) > key(xs[0]) {
      InsertPermutes(x, xs[1..], key);
      assert xs == [xs[0]] + xs[1..];
    }
  }

  lemma {:induction false} InsertSorts<T>(x: T, xs: seq<T>, key: T -> int)
    requires Sorted(xs, key)
    ensures Sorted(Insert(x, xs, key), key)
  {
    if xs != [] && key(x) > key(xs[0]) {
      var rest := xs[1..];
      InsertSorts(x, rest, key);
      InsertPermutes(x, rest, key);
      var r := Insert(x, rest, key);
      forall j | 0 <= j < |r|
        ensures key(xs[0]) <= key(r[j])
      {
        assert r[j] in multiset(r);
        assert r[j] in multiset([x]) + multiset(rest);
        assert r[j] == x || r[j] in rest;
      }
    }
  }

  lemma {:induction false} SortSorts<T>(xs: seq<T>, key: T -> int)
    ensures Sorted(Sort(xs, key), key)
    ensures multiset(Sort(xs, key)) == multiset(xs)
    ensures |Sort(xs, key)| == |xs|
  {
    hide Insert;
    if xs != [] {
      var tail := Sort(xs[1..], key);
      SortSorts(xs[1..], key);
      hide Sorted;
      InsertSorts(xs[0], tail, key);
      InsertPermutes(xs[0], tail, key);
      assert xs == [xs[0]] + xs[1..];
      SameSize(Sort(xs, key), xs);
    }
  }

  lemma SameSize<T>(a: seq<T>, b: seq<T>)
    requires multiset(a) == multiset(b)
    ensures |a| == |b|
  {
    assert |multiset(a)| == |a| && |multiset(b)| == |b|;
  }

  lemma {:induction false} SortOfSorted<T>(xs: seq<T>, key: T -> int)
    requires Sorted(xs, key)
    ensures Sort(xs, key) == xs
  {
    if xs != [] {
      SortOfSorted(xs[1..], key);
      assert xs == [xs[0]] + xs[1..];
    }
  }

  /** Elements with one key keep their order: the sort is stable. */
  function WithKey<T>(xs: seq<T>, key: T -> int, k: int): seq<T> {
    if xs == [] then []
    else (if key(xs[0]) == k then [xs[0]] else []) + WithKey(xs[1..], key, k)
  }

  lemma WithKeyCons<T>(x: T, xs: seq<T>, key: T -> int, k: int)
    ensures WithKey([x] + xs, key, k) == (if key(x) == k then [x] else []) + WithKey(xs, key, k)
  {
    assert ([x] + xs)[1..] == xs;
  }

  lemma InsertStep<T>(x: T, y: T, xs: seq<T>, key: T -> int)
    ensures Insert(x, [y] + xs, key) == if key(x) <= key(y) then [x] + ([y] + xs) else [y] + Insert(x, xs, key)
  {
    assert ([y] + xs)[1..] == xs;
  }

  lemma InsertNone<T>(x: T, key: T -> int)
    ensures Insert(x, [], key) == [x]
  {}

  lemma {:induction false} InsertStable<T>(x: T, xs: seq<T>, key: T -> int, k: int)
    requires Sorted(xs, key)
    ensures WithKey(Insert(x, xs, key), key, k) == (if key(x) == k then [x] else []) + WithKey(xs, key, k)
  {
    hide Insert, WithKey;
    if xs == [] {
      InsertNone(x, key);
      assert [x] + [] == [x];
      WithKeyCons(x, [], key, k);
    } else {
      var y, rest := xs[0], xs[1..];
      assert xs == [y] + rest;
      InsertStep(x, y, rest, key);
      if key(x) <= key(y) {
        WithKeyCons(x, xs, key, k);
      } else {
        InsertStable(x, rest, key, k);
        WithKeyCons(y, rest, key, k);
        WithKeyCons(y, Insert(x, rest, key), key, k);
      }
    }
  }

  lemma {:induction false} SortStable<T>(xs: seq<T>, key: T -> int, k: int)
    ensures WithKey(Sort(xs, key), key, k) == WithKey(xs, key, k)
  {
    if xs != [] {
      SortStable(xs[1..], key, k);
      SortSorts(xs[1..], key);
      InsertStable(xs[0], Sort(xs[1..], key), key, k);
    }
  }

  function Keys<T>(xs: seq<T>, key: T -> int): seq<int> { seq(|xs|, i requires 0 <= i < |xs| => key(xs[i])) }

  lemma SortMembers<T>(xs: seq<T>, key: T -> int)
    ensures forall x :: x in Sort(xs, key) <==> x in xs
  {
    hide Sort;
    SortSorts(xs, key);
    forall x
      ensures x in Sort(xs, key) <==> x in xs
    {
      assert x in Sort(xs, key) <==> x in multiset(Sort(xs, key));
      assert x in xs <==> x in multiset(xs);
    }
  }
}

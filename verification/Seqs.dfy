// Filtering sequences.

module Seqs {
  function Filter<T>(xs: seq<T>, p: T -> bool): (r: seq<T>)
    ensures |r| <= |xs|
  {
    if xs == [] then []
    else
      var last := xs[|xs| - 1];
      Filter(xs[..|xs| - 1], p) + (if p(last) then [last] else [])
  }

  lemma FilterSnoc<T>(xs: seq<T>, x: T, p: T -> bool)
    ensures Filter(xs + [x], p) == Filter(xs, p) + (if p(x) then [x] else [])
  {
    assert (xs + [x])[..|xs|] == xs;
  }

  lemma {:induction false} FilterAppend<T>(xs: seq<T>, ys: seq<T>, p: T -> bool)
    ensures Filter(xs + ys, p) == Filter(xs, p) + Filter(ys, p)
    decreases |ys|
  {
    if ys == [] {
      assert xs + ys == xs;
    } else {
      var init, last := ys[..|ys| - 1], ys[|ys| - 1];
      FilterAppend(xs, init, p);
      FilterSnoc(init, last, p);
      FilterSnoc(xs + init, last, p);
      assert ys == init + [last] && xs + ys == xs + init + [last];
    }
  }

  lemma NothingFiltered<T>(p: T -> bool)
    ensures Filter([], p) == []
  {}

  lemma {:induction false} FilterMembers<T>(xs: seq<T>, p: T -> bool)
    ensures forall x :: x in Filter(xs, p) <==> x in xs && p(x)
  {
    if xs != [] {
      var init, last := xs[..|xs| - 1], xs[|xs| - 1];
      FilterMembers(init, p);
      assert xs == init + [last];
    }
  }

  lemma {:induction false} FilterAll<T>(xs: seq<T>, p: T -> bool)
    requires forall x :: x in xs ==> p(x)
    ensures Filter(xs, p) == xs
  {
    if xs != [] {
      var init, last := xs[..|xs| - 1], xs[|xs| - 1];
      FilterAll(init, p);
      assert xs == init + [last];
    }
  }

  lemma {:induction false} FilterNone<T>(xs: seq<T>, p: T -> bool)
    requires forall x :: x in xs ==> !p(x)
    ensures Filter(xs, p) == []
  {
    if xs != [] {
      FilterNone(xs[..|xs| - 1], p);
    }
  }

  /** Where the element at `k` lands in the filtered sequence. */
  lemma FilterAt<T>(xs: seq<T>, k: nat, p: T -> bool)
    requires k < |xs| && p(xs[k])
    ensures |Filter(xs[..k], p)| < |Filter(xs, p)|
    ensures Filter(xs, p)[|Filter(xs[..k], p)|] == xs[k]
  {
    hide Filter;
    FilterSnoc(xs[..k], xs[k], p);
    assert xs[..k + 1] == xs[..k] + [xs[k]];
    FilterAppend(xs[..k + 1], xs[k + 1..], p);
    assert xs == xs[..k + 1] + xs[k + 1..];
  }

  lemma FilterOrder<T>(xs: seq<T>, j: nat, k: nat, p: T -> bool)
    requires j < k < |xs| && p(xs[j])
    ensures |Filter(xs[..j], p)| < |Filter(xs[..k], p)|
  {
    hide Filter;
    FilterAt(xs[..k], j, p);
    assert xs[..k][..j] == xs[..j];
  }

  lemma Assoc<T>(x: seq<T>, y: seq<T>, z: seq<T>)
    ensures x + (y + z) == (x + y) + z
  {}

  lemma Regroup<T>(a: T, b: T, x: seq<T>, y: seq<T>)
    ensures [a] + ([b] + (x + y)) == ([a, b] + x) + y
  {}
}

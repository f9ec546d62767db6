/**
 * The stable sort every ordering in the system relies on (Python's `sorted`, SQL's `ORDER BY`).
 * When the order is antisymmetric on the elements at hand, the result depends only on which
 * elements are present, never on the order they arrived in.
 */
module Sorting {
  import opened Prelude

  ghost predicate Ordering<T(!new)>(le: (T, T) -> bool) {
    && (forall a, b :: le(a, b) || le(b, a))
    && (forall a, b, c :: le(a, b) && le(b, c) ==> le(a, c))
  }

  ghost predicate SortedBy<T>(xs: seq<T>, le: (T, T) -> bool) {
    forall i, j :: 0 <= i < j < |xs| ==> le(xs[i], xs[j])
  }

  function Insert<T>(x: T, ys: seq<T>, le: (T, T) -> bool): (zs: seq<T>)
    ensures |zs| == |ys| + 1
  {
    if ys == [] || le(x, ys[0]) then [x] + ys else [ys[0]] + Insert(x, ys[1..], le)
  }

  function Sort<T>(xs: seq<T>, le: (T, T) -> bool): (zs: seq<T>)
    ensures |zs| == |xs|
  {
    if xs == [] then [] else Insert(xs[0], Sort(xs[1..], le), le)
  }

  lemma {:induction false} InsertPermutes<T>(x: T, ys: seq<T>, le: (T, T) -> bool)
    ensures multiset(Insert(x, ys, le)) == multiset(ys) + multiset{x}
  {
    if ys == [] || le(x, ys[0]) {
    } else {
      InsertPermutes(x, ys[1..], le);
      assert ys == [ys[0]] + ys[1..];
    }
  }

  lemma {:induction false} SortPermutes<T>(xs: seq<T>, le: (T, T) -> bool)
    ensures multiset(Sort(xs, le)) == multiset(xs)
  {
    if xs != [] {
      SortPermutes(xs[1..], le);
      InsertPermutes(xs[0], Sort(xs[1..], le), le);
      assert xs == [xs[0]] + xs[1..];
    }
  }

  lemma {:induction false} InsertSorted<T(!new)>(x: T, ys: seq<T>, le: (T, T) -> bool)
    requires Ordering(le) && SortedBy(ys, le)
    ensures SortedBy(Insert(x, ys, le), le)
  {
    if ys == [] || le(x, ys[0]) {
      assert forall j :: 0 <= j < |ys| ==> le(x, ys[j]);
    } else {
      InsertSorted(x, ys[1..], le);
      var rest := Insert(x, ys[1..], le);
      InsertPermutes(x, ys[1..], le);
      forall j | 0 <= j < |rest| ensures le(ys[0], rest[j]) {
        assert rest[j] in multiset(rest);
        assert rest[j] == x || rest[j] in ys[1..];
      }
    }
  }

  lemma {:induction false} SortSorts<T(!new)>(xs: seq<T>, le: (T, T) -> bool)
    requires Ordering(le)
    ensures SortedBy(Sort(xs, le), le)
  {
    if xs != [] {
      SortSorts(xs[1..], le);
      InsertSorted(xs[0], Sort(xs[1..], le), le);
    }
  }

  lemma {:induction false} FilterSorted<T(!new)>(xs: seq<T>, p: T -> bool, le: (T, T) -> bool)
    requires SortedBy(xs, le)
    ensures SortedBy(Filter(xs, p), le)
  {
    if xs != [] {
      var front, last := xs[..|xs| - 1], xs[|xs| - 1];
      FilterSorted(front, p, le);
      FilterMembers(front, p);
      forall x | x in Filter(front, p) ensures le(x, last) {
        assert x in front;
        var i :| 0 <= i < |front| && front[i] == x;
        assert le(xs[i], xs[|xs| - 1]);
      }
    }
  }

  lemma {:induction false} SortMembers<T>(xs: seq<T>, le: (T, T) -> bool)
    ensures forall x :: x in Sort(xs, le) <==> x in xs
  {
    SortPermutes(xs, le);
    forall x ensures x in Sort(xs, le) <==> x in xs {
      assert x in multiset(Sort(xs, le)) <==> x in multiset(xs);
    }
  }

  /** Sequences without repetition are those whose multiset counts nothing twice. */
  lemma {:induction false} DistinctMultiset<T>(xs: seq<T>)
    ensures Distinct(xs) <==> forall x :: x in multiset(xs) ==> multiset(xs)[x] == 1
  {
    if xs != [] {
      var front, last := xs[..|xs| - 1], xs[|xs| - 1];
      assert xs == front + [last];
      DistinctMultiset(front);
      if Distinct(xs) {
        assert Distinct(front);
        assert last !in front;
        assert last !in multiset(front);
      } else if Distinct(front) {
        assert last in front;
        assert last in multiset(front);
        assert multiset(xs)[last] == 2;
      } else {
        var x :| x in multiset(front) && multiset(front)[x] != 1;
        assert multiset(xs)[x] >= multiset(front)[x] > 1;
      }
    }
  }

  lemma SortDistinct<T>(xs: seq<T>, le: (T, T) -> bool)
    requires Distinct(xs)
    ensures Distinct(Sort(xs, le))
  {
    SortPermutes(xs, le);
    DistinctMultiset(xs);
    DistinctMultiset(Sort(xs, le));
  }

  /** Under an order that separates two elements it does not matter which is inserted first. */
  lemma {:induction false} InsertsCommute<T(!new)>(x: T, y: T, zs: seq<T>, le: (T, T) -> bool)
    requires Ordering(le) && (le(x, y) && le(y, x) ==> x == y)
    ensures Insert(x, Insert(y, zs, le), le) == Insert(y, Insert(x, zs, le), le)
  {
    assert le(x, y) || le(y, x);
    if zs != [] && !le(x, zs[0]) && !le(y, zs[0]) {
      InsertsCommute(x, y, zs[1..], le);
    }
  }

  ghost predicate Separates<T>(le: (T, T) -> bool, xs: seq<T>) {
    forall i, j :: 0 <= i < |xs| && 0 <= j < |xs| && le(xs[i], xs[j]) && le(xs[j], xs[i]) ==> xs[i] == xs[j]
  }

  /** An element may as well have arrived first. */
  lemma {:induction false} SortMovesFront<T(!new)>(xs: seq<T>, k: nat, le: (T, T) -> bool)
    requires Ordering(le) && Separates(le, xs) && k < |xs|
    ensures Sort(xs, le) == Insert(xs[k], Sort(xs[..k] + xs[k + 1..], le), le)
  {
    if k == 0 {
      assert xs[..0] + xs[1..] == xs[1..];
    } else {
      var tail := xs[1..];
      assert Separates(le, tail) by {
        assert forall i :: 0 <= i < |tail| ==> tail[i] == xs[i + 1];
      }
      SortMovesFront(tail, k - 1, le);
      assert tail[..k - 1] + tail[k..] == (xs[..k] + xs[k + 1..])[1..];
      assert xs[0] == (xs[..k] + xs[k + 1..])[0];
      InsertsCommute(xs[0], xs[k], Sort(tail[..k - 1] + tail[k..], le), le);
    }
  }

  function Without<T>(xs: seq<T>, k: nat): seq<T>
    requires k < |xs|
  {
    xs[..k] + xs[k + 1..]
  }

  lemma RestSeparates<T>(xs: seq<T>, k: nat, le: (T, T) -> bool)
    requires Separates(le, xs) && k < |xs|
    ensures Separates(le, Without(xs, k))
  {
    var rest := Without(xs, k);
    assert forall i :: 0 <= i < |rest| ==> rest[i] == xs[if i < k then i else i + 1];
  }

  lemma RestMultiset<T>(xs: seq<T>, k: nat)
    requires k < |xs|
    ensures multiset(Without(xs, k)) == multiset(xs) - multiset{xs[k]}
  {
    assert xs == xs[..k] + [xs[k]] + xs[k + 1..];
  }

  /** Arrival order does not matter to a sort by an order that separates the elements. */
  lemma {:induction false} SortIgnoresArrival<T(!new)>(xs: seq<T>, ys: seq<T>, le: (T, T) -> bool)
    requires Ordering(le) && multiset(xs) == multiset(ys) && Separates(le, xs) && Separates(le, ys)
    ensures Sort(xs, le) == Sort(ys, le)
    decreases |xs|
  {
    assert |xs| == |multiset(xs)| == |multiset(ys)| == |ys|;
    if xs != [] {
      var k := SameElement(xs, ys, 0);
      RestMultiset(xs, 0);
      RestMultiset(ys, k);
      RestSeparates(xs, 0, le);
      RestSeparates(ys, k, le);
      SortIgnoresArrival(Without(xs, 0), Without(ys, k), le);
      assert Without(xs, 0) == xs[1..];
      SortMovesFront(ys, k, le);
    }
  }
}

/** Vocabulary shared by every model: options, counting, filtering and sums over sequences. */
module Prelude {
  datatype Option<+T> = None | Some(value: T)

  function Min(a: int, b: int): int {
    if a <= b then a else b
  }

  function Max(a: int, b: int): int {
    if a <= b then b else a
  }

  /** How many positions of `xs` satisfy `p`. */
  function Count<T>(xs: seq<T>, p: T -> bool): nat {
    if xs == [] then 0
    else Count(xs[..|xs| - 1], p) + (if p(xs[|xs| - 1]) then 1 else 0)
  }

  /** The elements of `xs` satisfying `p`, in order. */
  function Filter<T>(xs: seq<T>, p: T -> bool): seq<T> {
    if xs == [] then []
    else
      var rest, last := Filter(xs[..|xs| - 1], p), xs[|xs| - 1];
      if p(last) then rest + [last] else rest
  }

  function Map<S, T>(xs: seq<S>, f: S -> T): (ys: seq<T>)
    ensures |ys| == |xs| && forall i :: 0 <= i < |xs| ==> ys[i] == f(xs[i])
  {
    seq(|xs|, i requires 0 <= i < |xs| => f(xs[i]))
  }

  function Sum<T>(xs: seq<T>, f: T -> int): int {
    if xs == [] then 0 else Sum(xs[..|xs| - 1], f) + f(xs[|xs| - 1])
  }

  ghost predicate Distinct<T>(xs: seq<T>) {
    forall i, j :: 0 <= i < j < |xs| ==> xs[i] != xs[j]
  }

  function Take<T>(xs: seq<T>, n: nat): seq<T> {
    if |xs| <= n then xs else xs[..n]
  }

  // ----- text

  /** Whether a text occurs in another. */
  predicate PartOf(part: string, whole: string) {
    exists i :: 0 <= i <= |whole| - |part| && FoundAt(part, whole, i)
  }

  predicate FoundAt(part: string, whole: string, i: nat)
    requires i <= |whole| - |part|
  {
    whole[i..i + |part|] == part
  }

  /** The text is something, then the part, then something. */
  ghost predicate StandsIn(part: string, whole: string) {
    exists before: string, after: string :: whole == before + part + after
  }

  lemma PartStands(part: string, whole: string)
    ensures PartOf(part, whole) <==> StandsIn(part, whole)
  {
    if PartOf(part, whole) {
      var i :| 0 <= i <= |whole| - |part| && FoundAt(part, whole, i);
      assert whole == whole[..i] + part + whole[i + |part|..];
    }
    if before, after :| whole == before + part + after {
      assert whole[|before|..|before| + |part|] == part;
      assert FoundAt(part, whole, |before|);
    }
  }

  // ----- counting

  lemma {:induction false} CountMonotone<T>(xs: seq<T>, ys: seq<T>, p: T -> bool, q: T -> bool)
    requires |xs| == |ys|
    requires forall i :: 0 <= i < |xs| ==> p(xs[i]) ==> q(ys[i])
    ensures Count(xs, p) <= Count(ys, q)
  {
    if xs != [] {
      CountMonotone(xs[..|xs| - 1], ys[..|ys| - 1], p, q);
    }
  }

  lemma {:induction false} CountStrict<T>(xs: seq<T>, ys: seq<T>, p: T -> bool, q: T -> bool, k: nat)
    requires |xs| == |ys| && k < |xs|
    requires forall i :: 0 <= i < |xs| ==> p(xs[i]) ==> q(ys[i])
    requires !p(xs[k]) && q(ys[k])
    ensures Count(xs, p) < Count(ys, q)
  {
    if k == |xs| - 1 {
      CountMonotone(xs[..|xs| - 1], ys[..|ys| - 1], p, q);
    } else {
      CountStrict(xs[..|xs| - 1], ys[..|ys| - 1], p, q, k);
    }
  }

  lemma {:induction false} CountAppend<T>(xs: seq<T>, ys: seq<T>, p: T -> bool)
    ensures Count(xs + ys, p) == Count(xs, p) + Count(ys, p)
  {
    if ys == [] {
      assert xs + ys == xs;
    } else {
      assert (xs + ys)[..|xs + ys| - 1] == xs + ys[..|ys| - 1];
      CountAppend(xs, ys[..|ys| - 1], p);
    }
  }

  lemma {:induction false} CountUpdate<T>(xs: seq<T>, k: nat, v: T, p: T -> bool)
    requires k < |xs|
    ensures Count(xs[k := v], p)
         == Count(xs, p) - (if p(xs[k]) then 1 else 0) + (if p(v) then 1 else 0)
  {
    if k == |xs| - 1 {
      assert xs[k := v][..|xs| - 1] == xs[..|xs| - 1];
    } else {
      assert xs[k := v][..|xs| - 1] == xs[..|xs| - 1][k := v];
      CountUpdate(xs[..|xs| - 1], k, v, p);
    }
  }

  lemma {:induction false} CountPositive<T>(xs: seq<T>, p: T -> bool)
    ensures Count(xs, p) > 0 <==> exists i :: 0 <= i < |xs| && p(xs[i])
  {
    if xs != [] {
      CountPositive(xs[..|xs| - 1], p);
    }
  }

  lemma {:induction false} CountWhole<T>(xs: seq<T>, p: T -> bool)
    ensures Count(xs, p) <= |xs|
    ensures Count(xs, p) == |xs| <==> forall i :: 0 <= i < |xs| ==> p(xs[i])
  {
    if xs != [] {
      CountWhole(xs[..|xs| - 1], p);
    }
  }

  /** Splitting a count by a second predicate loses nothing. */
  lemma {:induction false} CountSplit<T>(xs: seq<T>, p: T -> bool, q: T -> bool, r: T -> bool)
    requires forall x :: x in xs ==> (p(x) <==> q(x) || r(x)) && !(q(x) && r(x))
    ensures Count(xs, p) == Count(xs, q) + Count(xs, r)
  {
    if xs != [] {
      CountSplit(xs[..|xs| - 1], p, q, r);
      assert xs[|xs| - 1] in xs;
    }
  }

  lemma {:induction false} CountSame<S, T>(xs: seq<S>, ys: seq<T>, p: S -> bool, q: T -> bool)
    requires |xs| == |ys|
    requires forall i :: 0 <= i < |xs| ==> (p(xs[i]) <==> q(ys[i]))
    ensures Count(xs, p) == Count(ys, q)
  {
    if xs != [] {
      CountSame(xs[..|xs| - 1], ys[..|ys| - 1], p, q);
    }
  }

  function Places<T>(xs: seq<T>, p: T -> bool): set<nat> {
    set i: nat | i < |xs| && p(xs[i])
  }

  /** A count is the number of places. */
  lemma {:induction false} CountPlaces<T>(xs: seq<T>, p: T -> bool)
    ensures Count(xs, p) == |Places(xs, p)|
  {
    if xs == [] {
      assert Places(xs, p) == {};
    } else {
      var n: nat := |xs| - 1;
      CountPlaces(xs[..n], p);
      if p(xs[n]) {
        assert Places(xs, p) == Places(xs[..n], p) + {n};
      } else {
        assert Places(xs, p) == Places(xs[..n], p);
      }
    }
  }

  lemma {:induction false} FilterMembers<T>(xs: seq<T>, p: T -> bool)
    ensures forall x :: x in Filter(xs, p) <==> x in xs && p(x)
  {
    if xs != [] {
      FilterMembers(xs[..|xs| - 1], p);
      assert xs == xs[..|xs| - 1] + [xs[|xs| - 1]];
    }
  }

  lemma {:induction false} FilterLength<T>(xs: seq<T>, p: T -> bool)
    ensures |Filter(xs, p)| == Count(xs, p)
  {
    if xs != [] {
      FilterLength(xs[..|xs| - 1], p);
    }
  }

  lemma {:induction false} FilterAll<T>(xs: seq<T>, p: T -> bool)
    requires forall x :: x in xs ==> p(x)
    ensures Filter(xs, p) == xs
  {
    if xs != [] {
      FilterAll(xs[..|xs| - 1], p);
      assert xs == xs[..|xs| - 1] + [xs[|xs| - 1]];
    }
  }

  lemma {:induction false} FilterNone<T>(xs: seq<T>, p: T -> bool)
    requires forall x :: x in xs ==> !p(x)
    ensures Filter(xs, p) == []
  {
    if xs != [] {
      FilterNone(xs[..|xs| - 1], p);
    }
  }

  lemma {:induction false} FilterDistinct<T>(xs: seq<T>, p: T -> bool)
    requires Distinct(xs)
    ensures Distinct(Filter(xs, p))
  {
    if xs != [] {
      FilterDistinct(xs[..|xs| - 1], p);
      FilterMembers(xs[..|xs| - 1], p);
    }
  }

  lemma {:induction false} FilterAppend<T>(xs: seq<T>, ys: seq<T>, p: T -> bool)
    ensures Filter(xs + ys, p) == Filter(xs, p) + Filter(ys, p)
  {
    if ys == [] {
      assert xs + ys == xs;
    } else {
      assert (xs + ys)[..|xs + ys| - 1] == xs + ys[..|ys| - 1];
      FilterAppend(xs, ys[..|ys| - 1], p);
    }
  }

  lemma FilterSuffix<T>(xs: seq<T>, p: T -> bool, m: nat)
    requires m <= |xs|
    requires forall i :: 0 <= i < |xs| ==> (p(xs[i]) <==> m <= i)
    ensures Filter(xs, p) == xs[m..]
  {
    assert xs == xs[..m] + xs[m..];
    FilterAppend(xs[..m], xs[m..], p);
    FilterNone(xs[..m], p);
    FilterAll(xs[m..], p);
  }

  /** Whatever stands in a sequence stands somewhere in each rearrangement of it. */
  lemma SameElement<T>(xs: seq<T>, ys: seq<T>, i: nat) returns (j: nat)
    requires multiset(xs) == multiset(ys) && i < |xs|
    ensures j < |ys| && ys[j] == xs[i]
  {
    assert xs[i] in multiset(xs);
    assert xs[i] in multiset(ys);
    j :| j < |ys| && ys[j] == xs[i];
  }

  /** A count does not depend on the order. */
  lemma {:induction false} CountPermuted<T>(xs: seq<T>, ys: seq<T>, p: T -> bool)
    requires multiset(xs) == multiset(ys)
    ensures Count(xs, p) == Count(ys, p)
    decreases |xs|
  {
    assert |xs| == |multiset(xs)| == |multiset(ys)| == |ys|;
    if xs != [] {
      var n: nat := |xs| - 1;
      var k := SameElement(xs, ys, n);
      var rest := ys[..k] + ys[k + 1..];
      assert xs == xs[..n] + [xs[n]];
      assert ys == ys[..k] + [ys[k]] + ys[k + 1..];
      assert multiset(rest) == multiset(ys) - multiset{ys[k]};
      assert multiset(xs[..n]) == multiset(xs) - multiset{xs[n]};
      CountPermuted(xs[..n], rest, p);
      CountAppend(ys[..k] + [ys[k]], ys[k + 1..], p);
      CountAppend(ys[..k], [ys[k]], p);
      CountAppend(ys[..k], ys[k + 1..], p);
      assert [ys[k]][..0] == [];
    }
  }

  // ----- repetition

  function Elements<T>(xs: seq<T>): set<T> {
    set x | x in xs
  }

  lemma {:induction false} ElementsCount<T>(xs: seq<T>)
    ensures |Elements(xs)| <= |xs|
    ensures |Elements(xs)| == |xs| <==> Distinct(xs)
  {
    if xs == [] {
      assert Elements(xs) == {};
    } else {
      var front, last := xs[..|xs| - 1], xs[|xs| - 1];
      ElementsCount(front);
      if last in front {
        assert Elements(xs) == Elements(front);
      } else {
        assert Elements(xs) == Elements(front) + {last};
        if Distinct(front) {
          assert Distinct(xs);
        }
      }
    }
  }

  // ----- sums

  lemma {:induction false} SumMonotone<T>(xs: seq<T>, ys: seq<T>, f: T -> int, g: T -> int)
    requires |xs| == |ys|
    requires forall i :: 0 <= i < |xs| ==> f(xs[i]) <= g(ys[i])
    ensures Sum(xs, f) <= Sum(ys, g)
    ensures (exists i :: 0 <= i < |xs| && f(xs[i]) < g(ys[i])) ==> Sum(xs, f) < Sum(ys, g)
  {
    if xs != [] {
      SumMonotone(xs[..|xs| - 1], ys[..|ys| - 1], f, g);
      if i :| 0 <= i < |xs| && f(xs[i]) < g(ys[i]) {
        if i < |xs| - 1 {
          assert f(xs[..|xs| - 1][i]) < g(ys[..|ys| - 1][i]);
        }
      }
    }
  }

  lemma {:induction false} SumNonNegative<T>(xs: seq<T>, f: T -> int)
    requires forall i :: 0 <= i < |xs| ==> 0 <= f(xs[i])
    ensures 0 <= Sum(xs, f)
  {
    if xs != [] {
      SumNonNegative(xs[..|xs| - 1], f);
    }
  }

  lemma {:induction false} SumAppend<T>(xs: seq<T>, ys: seq<T>, f: T -> int)
    ensures Sum(xs + ys, f) == Sum(xs, f) + Sum(ys, f)
  {
    if ys == [] {
      assert xs + ys == xs;
    } else {
      assert (xs + ys)[..|xs + ys| - 1] == xs + ys[..|ys| - 1];
      SumAppend(xs, ys[..|ys| - 1], f);
    }
  }
}

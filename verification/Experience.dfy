/**
 * Experience from dated employment: intervals of months are merged in start order, and the total is
 * the size of their union, whatever order they were written in.
 */
module Experience {
  import opened Prelude
  import opened Sorting

  /** Months are numbered from year 0; `start <= end`. */
  datatype Interval = Interval(start: int, end: int)

  /** An endpoint as parsed: the present, a month, or something that is no precise month. */
  datatype Endpoint = Present | Month(index: int) | Unusable

  datatype Range = Range(first: Endpoint, last: Endpoint)

  datatype History = History(months: int, intervals: seq<Interval>)

  ghost predicate Forward(xs: seq<Interval>) {
    forall i :: 0 <= i < |xs| ==> xs[i].start <= xs[i].end
  }

  function StartOrder(): (Interval, Interval) -> bool {
    (a: Interval, b: Interval) => a.start < b.start || (a.start == b.start && a.end <= b.end)
  }

  // ----- months covered

  predicate Within(m: int, lo: int, hi: int) {
    lo <= m < hi
  }

  function Span(lo: int, hi: int): set<int> {
    set m: int | lo <= m < hi && Within(m, lo, hi)
  }

  /** The months of an interval, its last month excluded. */
  function HalfOpen(x: Interval): set<int> {
    Span(x.start, x.end)
  }

  /** The months of an interval, its last month included. */
  function Closed(x: Interval): set<int> {
    Span(x.start, x.end + 1)
  }

  function Union(xs: seq<Interval>): set<int> {
    if xs == [] then {} else Union(xs[..|xs| - 1]) + HalfOpen(xs[|xs| - 1])
  }

  function ClosedUnion(xs: seq<Interval>): set<int> {
    if xs == [] then {} else ClosedUnion(xs[..|xs| - 1]) + Closed(xs[|xs| - 1])
  }

  function LengthOf(): Interval -> int {
    (x: Interval) => x.end - x.start
  }

  /** Blocks in order, with at least one month between one and the next. */
  ghost predicate Separated(xs: seq<Interval>) {
    Forward(xs) && forall i, j :: 0 <= i < j < |xs| ==> xs[i].end < xs[j].start
  }

  lemma {:induction false} Members(xs: seq<Interval>, m: int)
    ensures m in Union(xs) <==> exists i :: 0 <= i < |xs| && xs[i].start <= m < xs[i].end
    ensures m in ClosedUnion(xs) <==> exists i :: 0 <= i < |xs| && xs[i].start <= m <= xs[i].end
  {
    if xs != [] {
      var front := xs[..|xs| - 1];
      Members(front, m);
      if i :| 0 <= i < |front| && front[i].start <= m < front[i].end {
        assert xs[i].start <= m < xs[i].end;
      }
      if i :| 0 <= i < |front| && front[i].start <= m <= front[i].end {
        assert xs[i].start <= m <= xs[i].end;
      }
      if i :| 0 <= i < |xs| && xs[i].start <= m < xs[i].end {
        assert i < |front| ==> front[i].start <= m < front[i].end;
      }
      if i :| 0 <= i < |xs| && xs[i].start <= m <= xs[i].end {
        assert i < |front| ==> front[i].start <= m <= front[i].end;
      }
    }
  }

  lemma {:induction false} SpanSize(lo: int, hi: int)
    requires lo <= hi
    ensures |Span(lo, hi)| == hi - lo
    decreases hi - lo
  {
    if lo == hi {
      assert Span(lo, hi) == {};
    } else {
      SpanSize(lo, hi - 1);
      assert Span(lo, hi) == Span(lo, hi - 1) + {hi - 1};
    }
  }

  lemma IntervalSizes(x: Interval)
    requires x.start <= x.end
    ensures |HalfOpen(x)| == x.end - x.start && |Closed(x)| == x.end - x.start + 1
  {
    SpanSize(x.start, x.end);
    SpanSize(x.start, x.end + 1);
  }

  /** Separated blocks overlap nowhere, so their lengths add up to their unions. */
  lemma {:induction false} SeparatedSizes(xs: seq<Interval>)
    requires Separated(xs)
    ensures |Union(xs)| == Sum(xs, LengthOf())
    ensures |ClosedUnion(xs)| == Sum(xs, LengthOf()) + |xs|
  {
    if xs != [] {
      var front, last := xs[..|xs| - 1], xs[|xs| - 1];
      SeparatedSizes(front);
      IntervalSizes(last);
      assert ClosedUnion(front) * Closed(last) == {} by {
        forall m | m in ClosedUnion(front) ensures m !in Closed(last) {
          Members(front, m);
        }
      }
      assert Union(front) * HalfOpen(last) == {} by {
        forall m | m in Union(front) ensures m !in HalfOpen(last) {
          Members(front, m);
        }
      }
    }
  }

  // ----- the merge loop

  /** The blocks cover exactly the months of the intervals. */
  ghost predicate SameMonths(merged: seq<Interval>, xs: seq<Interval>) {
    Union(merged) == Union(xs) && ClosedUnion(merged) == ClosedUnion(xs)
  }

  /** The last block starts no later than the interval that comes next. */
  ghost predicate StartsBefore(merged: seq<Interval>, x: Interval) {
    merged != [] ==> merged[|merged| - 1].start <= x.start
  }

  /** Merge the next interval: extend the last block or open a new one. */
  method MergeNext(merged: seq<Interval>, xs: seq<Interval>, x: Interval) returns (more: seq<Interval>)
    requires Separated(merged) && SameMonths(merged, xs) && x.start <= x.end && StartsBefore(merged, x)
    ensures Separated(more) && SameMonths(more, xs + [x])
    ensures more != [] && more[|more| - 1].start <= x.start
  {
    var n := |merged|;
    assert (xs + [x])[..|xs|] == xs;
    if n > 0 && x.start <= merged[n - 1].end {
      Extended(merged, x);
      more := merged[n - 1 := Interval(merged[n - 1].start, Max(x.end, merged[n - 1].end))];
    } else {
      assert (merged + [x])[..n] == merged;
      more := merged + [x];
    }
  }

  /** Merge intervals taken in start order. */
  method Merge(sorted: seq<Interval>) returns (merged: seq<Interval>)
    requires Forward(sorted) && SortedBy(sorted, StartOrder())
    ensures Separated(merged)
    ensures Union(merged) == Union(sorted) && ClosedUnion(merged) == ClosedUnion(sorted)
  {
    merged := [];
    assert sorted[..0] == [];
    var k := 0;
    while k < |sorted|
      invariant 0 <= k <= |sorted| && Separated(merged) && SameMonths(merged, sorted[..k])
      invariant k < |sorted| ==> StartsBefore(merged, sorted[k])
    {
      assert sorted[..k + 1] == sorted[..k] + [sorted[k]];
      merged := MergeNext(merged, sorted[..k], sorted[k]);
      if k + 1 < |sorted| {
        assert StartOrder()(sorted[k], sorted[k + 1]);
      }
      k := k + 1;
    }
    assert sorted[..k] == sorted;
  }

  lemma Extended(merged: seq<Interval>, x: Interval)
    requires Separated(merged) && merged != [] && x.start <= x.end
    requires merged[|merged| - 1].start <= x.start <= merged[|merged| - 1].end
    ensures var n := |merged| - 1;
      var merged' := merged[n := Interval(merged[n].start, Max(x.end, merged[n].end))];
      && Separated(merged')
      && Union(merged') == Union(merged) + HalfOpen(x)
      && ClosedUnion(merged') == ClosedUnion(merged) + Closed(x)
  {
    var n := |merged| - 1;
    var last := Interval(merged[n].start, Max(x.end, merged[n].end));
    assert merged[n := last][..n] == merged[..n];
    assert HalfOpen(last) == HalfOpen(merged[n]) + HalfOpen(x);
    assert Closed(last) == Closed(merged[n]) + Closed(x);
  }

  method TotalMonths(blocks: seq<Interval>) returns (months: int)
    ensures months == Sum(blocks, LengthOf())
  {
    months := 0;
    var i := 0;
    while i < |blocks|
      invariant 0 <= i <= |blocks| && months == Sum(blocks[..i], LengthOf())
    {
      assert blocks[..i + 1][..i] == blocks[..i];
      months := months + (blocks[i].end - blocks[i].start);
      i := i + 1;
    }
    assert blocks[..i] == blocks;
  }

  // ----- from ranges to a history

  /** The interval of a range, unless an endpoint is no month, they are reversed, or one lies ahead. */
  function IntervalOf(r: Range, current: int): Option<Interval> {
    if r.first.Unusable? || r.last.Unusable? then None
    else
      var end := if r.last.Present? then current else r.last.index;
      if r.first.Present? || r.first.index > end || end > current then None
      else Some(Interval(r.first.index, end))
  }

  ghost predicate AllUsable(ranges: seq<Range>, current: int) {
    forall i :: 0 <= i < |ranges| ==> IntervalOf(ranges[i], current).Some?
  }

  /** The intervals of ranges that are all usable. */
  ghost function IntervalsOf(ranges: seq<Range>, current: int): (xs: seq<Interval>)
    requires AllUsable(ranges, current)
    ensures |xs| == |ranges|
    ensures forall i :: 0 <= i < |xs| ==> xs[i] == IntervalOf(ranges[i], current).value
    ensures Forward(xs)
  {
    seq(|ranges|, i requires 0 <= i < |ranges| => IntervalOf(ranges[i], current).value)
  }

  /** The range starts in a month and ends in a month or the present, not reversed and not ahead. */
  ghost predicate Dateable(r: Range, current: int) {
    && r.first.Month?
    && (r.last.Month? || r.last.Present?)
    && (r.last.Month? ==> r.first.index <= r.last.index <= current)
    && (r.last.Present? ==> r.first.index <= current)
  }

  /** The month lies from the first month up to the last, which itself is not counted. */
  ghost predicate WorkedIn(r: Range, current: int, m: int) {
    r.first.Month? && r.first.index <= m && (r.last.Month? ==> m < r.last.index) && (r.last.Present? ==> m < current)
  }

  ghost predicate WorkedThrough(r: Range, current: int, m: int) {
    r.first.Month? && r.first.index <= m && (r.last.Month? ==> m <= r.last.index) && (r.last.Present? ==> m <= current)
  }

  lemma UsableMeans(ranges: seq<Range>, current: int)
    ensures AllUsable(ranges, current) <==> forall i :: 0 <= i < |ranges| ==> Dateable(ranges[i], current)
  {
    forall i | 0 <= i < |ranges| ensures IntervalOf(ranges[i], current).Some? <==> Dateable(ranges[i], current) {
    }
  }

  /** The months a usable list of ranges covers, read off the endpoints as written. */
  lemma MonthsOfRanges(ranges: seq<Range>, current: int, m: int)
    requires AllUsable(ranges, current)
    ensures m in Union(IntervalsOf(ranges, current)) <==>
              exists i :: 0 <= i < |ranges| && WorkedIn(ranges[i], current, m)
    ensures m in ClosedUnion(IntervalsOf(ranges, current)) <==>
              exists i :: 0 <= i < |ranges| && WorkedThrough(ranges[i], current, m)
  {
    var xs := IntervalsOf(ranges, current);
    Members(xs, m);
    forall i | 0 <= i < |xs|
      ensures xs[i].start <= m < xs[i].end <==> WorkedIn(ranges[i], current, m)
      ensures xs[i].start <= m <= xs[i].end <==> WorkedThrough(ranges[i], current, m)
    {
      assert xs[i] == IntervalOf(ranges[i], current).value;
    }
  }

  /**
   * The history of a document: none without ranges, with an undated role, or with any unusable
   * range. Otherwise the months are those the ranges cover together, and months plus blocks are
   * those they cover when each last month counts in full.
   */
  method DatedHistory(ranges: seq<Range>, undatedRole: bool, current: int) returns (history: Option<History>)
    ensures history.Some? <==> ranges != [] && !undatedRole && AllUsable(ranges, current)
    ensures history.Some? <==>
              ranges != [] && !undatedRole && forall i :: 0 <= i < |ranges| ==> Dateable(ranges[i], current)
    ensures history.Some? ==>
              && history.value.months == |Union(IntervalsOf(ranges, current))|
              && history.value.months + |history.value.intervals| == |ClosedUnion(IntervalsOf(ranges, current))|
  {
    UsableMeans(ranges, current);
    if ranges == [] || undatedRole {
      return None;
    }
    var intervals := [];
    var i := 0;
    while i < |ranges|
      invariant 0 <= i <= |ranges| && |intervals| == i
      invariant forall k :: 0 <= k < i ==>
                  IntervalOf(ranges[k], current).Some? && intervals[k] == IntervalOf(ranges[k], current).value
    {
      var interval := IntervalOf(ranges[i], current);
      if interval.None? {
        return None;
      }
      intervals := intervals + [interval.value];
      i := i + 1;
    }
    assert intervals == IntervalsOf(ranges, current);
    var sorted := Sort(intervals, StartOrder());
    SortedIntervals(intervals);
    var merged := Merge(sorted);
    var months := TotalMonths(merged);
    SeparatedSizes(merged);
    history := Some(History(months, merged));
  }

  lemma SortedIntervals(xs: seq<Interval>)
    requires Forward(xs)
    ensures Forward(Sort(xs, StartOrder())) && SortedBy(Sort(xs, StartOrder()), StartOrder())
    ensures Union(Sort(xs, StartOrder())) == Union(xs) && ClosedUnion(Sort(xs, StartOrder())) == ClosedUnion(xs)
  {
    var ys := Sort(xs, StartOrder());
    SortSorts(xs, StartOrder());
    SortMembers(xs, StartOrder());
    SortPermutes(xs, StartOrder());
    forall i | 0 <= i < |ys| ensures ys[i].start <= ys[i].end {
      assert ys[i] in ys;
    }
    UnionIgnoresOrder(xs, ys);
  }

  /** The months covered do not depend on the order of the intervals. */
  lemma UnionIgnoresOrder(xs: seq<Interval>, ys: seq<Interval>)
    requires multiset(xs) == multiset(ys)
    ensures Union(xs) == Union(ys) && ClosedUnion(xs) == ClosedUnion(ys)
  {
    forall m ensures m in Union(xs) <==> m in Union(ys)
      ensures m in ClosedUnion(xs) <==> m in ClosedUnion(ys)
    {
      Covers(xs, ys, m);
      Covers(ys, xs, m);
    }
  }

  lemma Covers(xs: seq<Interval>, ys: seq<Interval>, m: int)
    requires multiset(xs) == multiset(ys)
    ensures m in Union(xs) ==> m in Union(ys)
    ensures m in ClosedUnion(xs) ==> m in ClosedUnion(ys)
  {
    Members(xs, m);
    Members(ys, m);
    if i :| 0 <= i < |xs| && xs[i].start <= m < xs[i].end {
      var j := SameElement(xs, ys, i);
      assert ys[j].start <= m < ys[j].end;
    }
    if i :| 0 <= i < |xs| && xs[i].start <= m <= xs[i].end {
      var j := SameElement(xs, ys, i);
      assert ys[j].start <= m <= ys[j].end;
    }
  }

  /** Writing the same ranges in another order gives the same months and the same number of blocks. */
  lemma OrderDoesNotMatter(ranges: seq<Range>, ranges': seq<Range>, current: int)
    requires multiset(ranges) == multiset(ranges')
    ensures AllUsable(ranges, current) ==> AllUsable(ranges', current)
    ensures AllUsable(ranges, current) && AllUsable(ranges', current) ==>
              && Union(IntervalsOf(ranges, current)) == Union(IntervalsOf(ranges', current))
              && ClosedUnion(IntervalsOf(ranges, current)) == ClosedUnion(IntervalsOf(ranges', current))
  {
    if AllUsable(ranges, current) {
      forall j | 0 <= j < |ranges'| ensures IntervalOf(ranges'[j], current).Some? {
        var i := SameElement(ranges', ranges, j);
      }
      var xs, ys := IntervalsOf(ranges, current), IntervalsOf(ranges', current);
      forall m ensures m in Union(xs) <==> m in Union(ys)
        ensures m in ClosedUnion(xs) <==> m in ClosedUnion(ys)
      {
        RangesCover(ranges, ranges', current, m);
        RangesCover(ranges', ranges, current, m);
      }
    }
  }

  lemma RangesCover(xs: seq<Range>, ys: seq<Range>, current: int, m: int)
    requires multiset(xs) == multiset(ys) && AllUsable(xs, current) && AllUsable(ys, current)
    ensures m in Union(IntervalsOf(xs, current)) ==> m in Union(IntervalsOf(ys, current))
    ensures m in ClosedUnion(IntervalsOf(xs, current)) ==> m in ClosedUnion(IntervalsOf(ys, current))
  {
    var us, vs := IntervalsOf(xs, current), IntervalsOf(ys, current);
    Members(us, m);
    Members(vs, m);
    if i :| 0 <= i < |us| && us[i].start <= m < us[i].end {
      var j := SameElement(xs, ys, i);
      assert vs[j].start <= m < vs[j].end;
    }
    if i :| 0 <= i < |us| && us[i].start <= m <= us[i].end {
      var j := SameElement(xs, ys, i);
      assert vs[j].start <= m <= vs[j].end;
    }
  }
}

/**
 * Ranking and selection: the evidence-aware sort key, the eligibility test, the synchronous
 * batch selection (sort, filter, slice), and the verdicts of the campaign barrier, which walks
 * the ranked pool with a running `selected` counter. The two selections agree.
 */
module Ranking {
  import opened Prelude
  import opened Sorting

  const MAX_CANDIDATES_PER_JD: nat := 15

  /** The part of a stored Stage 2 payload that ranking and selection read. */
  datatype Evidence = Evidence(
    score: real,
    responsibility: real,
    applied: real,
    currentVersion: bool,
    shortlistEligible: bool,
    reason: Option<string>)

  /** A pair waiting at the barrier; `id` is the candidate identifier's place in string order. */
  datatype Candidate = Candidate(pair: nat, id: int, evidence: Evidence)

  datatype Verdict = Shortlist | Review | Exclude

  predicate Eligible(e: Evidence) {
    e.currentVersion && e.shortlistEligible && 0.0 < e.score <= 1.0
  }

  function IsEligible(): Candidate -> bool {
    (c: Candidate) => Eligible(c.evidence)
  }

  /** Comparison of the four-part key: score, responsibility and applied coverage fall, id rises. */
  predicate RanksBefore(a: Candidate, b: Candidate) {
    var e, f := a.evidence, b.evidence;
    if e.score != f.score then e.score > f.score
    else if e.responsibility != f.responsibility then e.responsibility > f.responsibility
    else if e.applied != f.applied then e.applied > f.applied
    else a.id <= b.id
  }

  ghost predicate UniqueIds(pool: seq<Candidate>) {
    forall i, j :: 0 <= i < j < |pool| ==> pool[i].id != pool[j].id
  }

  function Ranked(pool: seq<Candidate>): seq<Candidate> {
    Sort(pool, RanksBefore)
  }

  /** The synchronous pipeline's selection; a cutoff outside 1..15 is an error. */
  function RankAndFilter(pool: seq<Candidate>, cutoff: int): Option<seq<Candidate>> {
    if !(1 <= cutoff <= MAX_CANDIDATES_PER_JD) then None
    else Some(Take(Filter(Ranked(pool), IsEligible()), cutoff))
  }

  function BarrierCap(stage3Cap: int): int {
    Min(stage3Cap, MAX_CANDIDATES_PER_JD)
  }

  /** The value of the barrier's `selected` counter after `k` rows. */
  function SelectedAfter(rows: seq<Candidate>, cap: int, k: nat): int
    requires k <= |rows|
  {
    if k == 0 then 0
    else
      var before := SelectedAfter(rows, cap, k - 1);
      if Eligible(rows[k - 1].evidence) && before < cap then before + 1 else before
  }

  function VerdictAt(rows: seq<Candidate>, cap: int, k: nat): Verdict
    requires k < |rows|
  {
    if Eligible(rows[k].evidence) && SelectedAfter(rows, cap, k) < cap then Shortlist
    else if !Eligible(rows[k].evidence) then Review
    else Exclude
  }

  /** The barrier's verdict on every row of the ranked pool. */
  function Verdicts(rows: seq<Candidate>, cap: int): (vs: seq<Verdict>)
    ensures |vs| == |rows| && forall i :: 0 <= i < |rows| ==> vs[i] == VerdictAt(rows, cap, i)
  {
    seq(|rows|, i requires 0 <= i < |rows| => VerdictAt(rows, cap, i))
  }

  /** The rows the barrier marks SHORTLISTED among the first `k`, in rank order. */
  function ShortlistedAmong(rows: seq<Candidate>, cap: int, k: nat): seq<Candidate>
    requires k <= |rows|
  {
    if k == 0 then []
    else
      var before := ShortlistedAmong(rows, cap, k - 1);
      if VerdictAt(rows, cap, k - 1) == Shortlist then before + [rows[k - 1]] else before
  }

  // ----- the key is an order

  lemma RanksBeforeIsOrdering()
    ensures Ordering(RanksBefore)
  {
  }

  lemma RanksBeforeSeparates(pool: seq<Candidate>)
    requires UniqueIds(pool)
    ensures Separates(RanksBefore, pool)
  {
  }

  lemma SameRows(pool: seq<Candidate>, arrived: seq<Candidate>)
    requires Separates(RanksBefore, pool) && multiset(arrived) == multiset(pool)
    ensures Separates(RanksBefore, arrived)
  {
    forall i, j | 0 <= i < |arrived| && 0 <= j < |arrived| && RanksBefore(arrived[i], arrived[j]) && RanksBefore(arrived[j], arrived[i])
      ensures arrived[i] == arrived[j]
    {
      var a := SameElement(arrived, pool, i);
      var b := SameElement(arrived, pool, j);
    }
  }

  // ----- the counter

  lemma {:induction false} SelectedCounts(rows: seq<Candidate>, cap: int, k: nat)
    requires k <= |rows| && 0 <= cap
    ensures SelectedAfter(rows, cap, k) == Min(cap, Count(rows[..k], IsEligible()))
    ensures |ShortlistedAmong(rows, cap, k)| == SelectedAfter(rows, cap, k)
  {
    if k > 0 {
      SelectedCounts(rows, cap, k - 1);
      assert rows[..k][..k - 1] == rows[..k - 1];
    }
  }

  lemma {:induction false} ShortlistedIsFilteredSlice(rows: seq<Candidate>, cap: int, k: nat)
    requires k <= |rows| && 0 <= cap
    ensures ShortlistedAmong(rows, cap, k) == Take(Filter(rows[..k], IsEligible()), cap)
  {
    if k > 0 {
      ShortlistedIsFilteredSlice(rows, cap, k - 1);
      SelectedCounts(rows, cap, k - 1);
      assert rows[..k][..k - 1] == rows[..k - 1];
      FilterLength(rows[..k - 1], IsEligible());
    }
  }

  /**
   * The barrier shortlists exactly what the synchronous pipeline selects with the same cap, for
   * every pool with distinct candidates and whatever order its rows arrive in: the fit rows with the best
   * scores, in falling order of score, as many as the cap and the limit of 15 allow.
   */
  lemma BarrierRefinesBatchSelection(arrived: seq<Candidate>, pool: seq<Candidate>, stage3Cap: int)
    requires UniqueIds(pool) && multiset(arrived) == multiset(pool)
    requires 1 <= stage3Cap
    ensures RankAndFilter(pool, BarrierCap(stage3Cap))
         == Some(ShortlistedAmong(Ranked(arrived), BarrierCap(stage3Cap), |arrived|))
    ensures var chosen := ShortlistedAmong(Ranked(arrived), BarrierCap(stage3Cap), |arrived|);
      && |chosen| == Min(Min(stage3Cap, 15), Count(pool, Fits()))
      && (forall c :: c in chosen ==> c in pool && Fits()(c))
      && (forall i, k :: 0 <= i < k < |chosen| ==> chosen[i].evidence.score >= chosen[k].evidence.score)
      && (forall c, d :: c in chosen && d in pool && Fits()(d) && d !in chosen ==> c.evidence.score >= d.evidence.score)
  {
    BatchByMerit(pool, BarrierCap(stage3Cap));
    RanksBeforeIsOrdering();
    RanksBeforeSeparates(pool);
    SameRows(pool, arrived);
    SortIgnoresArrival(pool, arrived, RanksBefore);
    var rows := Ranked(arrived);
    assert rows[..|rows|] == rows;
    ShortlistedIsFilteredSlice(rows, BarrierCap(stage3Cap), |rows|);
  }

  /** In rank order scores fall; at equal scores responsibility, then applied coverage, and then ids rise. */
  lemma RankedByMerit(pool: seq<Candidate>, i: nat, k: nat)
    requires i < k < |pool|
    ensures var a, b := Ranked(pool)[i], Ranked(pool)[k];
      var e, f := a.evidence, b.evidence;
      && e.score >= f.score
      && (e.score == f.score ==> e.responsibility >= f.responsibility)
      && (e.score == f.score && e.responsibility == f.responsibility ==> e.applied >= f.applied)
      && (e.score == f.score && e.responsibility == f.responsibility && e.applied == f.applied ==> a.id <= b.id)
  {
    RanksBeforeIsOrdering();
    SortSorts(pool, RanksBefore);
    assert RanksBefore(Ranked(pool)[i], Ranked(pool)[k]);
  }

  /** A current payload that scoring found eligible, with a score above zero and at most one. */
  function Fits(): Candidate -> bool {
    (c: Candidate) =>
      c.evidence.currentVersion && c.evidence.shortlistEligible && 0.0 < c.evidence.score && c.evidence.score <= 1.0
  }

  /**
   * The batch selection on scores: only current, eligible rows with a score in (0, 1], as many as the
   * cutoff allows, the best of them, in falling order of score.
   */
  lemma BatchByMerit(pool: seq<Candidate>, cutoff: int)
    ensures RankAndFilter(pool, cutoff).Some? <==> 1 <= cutoff <= 15
    ensures RankAndFilter(pool, cutoff).Some? ==>
      var chosen := RankAndFilter(pool, cutoff).value;
      && |chosen| == Min(cutoff, Count(pool, Fits()))
      && (forall c :: c in chosen ==> c in pool && Fits()(c))
      && (forall i, k :: 0 <= i < k < |chosen| ==> chosen[i].evidence.score >= chosen[k].evidence.score)
      && (forall c, d :: c in chosen && d in pool && Fits()(d) && d !in chosen ==> c.evidence.score >= d.evidence.score)
    ensures forall c :: Fits()(c) <==>
      c.evidence.currentVersion && c.evidence.shortlistEligible && 0.0 < c.evidence.score && c.evidence.score <= 1.0
  {
    if 1 <= cutoff <= 15 {
      FitRows(pool);
      forall c | c in Take(Filter(Ranked(pool), IsEligible()), cutoff) ensures c in pool && Fits()(c) {
        FitMembers(pool, c);
      }
      forall i, k | 0 <= i < k < |Take(Filter(Ranked(pool), IsEligible()), cutoff)|
        ensures var chosen := Take(Filter(Ranked(pool), IsEligible()), cutoff);
          chosen[i].evidence.score >= chosen[k].evidence.score
      {
        FilteredByMerit(pool, i, k);
      }
      forall c, d | c in Take(Filter(Ranked(pool), IsEligible()), cutoff)
                    && d in pool && Fits()(d) && d !in Take(Filter(Ranked(pool), IsEligible()), cutoff)
        ensures c.evidence.score >= d.evidence.score
      {
        LeftOutIsBehind(pool, cutoff, c, d);
      }
    }
  }

  lemma FitMembers(pool: seq<Candidate>, c: Candidate)
    ensures c in Filter(Ranked(pool), IsEligible()) <==> c in pool && Fits()(c)
  {
    FilterMembers(Ranked(pool), IsEligible());
    SortMembers(pool, RanksBefore);
  }

  lemma LeftOutIsBehind(pool: seq<Candidate>, cutoff: nat, c: Candidate, d: Candidate)
    requires c in Take(Filter(Ranked(pool), IsEligible()), cutoff)
    requires d in pool && Fits()(d) && d !in Take(Filter(Ranked(pool), IsEligible()), cutoff)
    ensures c.evidence.score >= d.evidence.score
  {
    var good := Filter(Ranked(pool), IsEligible());
    FitMembers(pool, d);
    var i :| 0 <= i < |Take(good, cutoff)| && Take(good, cutoff)[i] == c;
    var k :| 0 <= k < |good| && good[k] == d;
    assert forall m :: 0 <= m < |Take(good, cutoff)| ==> Take(good, cutoff)[m] == good[m];
    FilteredByMerit(pool, i, k);
  }

  lemma FitRows(pool: seq<Candidate>)
    ensures |Filter(Ranked(pool), IsEligible())| == Count(pool, Fits())
  {
    FilterLength(Ranked(pool), IsEligible());
    SortPermutes(pool, RanksBefore);
    CountPermuted(Ranked(pool), pool, IsEligible());
    CountSame(pool, pool, IsEligible(), Fits());
  }

  lemma FilteredByMerit(pool: seq<Candidate>, i: nat, k: nat)
    requires i < k < |Filter(Ranked(pool), IsEligible())|
    ensures var good := Filter(Ranked(pool), IsEligible()); good[i].evidence.score >= good[k].evidence.score
  {
    RanksBeforeIsOrdering();
    SortSorts(pool, RanksBefore);
    FilterSorted(Ranked(pool), IsEligible(), RanksBefore);
    var good := Filter(Ranked(pool), IsEligible());
    assert RanksBefore(good[i], good[k]);
  }

  /** An eligible row is cut only after the cap has been filled, by rows that all rank before it. */
  lemma ExclusionOnlyWhenFull(arrived: seq<Candidate>, cap: nat, i: nat, k: nat)
    requires i < |arrived| && k < |arrived|
    requires VerdictAt(Ranked(arrived), cap, k) == Exclude
    ensures SelectedAfter(Ranked(arrived), cap, k) == cap
    ensures |ShortlistedAmong(Ranked(arrived), cap, |arrived|)| == cap
    ensures VerdictAt(Ranked(arrived), cap, i) == Shortlist ==>
              i < k && RanksBefore(Ranked(arrived)[i], Ranked(arrived)[k])
  {
    var rows := Ranked(arrived);
    RanksBeforeIsOrdering();
    SortSorts(arrived, RanksBefore);
    SelectedCounts(rows, cap, k);
    SelectedCounts(rows, cap, |rows|);
    SelectedCounts(rows, cap, i);
    PrefixCount(rows, k, |rows|);
    if VerdictAt(rows, cap, i) == Shortlist && k < i {
      PrefixCount(rows, k, i);
    }
  }

  lemma PrefixCount(rows: seq<Candidate>, k: nat, n: nat)
    requires k <= n <= |rows|
    ensures Count(rows[..k], IsEligible()) <= Count(rows[..n], IsEligible())
  {
    assert rows[..n] == rows[..k] + rows[k..n];
    CountAppend(rows[..k], rows[k..n], IsEligible());
  }
}

/** A whole run, and what it publishes: exactly the accounting Pipeline specifies, or an error. */
module ScreeningRun {
  import opened Prelude
  import opened Sorting
  import opened Pipeline
  import opened PipelineAudit
  import opened Screening
  import opened ScreeningOutcomes

  // ----- positions by fate

  /** `at` lists each position with such a fate once. */
  ghost predicate Exactly(inp: Inputs, at: seq<nat>, p: Fate -> bool)
    requires Shaped(inp)
  {
    && Distinct(at)
    && (forall i: nat :: i in at <==> i < |inp.ids| && p(FateOf(inp, i)))
  }

  ghost function WithFate(fs: seq<Fate>, p: Fate -> bool): set<nat> {
    set i: nat | i < |fs| && p(fs[i])
  }

  lemma {:induction false} WithFateCount(fs: seq<Fate>, p: Fate -> bool)
    ensures |WithFate(fs, p)| == Count(fs, p)
  {
    if fs == [] {
      assert WithFate(fs, p) == {};
    } else {
      var m: nat := |fs| - 1;
      WithFateCount(fs[..m], p);
      if p(fs[m]) {
        assert WithFate(fs, p) == WithFate(fs[..m], p) + {m};
      } else {
        assert WithFate(fs, p) == WithFate(fs[..m], p);
      }
    }
  }

  lemma ExactlyCounts(inp: Inputs, at: seq<nat>, p: Fate -> bool)
    requires Shaped(inp) && Exactly(inp, at, p)
    ensures |at| == Count(Fates(inp), p)
  {
    ElementsCount(at);
    WithFateCount(Fates(inp), p);
    assert Elements(at) == WithFate(Fates(inp), p);
  }

  /** A rearranged list of the entries at those positions holds exactly them. */
  lemma ExactlyHolds(inp: Inputs, at: seq<nat>, p: Fate -> bool, list: seq<Item>)
    requires Shaped(inp) && Exactly(inp, at, p) && InRange(inp, at)
    requires multiset(list) == multiset(Items(inp, at))
    ensures Holds(list, inp, p)
  {
    var items := Items(inp, at);
    ExactlyCounts(inp, at, p);
    assert |list| == |multiset(list)| == |multiset(items)| == |items|;
    forall i | 0 <= i < |inp.ids| && p(FateOf(inp, i)) ensures ItemOf(inp, i) in list {
      var k :| 0 <= k < |at| && at[k] == i;
      assert items[k] in multiset(items);
      assert items[k] in multiset(list);
    }
    forall x | x in list ensures exists i :: 0 <= i < |inp.ids| && p(FateOf(inp, i)) && x == ItemOf(inp, i) {
      assert x in multiset(list) && x in multiset(items);
      var k :| 0 <= k < |items| && items[k] == x;
      assert at[k] in at;
    }
  }

  lemma ExactlyTogether(inp: Inputs, a: seq<nat>, p: Fate -> bool, b: seq<nat>, q: Fate -> bool, r: Fate -> bool)
    requires Shaped(inp) && Exactly(inp, a, p) && Exactly(inp, b, q)
    requires forall i: nat :: i < |inp.ids| ==>
               var f := FateOf(inp, i); (r(f) <==> p(f) || q(f)) && !(p(f) && q(f))
    ensures Exactly(inp, a + b, r)
  {
    forall i, j | 0 <= i < j < |a + b| ensures (a + b)[i] != (a + b)[j] {
      if i < |a| <= j {
        assert a[i] in a && b[j - |a|] in b;
      }
    }
  }

  lemma RuleListsExact(inp: Inputs)
    requires Shaped(inp)
    ensures Exactly(inp, RaisedIn(inp, |inp.ids|), Is(RuleRaised))
    ensures Exactly(inp, RefusedIn(inp, |inp.ids|), Is(RuleRejected))
  {
    var ps := Positions(|inp.ids|);
    PositionsDistinct(|inp.ids|);
    assert ps[..|inp.ids|] == ps;
    FilterDistinct(ps, RaisedAt(inp));
    FilterMembers(ps, RaisedAt(inp));
    FilterDistinct(ps, RefusedAt(inp));
    FilterMembers(ps, RefusedAt(inp));
  }

  lemma LostExact(inp: Inputs)
    requires Shaped(inp)
    ensures Exactly(inp, LostIn(inp, |Survivors(inp)|), Is(ExtractionRaised))
  {
    var ss := Survivors(inp);
    SurvivorsAre(inp);
    assert ss[..|ss|] == ss;
    FilterDistinct(ss, NoEvidenceAt(inp));
    FilterMembers(ss, NoEvidenceAt(inp));
  }

  lemma UnrankedExact(inp: Inputs)
    requires Shaped(inp) && !RankingOk(inp)
    ensures Exactly(inp, Payloads(inp), Is(RankingFailed))
  {
    PayloadsAre(inp);
  }

  lemma CutExact(inp: Inputs)
    requires Shaped(inp) && RankingOk(inp)
    ensures Exactly(inp, ReviewedIn(inp, inp.ranking.ids, |Payloads(inp)|), Is(Stage2Review))
    ensures Exactly(inp, CutIn(inp, inp.ranking.ids, |Payloads(inp)|), Is(CutOff))
  {
    var ps, chosen := Payloads(inp), inp.ranking.ids;
    PayloadsAre(inp);
    assert ps[..|ps|] == ps;
    FilterDistinct(ps, ReviewedAt(inp, chosen));
    FilterMembers(ps, ReviewedAt(inp, chosen));
    FilterDistinct(ps, CutAt(inp, chosen));
    FilterMembers(ps, CutAt(inp, chosen));
    forall i: nat | i < |inp.ids|
      ensures FateOf(inp, i) == Stage2Review <==> i in ps && ReviewedAt(inp, chosen)(i)
      ensures FateOf(inp, i) == CutOff <==> i in ps && CutAt(inp, chosen)(i)
    {
      CutFate(inp, i);
    }
  }

  lemma CutFate(inp: Inputs, i: nat)
    requires Shaped(inp) && RankingOk(inp) && i < |inp.ids|
    ensures var out := Survives(inp, i) && HasEvidence(inp, i);
      && (FateOf(inp, i) == Stage2Review <==> out && ReviewedAt(inp, inp.ranking.ids)(i))
      && (FateOf(inp, i) == CutOff <==> out && CutAt(inp, inp.ranking.ids)(i))
  {
    assert ReviewedAt(inp, inp.ranking.ids)(i) <==> LeftOut(inp, inp.ranking.ids)(i) && NeedsReview(inp)(i);
    assert CutAt(inp, inp.ranking.ids)(i) <==> LeftOut(inp, inp.ranking.ids)(i) && !NeedsReview(inp)(i);
  }

  lemma PlacesDistinct(inp: Inputs, xs: seq<Evaluation>)
    requires Shaped(inp) && Distinct(inp.ids)
    requires forall e :: e in xs ==> e in Ordered(inp)
    requires Distinct(xs)
    ensures Distinct(Map(xs, PlaceOf(inp)))
  {
    OrderedAre(inp);
    forall i, j | 0 <= i < j < |xs| ensures PlaceOf(inp)(xs[i]) != PlaceOf(inp)(xs[j]) {
      assert xs[i] in xs && xs[j] in xs;
      EvaluatedIs(inp, xs[i]);
      EvaluatedIs(inp, xs[j]);
      assert xs[i] == EvaluationFor(Results(inp), xs[i].id);
    }
  }

  lemma OrderedDistinct(inp: Inputs)
    ensures Distinct(Ordered(inp)) && Ordered(inp)[..|Ordered(inp)|] == Ordered(inp)
  {
    OrderedAre(inp);
  }

  lemma VerdictExact(inp: Inputs, v: Verdict)
    requires Shaped(inp) && Distinct(inp.ids)
    ensures Exactly(inp, VerdictIn(inp, v, |Ordered(inp)|), Is(Evaluated(v)))
  {
    var all := Ordered(inp);
    var es := Filter(all, VerdictIs(v));
    OrderedDistinct(inp);
    FilterDistinct(all, VerdictIs(v));
    FilterMembers(all, VerdictIs(v));
    PlacesDistinct(inp, es);
    var at := Map(es, PlaceOf(inp));
    forall i: nat ensures i in at <==> i < |inp.ids| && FateOf(inp, i) == Evaluated(v) {
      if i in at {
        var k :| 0 <= k < |at| && at[k] == i;
        assert es[k] in es;
        EvaluatedIs(inp, es[k]);
      }
      if i < |inp.ids| && FateOf(inp, i) == Evaluated(v) {
        VerdictHasPlace(inp, v, i);
      }
    }
  }

  lemma VerdictHasPlace(inp: Inputs, v: Verdict, i: nat)
    requires Shaped(inp) && Distinct(inp.ids) && i < |inp.ids| && FateOf(inp, i) == Evaluated(v)
    ensures i in Map(Filter(Ordered(inp), VerdictIs(v)), PlaceOf(inp))
  {
    var all := Ordered(inp);
    EvaluatedHasPlace(inp, i);
    OrderedDistinct(inp);
    var m :| 0 <= m < |all| && PlaceOf(inp)(all[m]) == i;
    EvaluatedIs(inp, all[m]);
    FilterMembers(all, VerdictIs(v));
    MapMember(Filter(all, VerdictIs(v)), PlaceOf(inp), i);
  }

  lemma EvaluatedExact(inp: Inputs)
    requires Shaped(inp) && Distinct(inp.ids)
    ensures Exactly(inp, PlacesIn(inp, |Ordered(inp)|), WasEvaluated())
    ensures |Chosen(inp)| == Count(Fates(inp), WasEvaluated())
  {
    var all, at := Ordered(inp), PlacesIn(inp, |Ordered(inp)|);
    OrderedAre(inp);
    OrderedDistinct(inp);
    PlacesDistinct(inp, all);
    forall i: nat ensures i in at <==> i < |inp.ids| && FateOf(inp, i).Evaluated? {
      if i in at {
        var k :| 0 <= k < |at| && at[k] == i;
        EvaluatedIs(inp, all[k]);
      }
      if i < |inp.ids| && FateOf(inp, i).Evaluated? {
        EvaluatedHasPlace(inp, i);
      }
    }
    ExactlyCounts(inp, at, WasEvaluated());
  }

  // ----- the published run

  /** The keys of the outcome map, in the order they were first written. */
  function InOrder(ids: seq<int>): seq<int> {
    if ids == [] then []
    else
      var before, last := InOrder(ids[..|ids| - 1]), ids[|ids| - 1];
      if last in before then before else before + [last]
  }

  lemma {:induction false} InOrderIs(ids: seq<int>)
    ensures Distinct(InOrder(ids)) && SameIds(InOrder(ids), ids)
    ensures |InOrder(ids)| <= |ids|
    ensures Distinct(ids) ==> InOrder(ids) == ids
    ensures !Distinct(ids) ==> |InOrder(ids)| < |ids|
  {
    if ids != [] {
      var front, last := ids[..|ids| - 1], ids[|ids| - 1];
      InOrderIs(front);
      assert ids == front + [last];
      if Distinct(ids) {
        assert last !in front;
      } else if last !in front {
        assert !Distinct(front);
      }
    }
  }

  lemma KeyInOrder(ids: seq<int>, k: nat)
    requires k < |InOrder(ids)|
    ensures InOrder(ids)[k] in ids
  {
    InOrderIs(ids);
    assert InOrder(ids)[k] in InOrder(ids);
  }

  function ById(): (Item, Item) -> bool {
    (a: Item, b: Item) => a.id <= b.id
  }

  // ----- where the stages leave everybody

  /** Those who failed before Stage 3. */
  ghost function EarlyFailures(inp: Inputs): seq<nat>
    requires Shaped(inp)
  {
    RaisedIn(inp, |inp.ids|) + LostIn(inp, |Survivors(inp)|) + (if RankingOk(inp) then [] else Payloads(inp))
  }

  ghost function FailedPlaces(inp: Inputs): seq<nat>
    requires Shaped(inp)
  {
    EarlyFailures(inp) + VerdictIn(inp, EvaluationFailed, |Ordered(inp)|)
  }

  ghost function RejectedPlaces(inp: Inputs): seq<nat>
    requires Shaped(inp)
  {
    RefusedIn(inp, |inp.ids|)
    + (if RankingOk(inp) then CutIn(inp, inp.ranking.ids, |Payloads(inp)|) else [])
  }

  /** Those sent to review before Stage 3. */
  ghost function EarlyReviews(inp: Inputs): seq<nat>
    requires Shaped(inp)
  {
    if RankingOk(inp) then ReviewedIn(inp, inp.ranking.ids, |Payloads(inp)|) else []
  }

  ghost function ReviewPlaces(inp: Inputs): seq<nat>
    requires Shaped(inp)
  {
    EarlyReviews(inp) + VerdictIn(inp, ReviewRequired, |Ordered(inp)|)
  }

  ghost function LeaderPlaces(inp: Inputs): seq<nat>
    requires Shaped(inp)
  {
    VerdictIn(inp, Success, |Ordered(inp)|)
  }

  ghost function RankedMetrics(inp: Inputs): Metrics
    requires Shaped(inp)
  {
    RuledMetrics(inp, |inp.ids|).(
      stage2Shortlisted := |Chosen(inp)|,
      stage2Failed := |LostIn(inp, |Survivors(inp)|)| + (if RankingOk(inp) then 0 else |Payloads(inp)|),
      stage2Review := if RankingOk(inp) then |ReviewedIn(inp, inp.ranking.ids, |Payloads(inp)|)| else 0,
      stage2Excluded := if RankingOk(inp) then |CutIn(inp, inp.ranking.ids, |Payloads(inp)|)| else 0)
  }

  ghost function FinalMetrics(inp: Inputs): Metrics
    requires Shaped(inp)
  {
    var n := |Ordered(inp)|;
    RankedMetrics(inp).(
      stage3Evaluated := |Chosen(inp)|,
      stage3Succeeded := |VerdictIn(inp, Success, n)|,
      stage3Review := |VerdictIn(inp, ReviewRequired, n)|,
      stage3Failed := |VerdictIn(inp, EvaluationFailed, n)|)
  }

  lemma NoneExact(inp: Inputs, p: Fate -> bool)
    requires Shaped(inp) && forall i: nat :: i < |inp.ids| ==> !p(FateOf(inp, i))
    ensures Exactly(inp, [], p) && Count(Fates(inp), p) == 0
  {
    ExactlyCounts(inp, [], p);
  }

  function NotEvaluatedFailed(): Fate -> bool {
    (f: Fate) => f.RuleRaised? || f.ExtractionRaised? || f.RankingFailed?
  }

  lemma Stage2LostExact(inp: Inputs)
    requires Shaped(inp)
    ensures var rest := if RankingOk(inp) then [] else Payloads(inp);
      Exactly(inp, LostIn(inp, |Survivors(inp)|) + rest, Stage2Lost())
  {
    var rest := if RankingOk(inp) then [] else Payloads(inp);
    LostExact(inp);
    if RankingOk(inp) {
      NoneExact(inp, Is(RankingFailed));
    } else {
      UnrankedExact(inp);
    }
    ExactlyTogether(inp, LostIn(inp, |Survivors(inp)|), Is(ExtractionRaised), rest, Is(RankingFailed), Stage2Lost());
  }

  lemma NotEvaluatedExact(inp: Inputs, raised: seq<nat>, lost: seq<nat>)
    requires Shaped(inp) && Distinct(inp.ids)
    requires raised == RaisedIn(inp, |inp.ids|)
    requires lost == LostIn(inp, |Survivors(inp)|) + (if RankingOk(inp) then [] else Payloads(inp))
    ensures Exactly(inp, raised + lost, NotEvaluatedFailed())
  {
    RuleListsExact(inp);
    Stage2LostExact(inp);
    ExactlyTogether(inp, raised, Is(RuleRaised), lost, Stage2Lost(), NotEvaluatedFailed());
  }

  lemma FailedExact(inp: Inputs)
    requires Shaped(inp) && Distinct(inp.ids)
    ensures Exactly(inp, FailedPlaces(inp), InFailed())
  {
    var rest := if RankingOk(inp) then [] else Payloads(inp);
    var raised, lost := RaisedIn(inp, |inp.ids|), LostIn(inp, |Survivors(inp)|) + rest;
    NotEvaluatedExact(inp, raised, lost);
    VerdictExact(inp, EvaluationFailed);
    ExactlyTogether(inp, raised + lost, NotEvaluatedFailed(), VerdictIn(inp, EvaluationFailed, |Ordered(inp)|),
                    Is(Evaluated(EvaluationFailed)), InFailed());
    assert raised + lost + VerdictIn(inp, EvaluationFailed, |Ordered(inp)|) == FailedPlaces(inp);
  }

  lemma RejectedExact(inp: Inputs)
    requires Shaped(inp)
    ensures Exactly(inp, RejectedPlaces(inp), InRejected())
  {
    RuleListsExact(inp);
    if RankingOk(inp) {
      CutExact(inp);
    } else {
      NoneExact(inp, Is(CutOff));
    }
    ExactlyTogether(inp, RefusedIn(inp, |inp.ids|), Is(RuleRejected),
                    if RankingOk(inp) then CutIn(inp, inp.ranking.ids, |Payloads(inp)|) else [], Is(CutOff), InRejected());
  }

  lemma ReviewExact(inp: Inputs)
    requires Shaped(inp) && Distinct(inp.ids)
    ensures Exactly(inp, ReviewPlaces(inp), InReview())
  {
    if RankingOk(inp) {
      CutExact(inp);
    } else {
      NoneExact(inp, Is(Stage2Review));
    }
    VerdictExact(inp, ReviewRequired);
    ExactlyTogether(inp, if RankingOk(inp) then ReviewedIn(inp, inp.ranking.ids, |Payloads(inp)|) else [],
                    Is(Stage2Review), VerdictIn(inp, ReviewRequired, |Ordered(inp)|), Is(Evaluated(ReviewRequired)),
                    InReview());
  }

  lemma LeaderExact(inp: Inputs)
    requires Shaped(inp) && Distinct(inp.ids)
    ensures Exactly(inp, LeaderPlaces(inp), InLeaderboard())
  {
    VerdictExact(inp, Success);
  }

  /** The counters the loops reach are the counts over fates. */
  lemma FinalMetricsAreCounts(inp: Inputs)
    requires Shaped(inp) && Distinct(inp.ids)
    ensures FinalMetrics(inp) == MetricsOf(inp).(accounted := 0)
  {
    assert inp.filters[..|inp.ids|] == inp.filters;
    RuleListsExact(inp);
    ExactlyCounts(inp, RaisedIn(inp, |inp.ids|), Is(RuleRaised));
    EvaluatedExact(inp);
    Stage2Counts(inp);
    VerdictCounts(inp, Success);
    VerdictCounts(inp, ReviewRequired);
    VerdictCounts(inp, EvaluationFailed);
  }

  lemma VerdictCounts(inp: Inputs, v: Verdict)
    requires Shaped(inp) && Distinct(inp.ids)
    ensures |VerdictIn(inp, v, |Ordered(inp)|)| == Count(Fates(inp), Is(Evaluated(v)))
  {
    VerdictExact(inp, v);
    ExactlyCounts(inp, VerdictIn(inp, v, |Ordered(inp)|), Is(Evaluated(v)));
  }

  lemma Stage2Counts(inp: Inputs)
    requires Shaped(inp)
    ensures |LostIn(inp, |Survivors(inp)|)| + (if RankingOk(inp) then 0 else |Payloads(inp)|)
         == Count(Fates(inp), Stage2Lost())
    ensures (if RankingOk(inp) then |ReviewedIn(inp, inp.ranking.ids, |Payloads(inp)|)| else 0)
         == Count(Fates(inp), Is(Stage2Review))
    ensures (if RankingOk(inp) then |CutIn(inp, inp.ranking.ids, |Payloads(inp)|)| else 0)
         == Count(Fates(inp), Is(CutOff))
  {
    Stage2LostExact(inp);
    ExactlyCounts(inp, LostIn(inp, |Survivors(inp)|) + (if RankingOk(inp) then [] else Payloads(inp)), Stage2Lost());
    if RankingOk(inp) {
      CutExact(inp);
      ExactlyCounts(inp, ReviewedIn(inp, inp.ranking.ids, |Payloads(inp)|), Is(Stage2Review));
      ExactlyCounts(inp, CutIn(inp, inp.ranking.ids, |Payloads(inp)|), Is(CutOff));
    } else {
      NoneExact(inp, Is(Stage2Review));
      NoneExact(inp, Is(CutOff));
    }
  }

  /** A published list: the entries at these places, rearranged. */
  lemma PublishedHolds(inp: Inputs, at: seq<nat>, p: Fate -> bool, list: seq<Item>)
    requires Shaped(inp) && Exactly(inp, at, p) && InRange(inp, at) && list == Items(inp, at)
    ensures Holds(list, inp, p) && Holds(Sort(list, ById()), inp, p)
  {
    ExactlyHolds(inp, at, p, list);
    SortPermutes(list, ById());
    ExactlyHolds(inp, at, p, Sort(list, ById()));
  }

  /** When nobody survives Stage 1 the later stages would have changed nothing. */
  lemma NobodySurvives(inp: Inputs)
    requires Shaped(inp) && Survivors(inp) == []
    ensures Payloads(inp) == [] && Chosen(inp) == [] && Ordered(inp) == []
    ensures FailedPlaces(inp) == RaisedIn(inp, |inp.ids|) && RejectedPlaces(inp) == RefusedIn(inp, |inp.ids|)
    ensures ReviewPlaces(inp) == [] && LeaderPlaces(inp) == []
    ensures FinalMetrics(inp) == RuledMetrics(inp, |inp.ids|)
  {
    if Chosen(inp) != [] {
      ChosenAre(inp, Chosen(inp)[0]);
    }
  }

  lemma NobodyToEvaluate(inp: Inputs, outcomes: map<int, Record>)
    requires Shaped(inp) && RecordsAre(inp, outcomes, 1, []) && Survivors(inp) == []
    ensures RecordsAre(inp, outcomes, 4, [])
  {
    SurvivorsAre(inp);
    forall i: nat | i < |inp.ids| ensures RecordAt(inp, i, 4) == RecordAt(inp, i, 1) {
      assert !Survives(inp, i);
    }
  }

  /** The stages are over and, for distinct candidates, have left what the fates say. */
  ghost predicate StagesOver(inp: Inputs, s: Screen)
    requires Shaped(inp)
    reads s
  {
    && RecordsAre(inp, s.outcomes, 4, [])
    && (Distinct(inp.ids) ==>
          && s.metrics == FinalMetrics(inp)
          && InRange(inp, FailedPlaces(inp)) && s.failed == Items(inp, FailedPlaces(inp))
          && InRange(inp, RejectedPlaces(inp)) && s.rejected == Items(inp, RejectedPlaces(inp))
          && InRange(inp, ReviewPlaces(inp)) && s.review == Items(inp, ReviewPlaces(inp))
          && InRange(inp, LeaderPlaces(inp)) && s.leaderboard == Items(inp, LeaderPlaces(inp)))
  }

  lemma FailedPublished(inp: Inputs, list: seq<Item>)
    requires Shaped(inp) && Distinct(inp.ids) && InRange(inp, FailedPlaces(inp)) && list == Items(inp, FailedPlaces(inp))
    ensures Holds(Sort(list, ById()), inp, InFailed())
  {
    FailedExact(inp);
    PublishedHolds(inp, FailedPlaces(inp), InFailed(), list);
  }

  lemma RejectedPublished(inp: Inputs, list: seq<Item>)
    requires Shaped(inp) && InRange(inp, RejectedPlaces(inp)) && list == Items(inp, RejectedPlaces(inp))
    ensures Holds(Sort(list, ById()), inp, InRejected())
  {
    RejectedExact(inp);
    PublishedHolds(inp, RejectedPlaces(inp), InRejected(), list);
  }

  lemma ReviewPublished(inp: Inputs, list: seq<Item>)
    requires Shaped(inp) && Distinct(inp.ids) && InRange(inp, ReviewPlaces(inp)) && list == Items(inp, ReviewPlaces(inp))
    ensures Holds(Sort(list, ById()), inp, InReview())
  {
    ReviewExact(inp);
    PublishedHolds(inp, ReviewPlaces(inp), InReview(), list);
  }

  lemma LeadersPublished(inp: Inputs, list: seq<Item>)
    requires Shaped(inp) && Distinct(inp.ids) && InRange(inp, LeaderPlaces(inp)) && list == Items(inp, LeaderPlaces(inp))
    ensures Holds(list, inp, InLeaderboard())
  {
    LeaderExact(inp);
    PublishedHolds(inp, LeaderPlaces(inp), InLeaderboard(), list);
  }

  lemma RecordsPublished(inp: Inputs, outcomes: map<int, Record>, entries: seq<Record>)
    requires Shaped(inp) && Distinct(inp.ids) && RecordsAre(inp, outcomes, 4, []) && |entries| == |inp.ids|
    requires forall i :: 0 <= i < |inp.ids| ==> inp.ids[i] in outcomes && entries[i] == outcomes[inp.ids[i]]
    ensures Recorded(inp, entries)
  {
    forall i: nat | i < |inp.ids| ensures entries[i] == RecordOf(inp, i) {
      assert RecordAt(inp, i, 4) == RecordOf(inp, i);
    }
  }

  lemma PublishedInOrder(list: seq<Item>)
    ensures Ascending(Sort(list, ById()))
  {
    SortSorts(list, ById());
    var sorted := Sort(list, ById());
    forall i, j | 0 <= i < j < |sorted| ensures sorted[i].id <= sorted[j].id {
      assert ById()(sorted[i], sorted[j]);
    }
  }

  lemma StagesAccount(inp: Inputs, s: Screen, r: RunResult)
    requires Shaped(inp) && Distinct(inp.ids) && StagesOver(inp, s)
    requires r.metrics == s.metrics.(accounted := |inp.ids|)
    requires r.leaderboard == s.leaderboard && r.rejected == Sort(s.rejected, ById())
    requires r.review == Sort(s.review, ById()) && r.failed == Sort(s.failed, ById())
    requires |r.outcomes| == |inp.ids|
    requires forall i :: 0 <= i < |inp.ids| ==> inp.ids[i] in s.outcomes && r.outcomes[i] == s.outcomes[inp.ids[i]]
    ensures Accounted(inp, r) && InPublicOrder(inp, r)
  {
    FinalMetricsAreCounts(inp);
    PublishedInOrder(s.rejected);
    PublishedInOrder(s.review);
    PublishedInOrder(s.failed);
    LeadersInOrder(inp, s.leaderboard);
    FailedPublished(inp, s.failed);
    RejectedPublished(inp, s.rejected);
    ReviewPublished(inp, s.review);
    LeadersPublished(inp, s.leaderboard);
    RecordsPublished(inp, s.outcomes, r.outcomes);
  }

  /** The entries of the outcome map in order, and how many of them have an outcome. */
  method CollectEntries(inp: Inputs, outcomes: map<int, Record>) returns (accounted: nat, entries: seq<Record>)
    requires Shaped(inp) && RecordsAre(inp, outcomes, 4, [])
    ensures |entries| == |InOrder(inp.ids)| && accounted <= |entries|
    ensures Distinct(inp.ids) ==>
              accounted == |entries| == |inp.ids|
              && forall i :: 0 <= i < |entries| ==> inp.ids[i] in outcomes && entries[i] == outcomes[inp.ids[i]]
  {
    var order := InOrder(inp.ids);
    InOrderIs(inp.ids);
    accounted, entries := 0, [];
    var k := 0;
    while k < |order|
      invariant 0 <= k <= |order| && accounted <= k && |entries| == k
      invariant Distinct(inp.ids) ==> accounted == k
      invariant forall i :: 0 <= i < k ==> order[i] in outcomes && entries[i] == outcomes[order[i]]
    {
      KeyInOrder(inp.ids, k);
      assert order[k] in outcomes.Keys;
      if Distinct(inp.ids) {
        assert RecordAt(inp, k, 4) == RecordOf(inp, k);
      }
      if outcomes[order[k]].outcome.Some? {
        accounted := accounted + 1;
      }
      entries := entries + [outcomes[order[k]]];
      k := k + 1;
    }
  }

  /** Publish the run, or refuse it when some candidate has no outcome of its own. */
  method Finish(inp: Inputs, s: Screen) returns (run: Run)
    requires Shaped(inp) && StagesOver(inp, s)
    modifies s
    ensures !Distinct(inp.ids) ==> run == Raised("Candidate accounting is incomplete")
    ensures Distinct(inp.ids) ==> run.Completed? && Accounted(inp, run.result) && InPublicOrder(inp, run.result)
  {
    var accounted, entries := CollectEntries(inp, s.outcomes);
    InOrderIs(inp.ids);
    var result := RunResult(s.metrics.(accounted := accounted), s.leaderboard, Sort(s.rejected, ById()),
                            Sort(s.review, ById()), Sort(s.failed, ById()), entries);
    if Distinct(inp.ids) {
      StagesAccount(inp, s, result);
    }
    s.metrics := s.metrics.(accounted := accounted);
    if accounted != |inp.ids| {
      return Raised("Candidate accounting is incomplete");
    }
    run := Completed(result);
  }

  /**
   * Run the pipeline. With a cutoff of 1 to 15, a profile, candidates, and (in production, once
   * somebody survives Stage 1) the postgres backend, the run completes exactly when the candidates
   * are distinct, and then every candidate is accounted for by its fate.
   */
  method RunPipeline(inp: Inputs) returns (run: Run)
    requires Shaped(inp)
    ensures !(1 <= inp.cutoff <= 15) ==> run == Raised("Stage 2 cutoff must be between 1 and 15")
    ensures 1 <= inp.cutoff <= 15 && (inp.ids == [] || !inp.hasProfile) ==>
              run == Completed(RunResult(NoMetrics(|inp.ids|), [], [], [], [], []))
    ensures 1 <= inp.cutoff <= 15 && inp.ids != [] && inp.hasProfile ==>
              if inp.production && !inp.postgres && (exists i :: 0 <= i < |inp.ids| && Through(inp, i))
              then run == Raised("Production Stage 2 requires STAGE2_BACKEND=postgres")
              else if !Distinct(inp.ids) then run == Raised("Candidate accounting is incomplete")
              else
                && run.Completed? && Accounted(inp, run.result)
                && RecordsTell(inp, run.result.outcomes) && ListsFollow(run.result) && InPublicOrder(inp, run.result)
  {
    SomebodyThrough(inp);
    if !(1 <= inp.cutoff <= 15) {
      return Raised("Stage 2 cutoff must be between 1 and 15");
    }
    if inp.ids == [] || !inp.hasProfile {
      return Completed(RunResult(NoMetrics(|inp.ids|), [], [], [], [], []));
    }
    var s := new Screen(inp);
    var survivors := s.FilterAll(inp);
    if survivors == [] {
      NobodySurvives(inp);
      NobodyToEvaluate(inp, s.outcomes);
      run := Finish(inp, s);
      Published(inp, run);
      return;
    }
    if inp.production && !inp.postgres {
      return Raised("Production Stage 2 requires STAGE2_BACKEND=postgres");
    }
    var payloads := s.ExtractAll(inp, survivors);
    RankAndEvaluate(inp, s, survivors, payloads);
    run := Finish(inp, s);
    Published(inp, run);
  }

  lemma SomebodyThrough(inp: Inputs)
    requires Shaped(inp)
    ensures Survivors(inp) != [] <==> exists i :: 0 <= i < |inp.ids| && Through(inp, i)
  {
    SurvivorsAre(inp);
    forall i: nat | i < |inp.ids| ensures Through(inp, i) <==> i in Survivors(inp) {
    }
    if Survivors(inp) != [] {
      assert Survivors(inp)[0] in Survivors(inp);
    }
  }

  lemma Published(inp: Inputs, run: Run)
    requires Shaped(inp)
    requires run.Completed? ==> Accounted(inp, run.result)
    ensures run.Completed? ==> RecordsTell(inp, run.result.outcomes) && ListsFollow(run.result)
  {
    if run.Completed? {
      AccountedMeans(inp, run.result);
    }
  }

  /** What the first two loops have left. */
  ghost predicate ExtractionLeft(inp: Inputs, s: Screen)
    requires Shaped(inp)
    reads s
  {
    && RecordsAre(inp, s.outcomes, 2, [])
    && s.metrics == RuledMetrics(inp, |inp.ids|).(stage2Failed := |LostIn(inp, |Survivors(inp)|)|)
    && s.leaderboard == [] && s.review == []
    && InRange(inp, RefusedIn(inp, |inp.ids|)) && s.rejected == Items(inp, RefusedIn(inp, |inp.ids|))
    && InRange(inp, RaisedIn(inp, |inp.ids|)) && InRange(inp, LostIn(inp, |Survivors(inp)|))
    && s.failed == Items(inp, RaisedIn(inp, |inp.ids|)) + Items(inp, LostIn(inp, |Survivors(inp)|))
  }

  /** What ranking and the cutoff have left. */
  ghost predicate RankingLeft(inp: Inputs, s: Screen)
    requires Shaped(inp)
    reads s
  {
    && RecordsAre(inp, s.outcomes, 3, [])
    && s.metrics == RankedMetrics(inp)
    && s.leaderboard == []
    && InRange(inp, EarlyReviews(inp)) && s.review == Items(inp, EarlyReviews(inp))
    && InRange(inp, RejectedPlaces(inp)) && s.rejected == Items(inp, RejectedPlaces(inp))
    && InRange(inp, EarlyFailures(inp)) && s.failed == Items(inp, EarlyFailures(inp))
  }

  lemma ItemsAppend(inp: Inputs, a: seq<nat>, b: seq<nat>)
    requires Shaped(inp) && InRange(inp, a) && InRange(inp, b)
    ensures InRange(inp, a + b) && Items(inp, a + b) == Items(inp, a) + Items(inp, b)
  {
  }

  method RankChosen(inp: Inputs, s: Screen, payloads: seq<nat>)
    requires Shaped(inp) && payloads == Payloads(inp) && ExtractionLeft(inp, s) && RankingOk(inp)
    modifies s
    ensures RankingLeft(inp, s)
  {
    s.metrics := s.metrics.(stage2Shortlisted := |inp.ranking.ids|);
    s.CutOthers(inp, payloads);
    ItemsAppend(inp, RefusedIn(inp, |inp.ids|), CutIn(inp, inp.ranking.ids, |payloads|));
    ItemsAppend(inp, RaisedIn(inp, |inp.ids|), LostIn(inp, |Survivors(inp)|));
    assert EarlyFailures(inp) == RaisedIn(inp, |inp.ids|) + LostIn(inp, |Survivors(inp)|);
  }

  method RankNobody(inp: Inputs, s: Screen, payloads: seq<nat>)
    requires Shaped(inp) && payloads == Payloads(inp) && ExtractionLeft(inp, s) && !RankingOk(inp)
    modifies s
    ensures RankingLeft(inp, s)
  {
    s.FailRanking(inp, payloads);
    s.metrics := s.metrics.(stage2Shortlisted := 0);
    ItemsAppend(inp, RaisedIn(inp, |inp.ids|), LostIn(inp, |Survivors(inp)|));
    ItemsAppend(inp, RaisedIn(inp, |inp.ids|) + LostIn(inp, |Survivors(inp)|), payloads);
    assert RejectedPlaces(inp) == RefusedIn(inp, |inp.ids|);
  }

  /** Rank, and send those left out to review or to the cutoff. */
  method Rank(inp: Inputs, s: Screen, payloads: seq<nat>) returns (chosen: seq<int>)
    requires Shaped(inp) && payloads == Payloads(inp) && ExtractionLeft(inp, s)
    modifies s
    ensures chosen == Chosen(inp) && RankingLeft(inp, s)
  {
    var valid := s.CheckShortlist(inp, payloads);
    if valid {
      RankChosen(inp, s, payloads);
      chosen := inp.ranking.ids;
    } else {
      RankNobody(inp, s, payloads);
      chosen := [];
    }
  }

  lemma EvaluationAccounts(inp: Inputs, review: seq<Item>, failed: seq<Item>, leaderboard': seq<Item>,
                           review': seq<Item>, failed': seq<Item>)
    requires Shaped(inp) && Distinct(inp.ids)
    requires InRange(inp, EarlyReviews(inp)) && review == Items(inp, EarlyReviews(inp))
    requires InRange(inp, EarlyFailures(inp)) && failed == Items(inp, EarlyFailures(inp))
    requires EvaluatedLists(inp, |Ordered(inp)|, [], review, failed, leaderboard', review', failed')
    ensures InRange(inp, FailedPlaces(inp)) && failed' == Items(inp, FailedPlaces(inp))
    ensures InRange(inp, ReviewPlaces(inp)) && review' == Items(inp, ReviewPlaces(inp))
    ensures InRange(inp, LeaderPlaces(inp)) && leaderboard' == Items(inp, LeaderPlaces(inp))
  {
    ListAccounts(inp, EarlyFailures(inp), EvaluationFailed, failed, failed');
    ListAccounts(inp, EarlyReviews(inp), ReviewRequired, review, review');
    ListAccounts(inp, [], Success, [], leaderboard');
    assert [] + VerdictIn(inp, Success, |Ordered(inp)|) == LeaderPlaces(inp);
  }

  lemma ListAccounts(inp: Inputs, early: seq<nat>, v: Verdict, start: seq<Item>, list: seq<Item>)
    requires Shaped(inp) && InRange(inp, early) && start == Items(inp, early)
    requires ListGrew(inp, v, |Ordered(inp)|, start, list)
    ensures var at := early + VerdictIn(inp, v, |Ordered(inp)|); InRange(inp, at) && list == Items(inp, at)
  {
    ItemsAppend(inp, early, VerdictIn(inp, v, |Ordered(inp)|));
  }

  /** Ranking, the cutoff, and Stage 3. */
  method RankAndEvaluate(inp: Inputs, s: Screen, survivors: seq<nat>, payloads: seq<nat>)
    requires Shaped(inp) && survivors == Survivors(inp) && payloads == Payloads(inp) && ExtractionLeft(inp, s)
    modifies s
    ensures StagesOver(inp, s)
  {
    var chosen := Rank(inp, s, payloads);
    ghost var review, failed := s.review, s.failed;
    s.EvaluateAll(inp, survivors, chosen);
    EvaluationOver(inp, s.outcomes);
    if Distinct(inp.ids) {
      EvaluationAccounts(inp, review, failed, s.leaderboard, s.review, s.failed);
    }
  }

  /**
   * Conservation: whatever filtering, extraction, ranking and evaluation return or raise, a run the
   * pipeline completes is accepted by the auditor exactly when it had a profile or no candidates,
   * and then every candidate has one outcome and one public entry.
   */
  method RunAndAudit(inp: Inputs) returns (run: Run)
    requires Shaped(inp)
    ensures run.Completed? ==> (AuditAccepts(run.result, inp.ids) <==> inp.hasProfile || inp.ids == [])
    ensures run.Completed? && inp.hasProfile ==>
              forall i :: 0 <= i < |inp.ids| ==> OneEntryEach(run.result, inp.ids[i])
  {
    run := RunPipeline(inp);
    if run.Completed? {
      if inp.ids == [] || !inp.hasProfile {
        EarlyReturn(inp, run.result);
      } else {
        AccountedIsAudited(inp, run.result);
      }
    }
  }

  function RecordFor(id: int): Record -> bool {
    (r: Record) => r.id == id
  }

  function ItemFor(id: int): Item -> bool {
    (x: Item) => x.id == id
  }

  function IdIs(id: int): int -> bool {
    (x: int) => x == id
  }

  /** A list as long as the set of its elements holds each of them once. */
  lemma {:induction false} CountsOnce(xs: seq<int>, id: int)
    requires Distinct(xs) && id in xs
    ensures Count(xs, IdIs(id)) == 1
  {
    var front, last := xs[..|xs| - 1], xs[|xs| - 1];
    if last == id {
      CountPositive(front, IdIs(id));
    } else {
      CountsOnce(front, id);
    }
  }

  lemma NoRoomForTwo(xs: seq<int>, ids: seq<int>)
    requires |xs| == |ids| && Distinct(ids) && SameIds(xs, ids)
    ensures Distinct(xs)
  {
    ElementsCount(xs);
    ElementsCount(ids);
    forall id: int ensures id in Elements(xs) <==> id in Elements(ids) {
      assert id in xs <==> id in ids;
    }
    assert Elements(xs) == Elements(ids);
  }

  lemma OnePlaceEach(r: RunResult, ids: seq<int>, i: nat)
    requires AuditAccepts(r, ids) && i < |ids|
    ensures Count(r.outcomes, RecordFor(ids[i])) == 1
    ensures Count(PublicItems(r), ItemFor(ids[i])) == 1
  {
    var owners, places := Map(r.outcomes, RecordId()), Map(PublicItems(r), ItemId());
    NoRoomForTwo(owners, ids);
    NoRoomForTwo(places, ids);
    CountsOnce(owners, ids[i]);
    CountsOnce(places, ids[i]);
    CountSame(r.outcomes, owners, RecordFor(ids[i]), IdIs(ids[i]));
    CountSame(PublicItems(r), places, ItemFor(ids[i]), IdIs(ids[i]));
  }

  /** The early return publishes nothing, which only an empty batch can account for. */
  lemma EarlyReturn(inp: Inputs, r: RunResult)
    requires Shaped(inp) && r == RunResult(NoMetrics(|inp.ids|), [], [], [], [], [])
    ensures AuditAccepts(r, inp.ids) <==> inp.ids == []
  {
    if inp.ids == [] {
      EmptyMetrics(inp);
      NothingHeld(inp, InLeaderboard());
      NothingHeld(inp, InRejected());
      NothingHeld(inp, InReview());
      NothingHeld(inp, InFailed());
      AuditorAcceptsAccountedRuns(inp, r);
    } else {
      assert !CandidatesMatch(r, inp.ids);
    }
  }

  lemma EmptyMetrics(inp: Inputs)
    requires Shaped(inp) && inp.ids == []
    ensures MetricsOf(inp) == NoMetrics(0)
  {
    assert Fates(inp) == [] && inp.filters == [];
  }

  lemma NothingHeld(inp: Inputs, p: Fate -> bool)
    requires Shaped(inp) && inp.ids == []
    ensures Holds([], inp, p)
  {
    assert Fates(inp) == [];
  }

  lemma AccountedIsAudited(inp: Inputs, r: RunResult)
    requires Shaped(inp) && Distinct(inp.ids) && Accounted(inp, r)
    ensures AuditAccepts(r, inp.ids)
    ensures forall i :: 0 <= i < |inp.ids| ==> OneEntryEach(r, inp.ids[i])
  {
    AuditorAcceptsAccountedRuns(inp, r);
    forall i | 0 <= i < |inp.ids| ensures OneEntryEach(r, inp.ids[i]) {
      OnePlaceEach(r, inp.ids, i);
    }
  }

  /** The candidate has one outcome, and one entry in the four public lists together. */
  ghost predicate OneEntryEach(r: RunResult, id: int) {
    Count(r.outcomes, RecordFor(id)) == 1 && Count(PublicItems(r), ItemFor(id)) == 1
  }
}

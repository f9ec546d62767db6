/**
 * The independent auditor of a completed run, and the theorem that it accepts every run the
 * pipeline completes over distinct candidates and a non-empty profile.
 */
module PipelineAudit {
  import opened Prelude
  import opened Pipeline

  function OutcomeIs(o: Outcome): Record -> bool {
    (r: Record) => r.outcome == Some(o)
  }

  function StageFailure(s: Stage): Record -> bool {
    (r: Record) => r.stage == Some(s)
                   && (r.outcome == Some(OutExtractionFailed) || r.outcome == Some(OutProcessingFailed))
  }

  function StageReview(s: Stage): Record -> bool {
    (r: Record) => r.stage == Some(s) && r.outcome == Some(OutReview)
  }

  function RuledReview(): Record -> bool {
    (r: Record) => exists e :: e in r.history && e.stage == Stage1 && e.status == Ruled(Review)
  }

  /** The details of the first Stage 1 event that has any. */
  function Stage1Details(history: seq<Event>): Option<Details> {
    if history == [] then None
    else if history[0].stage == Stage1 && history[0].details.Some? then history[0].details
    else Stage1Details(history[1..])
  }

  predicate MetadataOk(r: Record) {
    var d := Stage1Details(r.history);
    d.None? || (r.stage != Some(Stage2) && r.stage != Some(Stage3))
    || (&& r.snapshot.details == d
        && r.snapshot.reasons == Some(Reasons(d.value))
        && r.snapshot.required == Some(Reasons(d.value) != [])
        && (r.stage == Some(Stage3) ==>
              r.snapshot.provisional == Some(r.outcome == Some(OutSuccess) && Reasons(d.value) != [])))
  }

  function RecordId(): Record -> int {
    (r: Record) => r.id
  }

  function ItemId(): Item -> int {
    (x: Item) => x.id
  }

  function PublicItems(r: RunResult): seq<Item> {
    r.leaderboard + r.review + r.rejected + r.failed
  }

  ghost predicate SameIds(xs: seq<int>, ids: seq<int>) {
    forall id :: id in xs <==> id in ids
  }

  function OutcomeTotal(rs: seq<Record>): nat {
    Count(rs, OutcomeIs(OutSuccess)) + Count(rs, OutcomeIs(OutReview)) + Count(rs, OutcomeIs(OutEvaluationFailed))
    + Count(rs, OutcomeIs(OutFilterRejected)) + Count(rs, OutcomeIs(OutCutoffExcluded))
    + Count(rs, OutcomeIs(OutExtractionFailed)) + Count(rs, OutcomeIs(OutProcessingFailed))
  }

  // ----- the equations, grouped as the auditor's errors are

  ghost predicate CandidatesMatch(r: RunResult, ids: seq<int>) {
    && Distinct(ids) && |r.outcomes| == |ids|
    && SameIds(Map(r.outcomes, RecordId()), ids)
  }

  ghost predicate ListsReconcile(r: RunResult, ids: seq<int>) {
    && |PublicItems(r)| == |ids|
    && SameIds(Map(PublicItems(r), ItemId()), ids)
  }

  predicate OutcomesComplete(r: RunResult) {
    forall i :: 0 <= i < |r.outcomes| ==> r.outcomes[i].outcome.Some? && r.outcomes[i].stage.Some?
  }

  ghost predicate CountsReconcile(r: RunResult, n: nat) {
    var m, rs := r.metrics, r.outcomes;
    && m.totalInput == n
    && OutcomeTotal(rs) == n
    && m.stage3Succeeded == Count(rs, OutcomeIs(OutSuccess))
    && m.stage3Failed == Count(rs, OutcomeIs(OutEvaluationFailed))
    && m.stage0Failed == Count(rs, StageFailure(Stage0))
    && m.stage1Failed == Count(rs, StageFailure(Stage1))
    && m.stage2Failed == Count(rs, StageFailure(Stage2))
    && m.stage1Review == Count(rs, RuledReview())
    && m.stage3Review == Count(rs, StageReview(Stage3))
    && m.stage1Rejected == Count(rs, OutcomeIs(OutFilterRejected))
    && m.stage2Excluded == Count(rs, OutcomeIs(OutCutoffExcluded))
    && m.stage0Review == Count(rs, StageReview(Stage0))
    && m.stage2Review == Count(rs, StageReview(Stage2))
  }

  ghost predicate MetadataReconciles(r: RunResult) {
    forall i :: 0 <= i < |r.outcomes| ==> MetadataOk(r.outcomes[i])
  }

  predicate StagesReconcile(m: Metrics, n: nat) {
    && m.accounted == n
    && m.stage0Processed + m.stage0Failed + m.stage0Review == n
    && m.stage1Passed + m.stage1Rejected + m.stage1Review + m.stage1Failed == m.stage0Processed
    && m.stage2Shortlisted + m.stage2Excluded + m.stage2Failed + m.stage2Review == m.stage1Passed + m.stage1Review
    && m.stage3Succeeded + m.stage3Review + m.stage3Failed == m.stage3Evaluated
    && m.stage3Evaluated == m.stage2Shortlisted
  }

  /** The auditor raises nothing. */
  ghost predicate AuditAccepts(r: RunResult, ids: seq<int>) {
    && CandidatesMatch(r, ids)
    && ListsReconcile(r, ids)
    && OutcomesComplete(r)
    && CountsReconcile(r, |ids|)
    && MetadataReconciles(r)
    && StagesReconcile(r.metrics, |ids|)
  }

  // ----- counts over records are counts over fates

  function FateHasOutcome(o: Outcome): Fate -> bool {
    (f: Fate) => OutcomeOf(f) == o
  }

  function FateFailsAt(s: Stage): Fate -> bool {
    (f: Fate) => StageOf(f) == s && (OutcomeOf(f) == OutExtractionFailed || OutcomeOf(f) == OutProcessingFailed)
  }

  function FateReviewsAt(s: Stage): Fate -> bool {
    (f: Fate) => StageOf(f) == s && OutcomeOf(f) == OutReview
  }

  ghost predicate Recorded(inp: Inputs, rs: seq<Record>)
    requires Shaped(inp)
  {
    |rs| == |inp.ids| && forall i :: 0 <= i < |inp.ids| ==> rs[i] == RecordOf(inp, i)
  }

  lemma RecordCounts(inp: Inputs, rs: seq<Record>, o: Outcome, s: Stage)
    requires Shaped(inp) && Recorded(inp, rs)
    ensures Count(rs, OutcomeIs(o)) == Count(Fates(inp), FateHasOutcome(o))
    ensures Count(rs, StageFailure(s)) == Count(Fates(inp), FateFailsAt(s))
    ensures Count(rs, StageReview(s)) == Count(Fates(inp), FateReviewsAt(s))
  {
    forall i | 0 <= i < |rs|
      ensures OutcomeIs(o)(rs[i]) <==> FateHasOutcome(o)(Fates(inp)[i])
      ensures StageFailure(s)(rs[i]) <==> FateFailsAt(s)(Fates(inp)[i])
      ensures StageReview(s)(rs[i]) <==> FateReviewsAt(s)(Fates(inp)[i])
    {
      RecordFollowsFate(inp, i);
    }
    CountSame(rs, Fates(inp), OutcomeIs(o), FateHasOutcome(o));
    CountSame(rs, Fates(inp), StageFailure(s), FateFailsAt(s));
    CountSame(rs, Fates(inp), StageReview(s), FateReviewsAt(s));
  }

  lemma RecordFollowsFate(inp: Inputs, i: nat)
    requires Shaped(inp) && i < |inp.ids|
    ensures RecordOf(inp, i).outcome == Some(OutcomeOf(Fates(inp)[i]))
    ensures RecordOf(inp, i).stage == Some(StageOf(Fates(inp)[i]))
  {
  }

  lemma RuledReviewCount(inp: Inputs, rs: seq<Record>)
    requires Shaped(inp) && Recorded(inp, rs)
    ensures Count(rs, RuledReview()) == Count(inp.filters, HasStatus(Review))
  {
    forall i | 0 <= i < |rs| ensures RuledReview()(rs[i]) <==> HasStatus(Review)(inp.filters[i]) {
      ReviewEvent(inp, i);
    }
    CountSame(rs, inp.filters, RuledReview(), HasStatus(Review));
  }

  lemma ReviewEvent(inp: Inputs, i: nat)
    requires Shaped(inp) && i < |inp.ids|
    ensures RuledReview()(RecordOf(inp, i)) <==> HasStatus(Review)(inp.filters[i])
  {
    var r := RecordOf(inp, i);
    var opening, closing := OpeningHistory(inp.filters[i]), ClosingHistory(FateOf(inp, i));
    assert r.history == opening + closing;
    assert forall e :: e in closing ==> !e.status.Ruled?;
    if HasStatus(Review)(inp.filters[i]) {
      assert opening[1] in r.history;
    }
  }

  /** Each outcome the auditor counts comes from one kind of fate. */
  lemma FateCounts(fs: seq<Fate>)
    ensures Count(fs, FateHasOutcome(OutSuccess)) == Count(fs, Is(Evaluated(Success)))
    ensures Count(fs, FateHasOutcome(OutEvaluationFailed)) == Count(fs, Is(Evaluated(EvaluationFailed)))
    ensures Count(fs, FateHasOutcome(OutFilterRejected)) == Count(fs, Is(RuleRejected))
    ensures Count(fs, FateHasOutcome(OutCutoffExcluded)) == Count(fs, Is(CutOff))
    ensures Count(fs, FateFailsAt(Stage1)) == Count(fs, Is(RuleRaised))
    ensures Count(fs, FateFailsAt(Stage2)) == Count(fs, Stage2Lost())
    ensures Count(fs, FateReviewsAt(Stage2)) == Count(fs, Is(Stage2Review))
    ensures Count(fs, FateReviewsAt(Stage3)) == Count(fs, Is(Evaluated(ReviewRequired)))
    ensures Count(fs, FateFailsAt(Stage0)) == 0 && Count(fs, FateReviewsAt(Stage0)) == 0
  {
    CountSame(fs, fs, FateHasOutcome(OutSuccess), Is(Evaluated(Success)));
    CountSame(fs, fs, FateHasOutcome(OutEvaluationFailed), Is(Evaluated(EvaluationFailed)));
    CountSame(fs, fs, FateHasOutcome(OutFilterRejected), Is(RuleRejected));
    CountSame(fs, fs, FateHasOutcome(OutCutoffExcluded), Is(CutOff));
    CountSame(fs, fs, FateFailsAt(Stage1), Is(RuleRaised));
    CountSame(fs, fs, FateFailsAt(Stage2), Stage2Lost());
    CountSame(fs, fs, FateReviewsAt(Stage2), Is(Stage2Review));
    CountSame(fs, fs, FateReviewsAt(Stage3), Is(Evaluated(ReviewRequired)));
    CountPositive(fs, FateFailsAt(Stage0));
    CountPositive(fs, FateReviewsAt(Stage0));
  }

  lemma {:induction false} EvaluatedSum(fs: seq<Fate>)
    ensures Count(fs, WasEvaluated()) == Count(fs, Is(Evaluated(Success))) + Count(fs, Is(Evaluated(ReviewRequired)))
                                         + Count(fs, Is(Evaluated(EvaluationFailed)))
  {
    if fs != [] {
      EvaluatedSum(fs[..|fs| - 1]);
      OneList(fs[|fs| - 1]);
    }
  }

  lemma {:induction false} ListSum(fs: seq<Fate>)
    ensures Count(fs, InLeaderboard()) + Count(fs, InReview()) + Count(fs, InRejected()) + Count(fs, InFailed()) == |fs|
  {
    if fs != [] {
      ListSum(fs[..|fs| - 1]);
      OneList(fs[|fs| - 1]);
    }
  }

  /** Every fate has its place in exactly one public list. */
  lemma OneList(f: Fate)
    ensures InLeaderboard()(f) || InReview()(f) || InRejected()(f) || InFailed()(f)
    ensures !(InLeaderboard()(f) && InReview()(f)) && !(InLeaderboard()(f) && InFailed()(f))
    ensures f.Evaluated? ==> f == Evaluated(Success) || f == Evaluated(ReviewRequired) || f == Evaluated(EvaluationFailed)
  {
    match f
    case Evaluated(v) => assert v == Success || v == ReviewRequired || v == EvaluationFailed;
    case _ =>
  }

  lemma {:induction false} OutcomeTotalIsAll(rs: seq<Record>)
    requires forall i :: 0 <= i < |rs| ==> rs[i].outcome.Some?
    ensures OutcomeTotal(rs) == |rs|
  {
    if rs != [] {
      OutcomeTotalIsAll(rs[..|rs| - 1]);
      match rs[|rs| - 1].outcome.value
      case OutSuccess =>
      case OutReview =>
      case _ =>
    }
  }

  /** Stage 1 verdicts against fates: rejected, raised, or gone on to Stage 2. */
  lemma {:induction false} Stage1Sums(filters: seq<Filtering>, fs: seq<Fate>)
    requires |filters| == |fs|
    requires forall i :: 0 <= i < |fs| ==>
      (fs[i].RuleRaised? <==> filters[i].RulesRaised?)
      && (fs[i].RuleRejected? <==> filters[i].Rules? && filters[i].status == Fail)
    ensures Count(filters, HasStatus(Fail)) == Count(fs, Is(RuleRejected))
    ensures Count(filters, HasStatus(Pass)) + Count(filters, HasStatus(Review)) + Count(filters, HasStatus(Fail))
            + Count(fs, Is(RuleRaised)) == |fs|
    ensures Count(fs, WasEvaluated()) + Count(fs, Is(CutOff)) + Count(fs, Stage2Lost()) + Count(fs, Is(Stage2Review))
            == Count(filters, HasStatus(Pass)) + Count(filters, HasStatus(Review))
  {
    if fs != [] {
      var n := |fs| - 1;
      Stage1Sums(filters[..n], fs[..n]);
    }
  }

  lemma MetadataOfRecord(inp: Inputs, i: nat)
    requires Shaped(inp) && i < |inp.ids|
    ensures MetadataOk(RecordOf(inp, i))
  {
    var r, f := RecordOf(inp, i), FateOf(inp, i);
    var opening := OpeningHistory(inp.filters[i]);
    assert r.history[1..] == opening[1..] + ClosingHistory(f);
    assert r.history[1..][0] == opening[1];
    if inp.filters[i].Rules? {
      assert Stage1Details(r.history) == Some(inp.filters[i].details);
    }
  }

  // ----- the public lists

  lemma ListIds(inp: Inputs, list: seq<Item>, p: Fate -> bool, id: int)
    requires Shaped(inp) && Holds(list, inp, p)
    ensures (exists x :: x in list && x.id == id) <==>
            exists i :: 0 <= i < |inp.ids| && p(FateOf(inp, i)) && inp.ids[i] == id
  {
    if i :| 0 <= i < |inp.ids| && p(FateOf(inp, i)) && inp.ids[i] == id {
      assert ItemOf(inp, i) in list && ItemOf(inp, i).id == id;
    }
  }

  lemma PublicIds(inp: Inputs, r: RunResult)
    requires Shaped(inp) && Accounted(inp, r)
    ensures SameIds(Map(PublicItems(r), ItemId()), inp.ids)
  {
    var all := PublicItems(r);
    var mapped := Map(all, ItemId());
    forall id ensures id in mapped <==> id in inp.ids {
      ListIds(inp, r.leaderboard, InLeaderboard(), id);
      ListIds(inp, r.review, InReview(), id);
      ListIds(inp, r.rejected, InRejected(), id);
      ListIds(inp, r.failed, InFailed(), id);
      assert (exists x :: x in all && x.id == id) <==> id in inp.ids by {
        if i :| 0 <= i < |inp.ids| && inp.ids[i] == id {
          OneList(FateOf(inp, i));
        }
      }
      MapMember(all, ItemId(), id);
    }
  }

  lemma MapMember<S, T>(xs: seq<S>, f: S -> T, y: T)
    ensures y in Map(xs, f) <==> exists x :: x in xs && f(x) == y
  {
    if x :| x in xs && f(x) == y {
      var i :| 0 <= i < |xs| && xs[i] == x;
      assert Map(xs, f)[i] == y;
    }
  }

  // ----- the theorem

  lemma CountsAudit(inp: Inputs, r: RunResult)
    requires Shaped(inp) && Accounted(inp, r)
    ensures CountsReconcile(r, |inp.ids|) && StagesReconcile(r.metrics, |inp.ids|)
  {
    var fs, rs := Fates(inp), r.outcomes;
    FateCounts(fs);
    EvaluatedSum(fs);
    Stage1Sums(inp.filters, fs);
    OutcomeTotalIsAll(rs);
    RuledReviewCount(inp, rs);
    RecordCounts(inp, rs, OutSuccess, Stage0);
    RecordCounts(inp, rs, OutEvaluationFailed, Stage1);
    RecordCounts(inp, rs, OutFilterRejected, Stage2);
    RecordCounts(inp, rs, OutCutoffExcluded, Stage3);
  }

  lemma OutcomeIds(inp: Inputs, r: RunResult)
    requires Shaped(inp) && Accounted(inp, r)
    ensures SameIds(Map(r.outcomes, RecordId()), inp.ids)
  {
    var mapped := Map(r.outcomes, RecordId());
    assert |mapped| == |inp.ids| && forall i :: 0 <= i < |mapped| ==> mapped[i] == inp.ids[i];
    assert mapped == inp.ids;
  }

  lemma PublicCount(inp: Inputs, r: RunResult)
    requires Shaped(inp) && Accounted(inp, r)
    ensures |PublicItems(r)| == |inp.ids|
  {
    ListSum(Fates(inp));
  }

  lemma RecordsAudit(inp: Inputs, r: RunResult)
    requires Shaped(inp) && Accounted(inp, r)
    ensures OutcomesComplete(r) && MetadataReconciles(r)
  {
    forall i | 0 <= i < |r.outcomes| ensures MetadataOk(r.outcomes[i]) {
      MetadataOfRecord(inp, i);
    }
  }

  /** Every completed run over distinct candidates satisfies every equation of the auditor. */
  lemma AuditorAcceptsAccountedRuns(inp: Inputs, r: RunResult)
    requires Shaped(inp) && Distinct(inp.ids) && Accounted(inp, r)
    ensures AuditAccepts(r, inp.ids)
  {
    CountsAudit(inp, r);
    PublicIds(inp, r);
    PublicCount(inp, r);
    RecordsAudit(inp, r);
    OutcomeIds(inp, r);
  }
}

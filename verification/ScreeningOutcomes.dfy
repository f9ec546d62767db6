/**
 * What a completed run publishes, read off its inputs: where each candidate ends, what its entry
 * carries, which list it is in, and the order of every list.
 */
module ScreeningOutcomes {
  import opened Prelude
  import opened Sorting
  import opened Pipeline
  import opened Screening

  // ----- what the external calls say of a candidate

  ghost predicate Through(inp: Inputs, i: nat)
    requires Shaped(inp) && i < |inp.ids|
  {
    inp.filters[i].Rules? && (inp.filters[i].status.Pass? || inp.filters[i].status.Review?)
  }

  /** Extraction returned a payload that names the candidate as its owner. */
  ghost predicate OwnPayload(inp: Inputs, i: nat)
    requires Shaped(inp) && i < |inp.ids|
  {
    Through(inp, i) && inp.extractions[i].Extracted? && inp.extractions[i].owner == inp.ids[i]
  }

  ghost predicate HasPayload(inp: Inputs, id: int)
    requires Shaped(inp)
  {
    exists i :: 0 <= i < |inp.ids| && inp.ids[i] == id && OwnPayload(inp, i)
  }

  /** Ranking returned, without repeats, candidates that have a payload. */
  ghost predicate GoodShortlist(inp: Inputs)
    requires Shaped(inp)
  {
    && inp.ranking.Shortlist?
    && (forall a, b :: 0 <= a < b < |inp.ranking.ids| ==> inp.ranking.ids[a] != inp.ranking.ids[b])
    && (forall a :: 0 <= a < |inp.ranking.ids| ==> HasPayload(inp, inp.ranking.ids[a]))
  }

  ghost predicate Listed(inp: Inputs, i: nat)
    requires Shaped(inp) && i < |inp.ids|
  {
    OwnPayload(inp, i) && GoodShortlist(inp) && inp.ids[i] in inp.ranking.ids
  }

  ghost predicate Passed(inp: Inputs, i: nat)
    requires Shaped(inp) && i < |inp.ids|
  {
    OwnPayload(inp, i) && GoodShortlist(inp) && inp.ids[i] !in inp.ranking.ids
  }

  /** The result at `k` is the last one returned for the candidate. */
  ghost predicate LastFor(results: seq<Evaluation>, id: int, k: nat) {
    k < |results| && results[k].id == id && forall m :: k < m < |results| ==> results[m].id != id
  }

  ghost predicate Judged(inp: Inputs, id: int, v: Verdict) {
    inp.batch.Returned? && exists k: nat :: LastFor(inp.batch.results, id, k) && inp.batch.results[k].verdict == v
  }

  ghost predicate Unjudged(inp: Inputs, id: int) {
    inp.batch.Returned? ==> forall k :: 0 <= k < |inp.batch.results| ==> inp.batch.results[k].id != id
  }

  // ----- where each candidate ends

  ghost predicate EndsAs(inp: Inputs, i: nat, o: Outcome, s: Stage)
    requires Shaped(inp) && i < |inp.ids|
  {
    match o
    case OutFilterRejected => s.Stage1? && inp.filters[i].Rules? && inp.filters[i].status.Fail?
    case OutProcessingFailed =>
      || (s.Stage1? && inp.filters[i].RulesRaised?)
      || (s.Stage2? && OwnPayload(inp, i) && !GoodShortlist(inp))
    case OutExtractionFailed => s.Stage2? && Through(inp, i) && !OwnPayload(inp, i)
    case OutCutoffExcluded =>
      s.Stage2? && Passed(inp, i) && !inp.extractions[i].relevanceReview && inp.extractions[i].currentVersion
    case OutReview =>
      || (s.Stage2? && Passed(inp, i) && (inp.extractions[i].relevanceReview || !inp.extractions[i].currentVersion))
      || (s.Stage3? && Listed(inp, i) && Judged(inp, inp.ids[i], ReviewRequired))
    case OutSuccess => s.Stage3? && Listed(inp, i) && Judged(inp, inp.ids[i], Success)
    case OutEvaluationFailed =>
      s.Stage3? && Listed(inp, i) && (Unjudged(inp, inp.ids[i]) || Judged(inp, inp.ids[i], EvaluationFailed))
  }

  /** Rule uncertainty goes with everybody past Stage 1; only Stage 3 says whether a success is provisional. */
  ghost predicate Carries(inp: Inputs, i: nat, x: Snapshot, o: Outcome, s: Stage)
    requires Shaped(inp) && i < |inp.ids|
  {
    if s.Stage1? then x.details.None? && x.reasons.None? && x.required.None? && x.provisional.None?
    else
      && inp.filters[i].Rules?
      && var checks := inp.filters[i].details.checks;
         var open := exists k :: 0 <= k < |checks| && checks[k].review;
      && x.details == Some(inp.filters[i].details)
      && x.reasons.Some? && (forall c :: c in x.reasons.value <==> c in checks && c.review)
      && x.required == Some(open)
      && x.provisional == (if s.Stage3? then Some(o.OutSuccess? && open) else None)
  }

  /** Both readings of the candidate are in the history, then whether it had evidence, then how it ended. */
  ghost predicate Traced(inp: Inputs, i: nat, history: seq<Event>, o: Outcome, s: Stage)
    requires Shaped(inp) && i < |inp.ids|
  {
    && |history| >= 2 && history[0] == Event(Stage0, Processed, None)
    && history[1] == (if inp.filters[i].RulesRaised? then Event(Stage1, Failed, None)
                      else Event(Stage1, Ruled(inp.filters[i].status), Some(inp.filters[i].details)))
    && history[2..] ==
         (if OwnPayload(inp, i) then [Event(Stage2, WithEvidence, None)] else [])
         + (if s.Stage1? then []
            else if o.OutProcessingFailed? || o.OutExtractionFailed? then [Event(s, Failed, None)]
            else [Event(s, Became(o), None)])
  }

  // ----- the published lists

  /** The list publishes exactly the candidates with one of these outcomes, with the snapshot of their records. */
  ghost predicate Publishes(list: seq<Item>, rs: seq<Record>, outcomes: set<Outcome>) {
    && (forall x :: x in list ==> exists i :: 0 <= i < |rs| && Publishable(rs[i], outcomes) && x == Item(rs[i].id, rs[i].snapshot))
    && (forall i :: 0 <= i < |rs| && Publishable(rs[i], outcomes) ==> Item(rs[i].id, rs[i].snapshot) in list)
  }

  ghost predicate Publishable(r: Record, outcomes: set<Outcome>) {
    r.outcome.Some? && r.outcome.value in outcomes
  }

  ghost predicate Ascending(list: seq<Item>) {
    forall i, j :: 0 <= i < j < |list| ==> list[i].id <= list[j].id
  }

  /** Whoever stands before another has the better score, or the same score and the smaller id. */
  ghost predicate BestFirst(inp: Inputs, board: seq<Item>) {
    inp.batch.Returned? ==>
      forall i, j, k: nat, m: nat ::
        0 <= i < j < |board| && LastFor(inp.batch.results, board[i].id, k) && LastFor(inp.batch.results, board[j].id, m) ==>
          || inp.batch.results[k].score > inp.batch.results[m].score
          || (inp.batch.results[k].score == inp.batch.results[m].score && board[i].id <= board[j].id)
  }

  ghost predicate InPublicOrder(inp: Inputs, r: RunResult) {
    Ascending(r.rejected) && Ascending(r.review) && Ascending(r.failed) && BestFirst(inp, r.leaderboard)
  }

  // ----- fates against the inputs

  lemma ShortlistMeans(inp: Inputs)
    requires Shaped(inp)
    ensures RankingOk(inp) <==> GoodShortlist(inp)
  {
    forall id ensures id in PayloadIds(inp) <==> HasPayload(inp, id) {
      PayloadMeans(inp, id);
    }
    if inp.ranking.Shortlist? {
      assert GoodShortlist(inp) ==> Distinct(inp.ranking.ids);
      forall a | 0 <= a < |inp.ranking.ids| ensures inp.ranking.ids[a] in inp.ranking.ids {
      }
    }
  }

  lemma PayloadMeans(inp: Inputs, id: int)
    requires Shaped(inp)
    ensures id in PayloadIds(inp) <==> HasPayload(inp, id)
  {
    PayloadsAre(inp);
    var ps := Payloads(inp);
    if id in PayloadIds(inp) {
      var k :| 0 <= k < |ps| && PayloadIds(inp)[k] == id;
      assert ps[k] in ps;
      assert OwnPayload(inp, ps[k]);
    }
    if i: nat :| i < |inp.ids| && inp.ids[i] == id && OwnPayload(inp, i) {
      assert i in ps;
      var k :| 0 <= k < |ps| && ps[k] == i;
      assert PayloadIds(inp)[k] == id;
    }
  }

  /** The evaluation taken for a candidate is the last returned for it, or a failed one when none was. */
  lemma {:induction false} EvaluationIsLast(results: seq<Evaluation>, id: int)
    ensures (exists k: nat :: LastFor(results, id, k) && EvaluationFor(results, id) == results[k])
            || ((forall k :: 0 <= k < |results| ==> results[k].id != id)
                && EvaluationFor(results, id) == Evaluation(id, EvaluationFailed, 0))
  {
    if results != [] {
      var n: nat := |results| - 1;
      var front := results[..n];
      if results[n].id == id {
        assert LastFor(results, id, n);
      } else {
        EvaluationIsLast(front, id);
        if k: nat :| LastFor(front, id, k) && EvaluationFor(front, id) == front[k] {
          assert LastFor(results, id, k) && results[k] == front[k];
        }
      }
    }
  }

  lemma OneLast(results: seq<Evaluation>, id: int, k: nat, m: nat)
    requires LastFor(results, id, k) && LastFor(results, id, m)
    ensures k == m
  {
  }

  lemma VerdictMeans(inp: Inputs, id: int, v: Verdict)
    ensures EvaluationFor(Results(inp), id).verdict == v <==>
              Judged(inp, id, v) || (v.EvaluationFailed? && Unjudged(inp, id))
  {
    var results := Results(inp);
    EvaluationIsLast(results, id);
    if inp.batch.Returned? {
      if k: nat :| LastFor(results, id, k) && EvaluationFor(results, id) == results[k] {
        forall m: nat | LastFor(results, id, m) ensures m == k {
          OneLast(results, id, k, m);
        }
        assert !Unjudged(inp, id);
      }
    }
  }

  lemma FateEnds(inp: Inputs, i: nat, o: Outcome, s: Stage)
    requires Shaped(inp) && i < |inp.ids|
    ensures EndsAs(inp, i, o, s) <==> OutcomeOf(FateOf(inp, i)) == o && StageOf(FateOf(inp, i)) == s
  {
    ShortlistMeans(inp);
    var id := inp.ids[i];
    VerdictMeans(inp, id, Success);
    VerdictMeans(inp, id, ReviewRequired);
    VerdictMeans(inp, id, EvaluationFailed);
    assert OwnPayload(inp, i) <==> Survives(inp, i) && HasEvidence(inp, i);
  }

  lemma SnapshotCarries(inp: Inputs, i: nat)
    requires Shaped(inp) && i < |inp.ids|
    ensures var f := FateOf(inp, i); Carries(inp, i, SnapshotOf(f, inp.filters[i]), OutcomeOf(f), StageOf(f))
  {
    if inp.filters[i].Rules? && inp.filters[i].status != Fail {
      var d := inp.filters[i].details;
      FilterMembers(d.checks, IsReview());
      if Reasons(d) != [] {
        assert Reasons(d)[0] in Reasons(d);
      }
    }
  }

  lemma HistoryTraced(inp: Inputs, i: nat)
    requires Shaped(inp) && i < |inp.ids|
    ensures var f := FateOf(inp, i);
      Traced(inp, i, OpeningHistory(inp.filters[i]) + ClosingHistory(f), OutcomeOf(f), StageOf(f))
  {
    var f := FateOf(inp, i);
    var history := OpeningHistory(inp.filters[i]) + ClosingHistory(f);
    assert history[2..] == ClosingHistory(f);
    assert OwnPayload(inp, i) <==> !(f.RuleRaised? || f.RuleRejected? || f.ExtractionRaised?);
  }

  /** The record of a candidate says where it ended, what was left open, and how it got there. */
  ghost predicate TellsOf(inp: Inputs, i: nat, r: Record)
    requires Shaped(inp) && i < |inp.ids|
  {
    && r.id == inp.ids[i]
    && r.outcome.Some? && r.stage.Some?
    && (forall o, s :: EndsAs(inp, i, o, s) <==> r.outcome == Some(o) && r.stage == Some(s))
    && Carries(inp, i, r.snapshot, r.outcome.value, r.stage.value)
    && Traced(inp, i, r.history, r.outcome.value, r.stage.value)
  }

  ghost predicate RecordsTell(inp: Inputs, rs: seq<Record>)
    requires Shaped(inp)
  {
    |rs| == |inp.ids| && forall i :: 0 <= i < |rs| ==> TellsOf(inp, i, rs[i])
  }

  ghost predicate ListsFollow(r: RunResult) {
    && Publishes(r.leaderboard, r.outcomes, {OutSuccess})
    && Publishes(r.review, r.outcomes, {OutReview})
    && Publishes(r.rejected, r.outcomes, {OutFilterRejected, OutCutoffExcluded})
    && Publishes(r.failed, r.outcomes, {OutProcessingFailed, OutExtractionFailed, OutEvaluationFailed})
  }

  lemma RecordTells(inp: Inputs, i: nat)
    requires Shaped(inp) && i < |inp.ids|
    ensures TellsOf(inp, i, RecordOf(inp, i))
  {
    forall o, s ensures EndsAs(inp, i, o, s) <==> OutcomeOf(FateOf(inp, i)) == o && StageOf(FateOf(inp, i)) == s {
      FateEnds(inp, i, o, s);
    }
    SnapshotCarries(inp, i);
    HistoryTraced(inp, i);
  }

  lemma HeldIsPublished(inp: Inputs, r: RunResult, list: seq<Item>, p: Fate -> bool, outcomes: set<Outcome>)
    requires Shaped(inp) && Accounted(inp, r) && Holds(list, inp, p)
    requires forall f: Fate :: p(f) <==> OutcomeOf(f) in outcomes
    ensures Publishes(list, r.outcomes, outcomes)
  {
    var rs := r.outcomes;
    forall i | 0 <= i < |rs|
      ensures Publishable(rs[i], outcomes) <==> p(FateOf(inp, i))
      ensures Item(rs[i].id, rs[i].snapshot) == ItemOf(inp, i)
    {
      assert rs[i] == RecordOf(inp, i);
    }
  }

  lemma RecordsTellAll(inp: Inputs, rs: seq<Record>)
    requires Shaped(inp) && |rs| == |inp.ids| && forall i :: 0 <= i < |inp.ids| ==> rs[i] == RecordOf(inp, i)
    ensures RecordsTell(inp, rs)
  {
    forall i | 0 <= i < |rs| ensures TellsOf(inp, i, rs[i]) {
      RecordTells(inp, i);
    }
  }

  lemma EvaluatedFollow(inp: Inputs, r: RunResult)
    requires Shaped(inp) && Accounted(inp, r)
    ensures Publishes(r.leaderboard, r.outcomes, {OutSuccess})
    ensures Publishes(r.review, r.outcomes, {OutReview})
  {
    HeldIsPublished(inp, r, r.leaderboard, InLeaderboard(), {OutSuccess});
    HeldIsPublished(inp, r, r.review, InReview(), {OutReview});
  }

  lemma RejectedFollow(inp: Inputs, r: RunResult)
    requires Shaped(inp) && Accounted(inp, r)
    ensures Publishes(r.rejected, r.outcomes, {OutFilterRejected, OutCutoffExcluded})
  {
    HeldIsPublished(inp, r, r.rejected, InRejected(), {OutFilterRejected, OutCutoffExcluded});
  }

  lemma FailedFollow(inp: Inputs, r: RunResult)
    requires Shaped(inp) && Accounted(inp, r)
    ensures Publishes(r.failed, r.outcomes, {OutProcessingFailed, OutExtractionFailed, OutEvaluationFailed})
  {
    HeldIsPublished(inp, r, r.failed, InFailed(), {OutProcessingFailed, OutExtractionFailed, OutEvaluationFailed});
  }

  /** Accounting by fates, read off the inputs. */
  lemma AccountedMeans(inp: Inputs, r: RunResult)
    requires Shaped(inp) && Accounted(inp, r)
    ensures RecordsTell(inp, r.outcomes) && ListsFollow(r)
  {
    RecordsTellAll(inp, r.outcomes);
    EvaluatedFollow(inp, r);
    RejectedFollow(inp, r);
    FailedFollow(inp, r);
  }

  // ----- the order of the leaderboard

  lemma EvaluationsInOrder(inp: Inputs)
    ensures SortedBy(Ordered(inp), EvaluationBefore)
  {
    SortSorts(Finals(inp), EvaluationBefore);
  }

  /** Successes are listed as the evaluations were ordered. */
  lemma LeadersInOrder(inp: Inputs, board: seq<Item>)
    requires Shaped(inp) && Distinct(inp.ids)
    requires InRange(inp, VerdictIn(inp, Success, |Ordered(inp)|))
    requires board == Items(inp, VerdictIn(inp, Success, |Ordered(inp)|))
    ensures BestFirst(inp, board)
  {
    var all := Ordered(inp);
    assert all[..|all|] == all;
    var es := Filter(all, VerdictIs(Success));
    EvaluationsInOrder(inp);
    FilterSorted(all, VerdictIs(Success), EvaluationBefore);
    OrderedAre(inp);
    FilterMembers(all, VerdictIs(Success));
    forall i | 0 <= i < |board|
      ensures es[i].verdict == Success && board[i].id == es[i].id && es[i] == EvaluationFor(Results(inp), board[i].id)
    {
      assert es[i] in es;
      EvaluatedIs(inp, es[i]);
    }
    forall i, j, k: nat, m: nat | inp.batch.Returned? && 0 <= i < j < |board|
                                  && LastFor(inp.batch.results, board[i].id, k) && LastFor(inp.batch.results, board[j].id, m)
      ensures inp.batch.results[k] == es[i] && inp.batch.results[m] == es[j] && EvaluationBefore(es[i], es[j])
    {
      LastIsTaken(inp.batch.results, board[i].id, k);
      LastIsTaken(inp.batch.results, board[j].id, m);
    }
  }

  lemma LastIsTaken(results: seq<Evaluation>, id: int, k: nat)
    requires LastFor(results, id, k)
    ensures EvaluationFor(results, id) == results[k]
  {
    EvaluationIsLast(results, id);
    if m: nat :| LastFor(results, id, m) && EvaluationFor(results, id) == results[m] {
      OneLast(results, id, k, m);
    }
  }
}

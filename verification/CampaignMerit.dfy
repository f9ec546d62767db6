/**
 * What the barrier of a JD decides, on the scores themselves: ranks follow the scores, the shortlist is
 * the best of the fit candidates, and no later step of any actor changes either.
 */
module CampaignMerit {
  import opened Prelude
  import opened Ranking
  import opened CampaignState
  import opened CampaignInvariant
  import opened CampaignProtocol
  import opened CampaignSafety
  import opened CampaignTransactions

  /** The stored evidence and the candidate of a pair. */
  ghost predicate Holding(db: Db, p: nat, c: Candidate) {
    && p < |db.pairs| && db.pairs[p].evidence == Some(c.evidence)
    && db.pairs[p].cv < |db.cvs| && db.cvs[db.pairs[p].cv].candidate == c.id
  }

  /** A pair that holds a rank after the barrier, and its place in the ranked pool. */
  lemma PlaceOf(cfg: Settings, db: Db, j: nat, p: nat) returns (i: nat)
    requires DbOk(cfg, db) && j < |db.jds| && Finalizes(db, j)
    requires p < |FinalizeJd(db, j).pairs| && FinalizeJd(db, j).pairs[p].jd == j && FinalizeJd(db, j).pairs[p].rank.Some?
    ensures var rows, db' := BarrierRows(db, j), FinalizeJd(db, j);
      && i < |rows| && Holding(db', p, rows[i]) && db'.pairs[p].rank == Some(i + 1)
      && (Selected(db'.pairs[p]) <==> VerdictAt(rows, BarrierCap(db.jds[j].cap), i) == Shortlist)
  {
    var rows, cap := BarrierRows(db, j), BarrierCap(db.jds[j].cap);
    i := PlaceInPool(cfg, db, j, p, rows, Verdicts(rows, cap));
    PlacedRow(db, j, rows, i);
    FinalizeWrites(db, j);
    DecidedRow(cfg, db, p, i + 1, VerdictAt(rows, cap, i), rows[i].evidence);
  }

  lemma PlaceInPool(cfg: Settings, db: Db, j: nat, p: nat, rows: seq<Candidate>, verdicts: seq<Verdict>) returns (i: nat)
    requires DbOk(cfg, db) && j < |db.jds| && Finalizes(db, j) && rows == BarrierRows(db, j)
    requires verdicts == Verdicts(rows, BarrierCap(db.jds[j].cap))
    requires p < |FinalizeJd(db, j).pairs| && FinalizeJd(db, j).pairs[p].jd == j && FinalizeJd(db, j).pairs[p].rank.Some?
    ensures p < |db.pairs| && i < |rows| && rows[i].pair == p
    ensures FinalizeJd(db, j).pairs[p] == DecideAt(db.pairs, rows, verdicts, i)
  {
    RankedPool(db, j);
    FinalizeWrites(db, j);
    assert RowOk(cfg, db, db.pairs[p]);
    i := PlaceAmong(db.pairs, rows, verdicts, j, p);
  }

  lemma DecidedRow(cfg: Settings, db: Db, p: nat, rank: nat, verdict: Verdict, e: Evidence)
    requires RowsOk(cfg, db) && p < |db.pairs| && db.pairs[p].status.Stage2Ready?
    ensures var r, r' := db.pairs[p], Decide(db.pairs[p], rank, verdict, e);
      && r'.rank == Some(rank) && r'.evidence == r.evidence && r'.cv == r.cv
      && (Selected(r') <==> verdict.Shortlist?)
  {
    assert RowOk(cfg, db, db.pairs[p]);
  }

  lemma PlaceAmong(pairs: seq<PairRow>, rows: seq<Candidate>, verdicts: seq<Verdict>, j: nat, p: nat) returns (i: nat)
    requires |rows| == |verdicts| && DistinctPool(pairs, rows) && p < |pairs|
    requires pairs[p].jd == j ==> pairs[p].rank.None?
    requires var r := RankRows(pairs, rows, verdicts, |rows|)[p]; r.jd == j && r.rank.Some?
    ensures i < |rows| && rows[i].pair == p
    ensures RankRows(pairs, rows, verdicts, |rows|)[p] == DecideAt(pairs, rows, verdicts, i)
  {
    RankRowsChanges(pairs, rows, verdicts, |rows|);
    assert Ranks(rows, |rows|, p);
    i :| i < |rows| && rows[i].pair == p;
  }

  lemma PlacedRow(db: Db, j: nat, rows: seq<Candidate>, i: nat)
    requires Shape(db) && j < |db.jds| && rows == BarrierRows(db, j) && i < |rows|
    ensures Holding(db, rows[i].pair, rows[i]) && db.pairs[rows[i].pair].status == Stage2Ready
  {
    RankedPool(db, j);
  }

  /** Two ranked pairs at the moment the barrier commits. */
  lemma CommittedByMerit(cfg: Settings, db: Db, j: nat, p: nat, q: nat, c: Candidate, d: Candidate)
    requires DbOk(cfg, db) && j < |db.jds| && Finalizes(db, j)
    requires var db' := FinalizeJd(db, j);
      && Holding(db', p, c) && db'.pairs[p].jd == j && db'.pairs[p].rank.Some?
      && Holding(db', q, d) && db'.pairs[q].jd == j && db'.pairs[q].rank.Some?
    ensures var r, s := FinalizeJd(db, j).pairs[p], FinalizeJd(db, j).pairs[q];
      && (r.rank.value < s.rank.value ==> Outranks(c, d))
      && (Selected(r) ==> Eligible(c.evidence))
      && (Selected(r) && !Selected(s) && Eligible(d.evidence) ==> r.rank.value < s.rank.value)
  {
    var rows, cap := BarrierRows(db, j), BarrierCap(db.jds[j].cap);
    var i := PlaceOf(cfg, db, j, p);
    var k := PlaceOf(cfg, db, j, q);
    assert c.evidence == rows[i].evidence && c.id == rows[i].id && d.evidence == rows[k].evidence && d.id == rows[k].id;
    var pool := Pool(db, j, |db.pairs|);
    if i < k {
      RankedByMerit(pool, i, k);
    }
    if VerdictAt(rows, cap, k) == Exclude {
      ExclusionOnlyWhenFull(pool, cap, i, k);
    }
  }

  // ----- the transaction itself, for any tables

  ghost predicate ReadyFor(db: Db, j: nat, p: nat) {
    p < |db.pairs| && db.pairs[p].jd == j && db.pairs[p].status.Stage2Ready?
    && db.pairs[p].evidence.Some? && db.pairs[p].cv < |db.cvs|
  }

  ghost predicate FitFor(e: Evidence) {
    e.currentVersion && e.shortlistEligible && 0.0 < e.score <= 1.0
  }

  /**
   * What a barrier makes of two ready pairs: both get ranks, the smaller one to the better score, then the
   * higher responsibility coverage, applied coverage, the earlier candidate; unfit ones go to review, and a fit
   * one is cut only behind every shortlisted one.
   */
  ghost predicate DecidedOnMerit(db: Db, db': Db, p: nat, q: nat)
    requires p < |db.pairs| == |db'.pairs| && q < |db.pairs|
    requires db.pairs[p].evidence.Some? && db.pairs[p].cv < |db.cvs|
    requires db.pairs[q].evidence.Some? && db.pairs[q].cv < |db.cvs|
  {
    var r, s, r', s' := db.pairs[p], db.pairs[q], db'.pairs[p], db'.pairs[q];
    var e, f := r.evidence.value, s.evidence.value;
    && r'.rank.Some? && s'.rank.Some?
    && (r'.rank.value < s'.rank.value ==>
          && e.score >= f.score
          && (e.score == f.score ==> e.responsibility >= f.responsibility)
          && (e.score == f.score && e.responsibility == f.responsibility ==> e.applied >= f.applied)
          && (e.score == f.score && e.responsibility == f.responsibility && e.applied == f.applied ==>
                db.cvs[r.cv].candidate <= db.cvs[s.cv].candidate))
    && (r'.status.Shortlisted? || r'.status.CutoffExcluded? || r'.status.ReviewRequired?)
    && (r'.status.ReviewRequired? <==> !FitFor(e))
    && (r'.status.Shortlisted? && s'.status.CutoffExcluded? ==> r'.rank.value < s'.rank.value && e.score >= f.score)
  }

  ghost predicate RankedOnMerit(db: Db, db': Db, j: nat) {
    |db'.pairs| == |db.pairs| && forall p, q :: ReadyFor(db, j, p) && ReadyFor(db, j, q) ==> DecidedOnMerit(db, db', p, q)
  }

  lemma ReadyPlace(db: Db, j: nat, p: nat) returns (i: nat)
    requires Shape(db) && j < |db.jds| && Finalizes(db, j) && ReadyFor(db, j, p)
    ensures var rows, cap := BarrierRows(db, j), BarrierCap(db.jds[j].cap);
      && i < |rows| && rows[i].pair == p
      && db.pairs[p].evidence == Some(rows[i].evidence) && db.cvs[db.pairs[p].cv].candidate == rows[i].id
      && |FinalizeJd(db, j).pairs| == |db.pairs|
      && FinalizeJd(db, j).pairs[p] == Decide(db.pairs[p], i + 1, VerdictAt(rows, cap, i), rows[i].evidence)
  {
    var rows, cap := BarrierRows(db, j), BarrierCap(db.jds[j].cap);
    RankedPool(db, j);
    FinalizeWrites(db, j);
    RankRowsChanges(db.pairs, rows, Verdicts(rows, cap), |rows|);
    i :| 0 <= i < |rows| && rows[i].pair == p;
  }

  lemma PairOnMerit(db: Db, j: nat, p: nat, q: nat)
    requires Shape(db) && j < |db.jds| && Finalizes(db, j) && ReadyFor(db, j, p) && ReadyFor(db, j, q)
    ensures |FinalizeJd(db, j).pairs| == |db.pairs| && DecidedOnMerit(db, FinalizeJd(db, j), p, q)
  {
    var rows, cap, pool := BarrierRows(db, j), BarrierCap(db.jds[j].cap), Pool(db, j, |db.pairs|);
    var i := ReadyPlace(db, j, p);
    var k := ReadyPlace(db, j, q);
    if i < k {
      RankedByMerit(pool, i, k);
    }
    if VerdictAt(rows, cap, k) == Exclude {
      ExclusionOnlyWhenFull(pool, cap, i, k);
    }
  }

  lemma BarrierRanksOnMerit(db: Db, j: nat)
    requires Shape(db) && j < |db.jds| && Finalizes(db, j)
    ensures RankedOnMerit(db, FinalizeJd(db, j), j)
  {
    FinalizeWrites(db, j);
    forall p, q | ReadyFor(db, j, p) && ReadyFor(db, j, q) ensures DecidedOnMerit(db, FinalizeJd(db, j), p, q) {
      PairOnMerit(db, j, p, q);
    }
  }

  // ----- how many

  /** A ready pair of the JD whose stored result is current, eligible, and scored above zero and at most one. */
  function FitReadyOf(j: nat): PairRow -> bool {
    (r: PairRow) =>
      && r.jd == j && r.status.Stage2Ready? && r.evidence.Some?
      && r.evidence.value.currentVersion && r.evidence.value.shortlistEligible
      && 0.0 < r.evidence.value.score <= 1.0
  }

  lemma {:induction false} FitRowsOfPool(db: Db, j: nat, n: nat)
    requires Shape(db) && n <= |db.pairs|
    ensures Count(Pool(db, j, n), Fits()) == Count(db.pairs[..n], FitReadyOf(j))
  {
    if n > 0 {
      FitRowsOfPool(db, j, n - 1);
      assert db.pairs[..n][..n - 1] == db.pairs[..n - 1];
      var before := Pool(db, j, n - 1);
      if Pool(db, j, n) != before {
        assert Pool(db, j, n)[..|before|] == before;
      }
    }
  }

  /**
   * The barrier selects as many of the JD's fit pairs as there are, up to its cap and never more than 15, and
   * that many stay selected in every continuation.
   */
  lemma ShortlistSize(cfg: Settings, w: World, j: nat, run: seq<Step>)
    requires ValidSettings(cfg) && Reachable(cfg, w) && Enabled(cfg, w, Barrier(j))
    requires JdOpen(w.db.jds[j].status) && !Unresolved(w.db, j)
    requires Legal(cfg, Apply(cfg, w, Barrier(j)), run)
    ensures var fit, cap := Count(w.db.pairs, FitReadyOf(j)), w.db.jds[j].cap;
      var selected := Count(After(cfg, Apply(cfg, w, Barrier(j)), run).db.pairs, SelectedOf(j));
      && selected <= fit && selected <= cap && selected <= 15
      && (selected == fit || selected == cap || selected == 15)
  {
    ReachableOk(cfg, w);
    SelectionIsFixed(cfg, w, j, run);
    BatchByMerit(Pool(w.db, j, |w.db.pairs|), BarrierCap(w.db.jds[j].cap));
    FitRowsOfPool(w.db, j, |w.db.pairs|);
    assert w.db.pairs[..|w.db.pairs|] == w.db.pairs;
  }

  ghost predicate Outranks(c: Candidate, d: Candidate) {
    var e, f := c.evidence, d.evidence;
    && e.score >= f.score
    && (e.score == f.score ==> e.responsibility >= f.responsibility)
    && (e.score == f.score && e.responsibility == f.responsibility ==> e.applied >= f.applied)
    && (e.score == f.score && e.responsibility == f.responsibility && e.applied == f.applied ==> c.id <= d.id)
  }

  // ----- and ever after

  /** A pair of a JD past its barrier keeps what the barrier saw of it and gave it. */
  lemma KeepsMerit(cfg: Settings, w: World, run: seq<Step>, p: nat)
    requires ValidSettings(cfg) && WorldOk(cfg, w) && Legal(cfg, w, run)
    requires p < |After(cfg, w, run).db.pairs|
    requires var j := After(cfg, w, run).db.pairs[p].jd; j < |w.db.jds| && !JdOpen(w.db.jds[j].status)
    ensures p < |w.db.pairs| && w.db.pairs[p].cv < |w.db.cvs|
    ensures var db, db' := w.db, After(cfg, w, run).db;
      && db'.pairs[p].jd == db.pairs[p].jd && db'.pairs[p].rank == db.pairs[p].rank
      && db'.pairs[p].evidence == db.pairs[p].evidence && (Selected(db'.pairs[p]) <==> Selected(db.pairs[p]))
      && db'.pairs[p].cv == db.pairs[p].cv && db.pairs[p].cv < |db'.cvs|
      && db'.cvs[db.pairs[p].cv].candidate == db.cvs[db.pairs[p].cv].candidate
  {
    CampaignSafety.FinalizedRow(cfg, w, run, p);
    RunOk(cfg, w, run);
    KeptRow(cfg, w.db, After(cfg, w, run).db, p);
  }

  lemma KeptRow(cfg: Settings, db: Db, db': Db, p: nat)
    requires RowsOk(cfg, db) && Evolves(db, db') && p < |db.pairs| && BarrierDone(db, db.pairs[p])
    ensures p < |db'.pairs| && db.pairs[p].cv < |db.cvs| <= |db'.cvs|
    ensures db'.pairs[p].evidence == db.pairs[p].evidence && db'.pairs[p].cv == db.pairs[p].cv
    ensures db'.cvs[db.pairs[p].cv].candidate == db.cvs[db.pairs[p].cv].candidate
  {
    assert RowOk(cfg, db, db.pairs[p]) && RowEvolves(db.pairs[p], db'.pairs[p], BarrierDone(db, db.pairs[p]));
    assert CvEvolves(db.cvs[db.pairs[p].cv], db'.cvs[db.pairs[p].cv]);
  }

  lemma EvidenceOfRanked(cfg: Settings, db: Db, p: nat) returns (c: Candidate)
    requires RowsOk(cfg, db) && p < |db.pairs| && db.pairs[p].rank.Some?
    ensures Holding(db, p, c)
  {
    assert RowOk(cfg, db, db.pairs[p]);
    c := Candidate(p, db.cvs[db.pairs[p].cv].candidate, db.pairs[p].evidence.value);
  }

  lemma BarrierCommitted(cfg: Settings, w: World, j: nat)
    requires ValidSettings(cfg) && Reachable(cfg, w) && Enabled(cfg, w, Barrier(j))
    requires JdOpen(w.db.jds[j].status) && !Unresolved(w.db, j)
    ensures DbOk(cfg, w.db) && Finalizes(w.db, j)
    ensures var next := Apply(cfg, w, Barrier(j));
      WorldOk(cfg, next) && next.db == FinalizeJd(w.db, j) && j < |next.db.jds| && !JdOpen(next.db.jds[j].status)
  {
    ReachableOk(cfg, w);
    NothingUnscored(cfg, w.db, j);
    StepOk(cfg, w, Barrier(j));
    FinalizeWrites(w.db, j);
  }

  /** What a ranked pair of the JD now holds, it held when the barrier committed. */
  lemma HeldAtBarrier(cfg: Settings, next: World, j: nat, run: seq<Step>, p: nat) returns (c: Candidate)
    requires ValidSettings(cfg) && WorldOk(cfg, next) && Legal(cfg, next, run)
    requires j < |next.db.jds| && !JdOpen(next.db.jds[j].status)
    requires var pairs := After(cfg, next, run).db.pairs; p < |pairs| && pairs[p].jd == j && pairs[p].rank.Some?
    ensures Holding(next.db, p, c) && Holding(After(cfg, next, run).db, p, c)
    ensures var r, r' := next.db.pairs[p], After(cfg, next, run).db.pairs[p];
      r.jd == j && r'.rank == r.rank && (Selected(r') <==> Selected(r))
  {
    KeepsMerit(cfg, next, run, p);
    c := EvidenceOfRanked(cfg, next.db, p);
  }

  /**
   * From the barrier on, in every continuation: a smaller rank means a score at least as high, at equal
   * scores at least as much responsibility coverage, then applied coverage, then the earlier candidate.
   * Only fit pairs are selected, and a fit pair that is not ranks behind every selected one.
   */
  lemma ShortlistByMerit(cfg: Settings, w: World, j: nat, run: seq<Step>, p: nat, q: nat)
    requires ValidSettings(cfg) && Reachable(cfg, w) && Enabled(cfg, w, Barrier(j))
    requires JdOpen(w.db.jds[j].status) && !Unresolved(w.db, j)
    requires Legal(cfg, Apply(cfg, w, Barrier(j)), run)
    requires var pairs := After(cfg, Apply(cfg, w, Barrier(j)), run).db.pairs;
      && p < |pairs| && pairs[p].jd == j && pairs[p].rank.Some?
      && q < |pairs| && pairs[q].jd == j && pairs[q].rank.Some?
    ensures var db := After(cfg, Apply(cfg, w, Barrier(j)), run).db;
      var r, s := db.pairs[p], db.pairs[q];
      && r.evidence.Some? && s.evidence.Some? && r.cv < |db.cvs| && s.cv < |db.cvs|
      && var e, f := r.evidence.value, s.evidence.value;
      && (r.rank.value < s.rank.value ==>
            && e.score >= f.score
            && (e.score == f.score ==> e.responsibility >= f.responsibility)
            && (e.score == f.score && e.responsibility == f.responsibility ==> e.applied >= f.applied)
            && (e.score == f.score && e.responsibility == f.responsibility && e.applied == f.applied ==>
                  db.cvs[r.cv].candidate <= db.cvs[s.cv].candidate))
      && (Selected(r) ==> e.currentVersion && e.shortlistEligible && 0.0 < e.score <= 1.0)
      && (Selected(r) && !Selected(s) && f.currentVersion && f.shortlistEligible && 0.0 < f.score <= 1.0 ==>
            r.rank.value < s.rank.value && e.score >= f.score)
  {
    BarrierCommitted(cfg, w, j);
    var next := Apply(cfg, w, Barrier(j));
    var c := HeldAtBarrier(cfg, next, j, run, p);
    var d := HeldAtBarrier(cfg, next, j, run, q);
    CommittedByMerit(cfg, w.db, j, p, q, c, d);
  }
}

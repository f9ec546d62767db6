/**
 * What no run can break: barriers are final, statuses agree with the CV they came from, counts add
 * up, and a lease token is worth at most one finishing write.
 */
module CampaignSafety {
  import opened Prelude
  import opened Ranking
  import opened CampaignState
  import opened CampaignInvariant
  import opened CampaignProtocol

  // ----- every reachable state

  /**
   * A pair beyond PENDING and extraction failure has a CV whose text was published, a failed CV has
   * only failed pairs, and stored evidence was computed from the text the CV still has. A CV has a
   * text exactly when its Stage 0 succeeded, and no CV was stamped in the future.
   */
  lemma CvAndPairsAgree(cfg: Settings, w: World, p: nat)
    requires ValidSettings(cfg) && Reachable(cfg, w) && p < |w.db.pairs|
    ensures w.db.pairs[p].cv < |w.db.cvs|
    ensures var r, v := w.db.pairs[p], w.db.cvs[w.db.pairs[p].cv];
      && r.campaign == v.campaign
      && (r.status != Pending && r.status != ExtractionFailed ==> v.stage0 == Stage0Succeeded)
      && (v.stage0 == Stage0Failed <==> r.status == ExtractionFailed)
      && (v.stage0 == Stage0Succeeded <==> v.text.Some?)
      && (r.evidence.Some? ==> v.text.Some? && r.sourceText == v.text)
      && (Stage0Done(v.stage0) ==> !v.hasPdf)
      && v.updatedAt <= w.db.clock
  {
    ReachableOk(cfg, w);
    assert RowOk(cfg, w.db, w.db.pairs[p]);
  }

  /** Retrieval attempts stay within their limit, so giving one back never goes below zero. */
  lemma RetrievalAttemptsBounded(cfg: Settings, w: World, p: nat)
    requires ValidSettings(cfg) && Reachable(cfg, w) && p < |w.db.pairs|
    ensures var r := w.db.pairs[p];
      && 0 <= r.attempts <= cfg.runMaxAttempts
      && (r.status == Pending ==> r.attempts < cfg.runMaxAttempts)
      && (r.status == Running ==> 1 <= r.attempts)
  {
    ReachableOk(cfg, w);
    assert RowOk(cfg, w.db, w.db.pairs[p]);
  }

  /** In-flight rows never exceed the campaign and global limits, and no two rows share a lease. */
  lemma InFlightBounded(cfg: Settings, w: World, c: nat)
    requires ValidSettings(cfg) && Reachable(cfg, w)
    ensures Count(w.db.pairs, RunningIn(c)) <= cfg.retrievalInflight
    ensures Count(w.db.pairs, RunningAnywhere()) <= cfg.retrievalGlobalInflight
    ensures Count(w.db.pairs, EvaluatingAnywhere()) <= cfg.stage3GlobalInflight
    ensures DistinctLeases(w.db.pairs)
  {
    ReachableOk(cfg, w);
  }

  /** A completed campaign has only terminal pairs, under completed JDs. */
  lemma CompletedMeansTerminal(cfg: Settings, w: World, c: nat)
    requires ValidSettings(cfg) && Reachable(cfg, w)
    requires c < |w.db.campaigns| && w.db.campaigns[c] == CampaignCompleted
    ensures forall p :: 0 <= p < |w.db.pairs| && w.db.pairs[p].campaign == c ==> Terminal(w.db.pairs[p].status)
    ensures forall j :: 0 <= j < |w.db.jds| && w.db.jds[j].campaign == c ==> w.db.jds[j].status == JdCompleted
  {
    ReachableOk(cfg, w);
    forall p | 0 <= p < |w.db.pairs| && w.db.pairs[p].campaign == c ensures Terminal(w.db.pairs[p].status) {
      assert RowOk(cfg, w.db, w.db.pairs[p]);
    }
    forall j | 0 <= j < |w.db.jds| && w.db.jds[j].campaign == c ensures w.db.jds[j].status == JdCompleted {
      assert JdOk(w.db, w.db.jds[j]);
    }
  }

  // ----- status counts

  const STATUSES: seq<PairStatus> := [
    Pending, Running, Stage2Ready, ExtractionFailed, FilterRejected, ProcessingFailed,
    CutoffExcluded, Shortlisted, Stage3Running, Success, ReviewRequired, EvaluationFailed]

  function WithStatus(p: PairRow -> bool, s: PairStatus): PairRow -> bool {
    (r: PairRow) => p(r) && r.status == s
  }

  /** The rows counted once per status of a list. */
  function TotalOver(pairs: seq<PairRow>, p: PairRow -> bool, statuses: seq<PairStatus>): nat {
    if statuses == [] then 0
    else TotalOver(pairs, p, statuses[..|statuses| - 1]) + Count(pairs, WithStatus(p, statuses[|statuses| - 1]))
  }

  function StatusTotal(pairs: seq<PairRow>, p: PairRow -> bool): nat {
    TotalOver(pairs, p, STATUSES)
  }

  function WithAnyStatus(p: PairRow -> bool, statuses: seq<PairStatus>): PairRow -> bool {
    (r: PairRow) => p(r) && r.status in statuses
  }

  lemma {:induction false} TotalOverIsCount(pairs: seq<PairRow>, p: PairRow -> bool, statuses: seq<PairStatus>)
    requires Distinct(statuses)
    ensures TotalOver(pairs, p, statuses) == Count(pairs, WithAnyStatus(p, statuses))
  {
    if statuses == [] {
      CountPositive(pairs, WithAnyStatus(p, statuses));
    } else {
      var front, last := statuses[..|statuses| - 1], statuses[|statuses| - 1];
      TotalOverIsCount(pairs, p, front);
      assert statuses == front + [last];
      CountSplit(pairs, WithAnyStatus(p, statuses), WithAnyStatus(p, front), WithStatus(p, last));
    }
  }

  function OfJd(j: nat): PairRow -> bool {
    (r: PairRow) => r.jd == j
  }

  /** Grouping by status loses no row. */
  lemma StatusTotalIsCount(pairs: seq<PairRow>, p: PairRow -> bool)
    ensures StatusTotal(pairs, p) == Count(pairs, p)
  {
    TotalOverIsCount(pairs, p, STATUSES);
    forall r: PairRow ensures r.status in STATUSES {
      EveryStatus(r.status);
    }
    CountSame(pairs, pairs, WithAnyStatus(p, STATUSES), p);
  }

  lemma EveryStatus(s: PairStatus)
    ensures s in STATUSES
  {
    assert STATUSES[0] == Pending && STATUSES[1] == Running && STATUSES[2] == Stage2Ready;
    assert STATUSES[3] == ExtractionFailed && STATUSES[4] == FilterRejected && STATUSES[5] == ProcessingFailed;
    assert STATUSES[6] == CutoffExcluded && STATUSES[7] == Shortlisted && STATUSES[8] == Stage3Running;
    assert STATUSES[9] == Success && STATUSES[10] == ReviewRequired && STATUSES[11] == EvaluationFailed;
  }

  function OfJdBelow(j: nat, v: nat): PairRow -> bool {
    (r: PairRow) => r.jd == j && r.cv < v
  }

  function OfJdAndCv(j: nat, v: nat): PairRow -> bool {
    (r: PairRow) => r.jd == j && r.cv == v
  }

  lemma {:induction false} AtMostOne(pairs: seq<PairRow>, j: nat, v: nat)
    requires forall p, q :: 0 <= p < q < |pairs| ==> pairs[p].jd != pairs[q].jd || pairs[p].cv != pairs[q].cv
    ensures Count(pairs, OfJdAndCv(j, v)) == if HasPair(pairs, j, v) then 1 else 0
  {
    if pairs != [] {
      var front, last := pairs[..|pairs| - 1], pairs[|pairs| - 1];
      AtMostOne(front, j, v);
      if last.jd == j && last.cv == v {
        assert !HasPair(front, j, v);
      } else if HasPair(pairs, j, v) {
        var p :| 0 <= p < |pairs| && pairs[p].jd == j && pairs[p].cv == v;
        assert front[p].jd == j;
      }
    }
  }

  lemma {:induction false} JdPairsBelow(db: Db, j: nat, v: nat)
    requires Shape(db) && OnePairEach(db) && j < |db.jds| && v <= |db.cvs|
    ensures Count(db.pairs, OfJdBelow(j, v)) == Count(db.cvs[..v], CvsOf(db.jds[j].campaign))
  {
    if v == 0 {
      CountPositive(db.pairs, OfJdBelow(j, 0));
    } else {
      var u: nat := v - 1;
      JdPairsBelow(db, j, u);
      CountSplit(db.pairs, OfJdBelow(j, v), OfJdBelow(j, u), OfJdAndCv(j, u));
      AtMostOne(db.pairs, j, u);
      assert db.cvs[..v][..v - 1] == db.cvs[..u];
      JdPairWith(db, j, u);
    }
  }

  lemma JdPairWith(db: Db, j: nat, u: nat)
    requires Shape(db) && OnePairEach(db) && j < |db.jds| && u < |db.cvs|
    ensures HasPair(db.pairs, j, u) <==> db.cvs[u].campaign == db.jds[j].campaign
  {
    if HasPair(db.pairs, j, u) {
      var p :| 0 <= p < |db.pairs| && db.pairs[p].jd == j && db.pairs[p].cv == u;
      assert RowShape(db, db.pairs[p]);
    }
  }

  /**
   * The status counts of a campaign add up to JDs times CVs, and those of a JD to the CVs of its
   * campaign, in every reachable state: the accounting errors of the two count queries cannot occur.
   */
  lemma CountsAreComplete(cfg: Settings, w: World, c: nat, j: nat)
    requires ValidSettings(cfg) && Reachable(cfg, w) && j < |w.db.jds|
    ensures StatusTotal(w.db.pairs, OfCampaign(c)) == Count(w.db.jds, JdsOf(c)) * Count(w.db.cvs, CvsOf(c))
    ensures StatusTotal(w.db.pairs, OfJd(j)) == Count(w.db.cvs, CvsOf(w.db.jds[j].campaign))
  {
    ReachableOk(cfg, w);
    StatusTotalIsCount(w.db.pairs, OfCampaign(c));
    StatusTotalIsCount(w.db.pairs, OfJd(j));
    JdPairsBelow(w.db, j, |w.db.cvs|);
    assert w.db.cvs[..|w.db.cvs|] == w.db.cvs;
    CountSame(w.db.pairs, w.db.pairs, OfJd(j), OfJdBelow(j, |w.db.cvs|));
  }

  // ----- absorbing states

  /** A terminal row never changes again, and a finished CV never changes again. */
  lemma TerminalIsFinal(cfg: Settings, w: World, run: seq<Step>)
    requires ValidSettings(cfg) && Reachable(cfg, w) && Legal(cfg, w, run)
    ensures var w' := After(cfg, w, run);
      && |w.db.pairs| <= |w'.db.pairs| && |w.db.cvs| <= |w'.db.cvs|
      && (forall p :: 0 <= p < |w.db.pairs| && Terminal(w.db.pairs[p].status) ==> w'.db.pairs[p] == w.db.pairs[p])
      && (forall v :: 0 <= v < |w.db.cvs| && Stage0Done(w.db.cvs[v].stage0) ==> w'.db.cvs[v] == w.db.cvs[v])
  {
    ReachableOk(cfg, w);
    RunOk(cfg, w, run);
    var w' := After(cfg, w, run);
    forall p | 0 <= p < |w.db.pairs| && Terminal(w.db.pairs[p].status) ensures w'.db.pairs[p] == w.db.pairs[p] {
      assert RowEvolves(w.db.pairs[p], w'.db.pairs[p], BarrierDone(w.db, w.db.pairs[p]));
    }
    forall v | 0 <= v < |w.db.cvs| && Stage0Done(w.db.cvs[v].stage0) ensures w'.db.cvs[v] == w.db.cvs[v] {
      assert CvEvolves(w.db.cvs[v], w'.db.cvs[v]);
    }
  }

  // ----- rows are added during intake only

  ghost predicate GrowsInIntake(db: Db, db': Db) {
    forall p :: |db.pairs| <= p < |db'.pairs| ==>
      db'.pairs[p].campaign < |db.campaigns| && db.campaigns[db'.pairs[p].campaign] == Intake
  }

  lemma IntakeCvGrows(db: Db, c: nat, candidate: int, hasPdf: bool)
    requires c < |db.campaigns|
    ensures GrowsInIntake(db, ReserveCv(db, c, candidate, hasPdf))
  {
    if Reserves(db, c, candidate) {
      NewPairsCover(db, c, |db.cvs|, |db.jds|);
    }
  }

  lemma FinalizeKeepsRows(db: Db, j: nat)
    requires Shape(db) && j < |db.jds|
    ensures |FinalizeJd(db, j).pairs| == |db.pairs|
  {
  }

  lemma WorkerKeepsRows(cfg: Settings, w: World, st: Step)
    requires Enabled(cfg, w, st) && !IntakeStep(st) && !st.Retrieve? && !st.Evaluate? && !st.Barrier?
    ensures |DbAfter(cfg, w, st).pairs| == |w.db.pairs|
  {
  }

  lemma DbStepGrows(cfg: Settings, w: World, st: Step)
    requires Enabled(cfg, w, st)
    ensures GrowsInIntake(w.db, DbAfter(cfg, w, st))
  {
    if st.IntakeCv? {
      IntakeCvGrows(w.db, st.campaign, st.candidate, st.hasPdf);
    } else if st.Retrieve? {
      RetrieveIssues(cfg, w.db, st.campaign, st.locked);
    } else if st.Evaluate? {
      EvaluateIssues(cfg, w.db, st.campaign, st.locked);
    } else if st.Barrier? {
      FinalizeKeepsRows(w.db, st.jd);
    } else if !IntakeStep(st) {
      WorkerKeepsRows(cfg, w, st);
    }
  }

  lemma {:induction false} RunGrows(cfg: Settings, w: World, run: seq<Step>)
    requires ValidSettings(cfg) && WorldOk(cfg, w) && Legal(cfg, w, run)
    ensures GrowsInIntake(w.db, After(cfg, w, run).db)
    decreases |run|
  {
    if run != [] {
      var next := Apply(cfg, w, run[0]);
      StepOk(cfg, w, run[0]);
      DbStepGrows(cfg, w, run[0]);
      RunGrows(cfg, next, run[1..]);
      RunOk(cfg, next, run[1..]);
      GrowsTransitive(w.db, next.db, After(cfg, w, run).db);
    }
  }

  lemma GrowsTransitive(a: Db, b: Db, c: Db)
    requires GrowsInIntake(a, b) && GrowsInIntake(b, c) && Evolves(a, b) && Evolves(b, c)
    ensures GrowsInIntake(a, c)
  {
    forall p | |a.pairs| <= p < |c.pairs|
      ensures c.pairs[p].campaign < |a.campaigns| && a.campaigns[c.pairs[p].campaign] == Intake
    {
      if p < |b.pairs| {
        assert RowEvolves(b.pairs[p], c.pairs[p], BarrierDone(b, b.pairs[p]));
      } else {
        assert CampaignPhase(a.campaigns[c.pairs[p].campaign]) <= CampaignPhase(b.campaigns[c.pairs[p].campaign]);
      }
    }
  }

  // ----- the barrier is final

  /** The pairs of a JD whose barrier has fired: the same rows, unchanged ranks, unchanged selection. */
  lemma FinalizedRow(cfg: Settings, w: World, run: seq<Step>, p: nat)
    requires ValidSettings(cfg) && WorldOk(cfg, w) && Legal(cfg, w, run)
    requires p < |After(cfg, w, run).db.pairs|
    requires var j := After(cfg, w, run).db.pairs[p].jd; j < |w.db.jds| && !JdOpen(w.db.jds[j].status)
    ensures p < |w.db.pairs|
    ensures var r, r' := w.db.pairs[p], After(cfg, w, run).db.pairs[p];
      r'.jd == r.jd && r'.rank == r.rank && (Selected(r') <==> Selected(r))
  {
    RunOk(cfg, w, run);
    RunGrows(cfg, w, run);
    var db, db' := w.db, After(cfg, w, run).db;
    assert RowOk(cfg, db', db'.pairs[p]);
    assert JdOk(db, db.jds[db'.pairs[p].jd]);
    assert RowEvolves(db.pairs[p], db'.pairs[p], BarrierDone(db, db.pairs[p]));
  }

  function SelectedPairs(pairs: seq<PairRow>, j: nat): nat {
    Count(pairs, SelectedOf(j))
  }

  /**
   * Once a JD's barrier has committed: no pair of the JD is waiting for it again, the ranks given
   * are exactly 1..n and stay, and the number of selected pairs stays, within the cap of at most 15.
   */
  lemma BarrierIsFinal(cfg: Settings, w: World, run: seq<Step>, j: nat)
    requires ValidSettings(cfg) && Reachable(cfg, w) && Legal(cfg, w, run)
    requires j < |w.db.jds| && !JdOpen(w.db.jds[j].status)
    ensures var pairs, pairs' := w.db.pairs, After(cfg, w, run).db.pairs;
      && (forall p :: 0 <= p < |pairs'| && pairs'[p].jd == j ==> !BeforeBarrier(pairs'[p].status) || NeverRanked(pairs'[p].status))
      && (exists order :: RankOrder(pairs, j, order) && RankOrder(pairs', j, order))
      && SelectedPairs(pairs', j) == SelectedPairs(pairs, j) <= BarrierCap(w.db.jds[j].cap) <= 15
  {
    ReachableOk(cfg, w);
    RunOk(cfg, w, run);
    NothingWaits(cfg, w.db, After(cfg, w, run).db, j);
    FinalizedRows(cfg, w, run, j);
    BarrierKept(cfg, w.db, After(cfg, w, run).db, j);
  }

  /** A JD whose barrier has committed has no pair waiting for it. */
  lemma NothingWaits(cfg: Settings, db: Db, db': Db, j: nat)
    requires DbOk(cfg, db') && Evolves(db, db') && j < |db.jds| && !JdOpen(db.jds[j].status)
    ensures forall p :: 0 <= p < |db'.pairs| && db'.pairs[p].jd == j ==>
              !BeforeBarrier(db'.pairs[p].status) || NeverRanked(db'.pairs[p].status)
  {
    forall p | 0 <= p < |db'.pairs| && db'.pairs[p].jd == j
      ensures !BeforeBarrier(db'.pairs[p].status) || NeverRanked(db'.pairs[p].status)
    {
      assert RowOk(cfg, db', db'.pairs[p]);
    }
  }

  lemma FinalizedRows(cfg: Settings, w: World, run: seq<Step>, j: nat)
    requires ValidSettings(cfg) && WorldOk(cfg, w) && Legal(cfg, w, run)
    requires j < |w.db.jds| && !JdOpen(w.db.jds[j].status)
    ensures KeptRows(w.db, After(cfg, w, run).db, j)
  {
    var pairs' := After(cfg, w, run).db.pairs;
    forall p: nat | p < |pairs'| && pairs'[p].jd == j
      ensures p < |w.db.pairs| && w.db.pairs[p].jd == j && pairs'[p].rank == w.db.pairs[p].rank
      ensures Selected(pairs'[p]) <==> Selected(w.db.pairs[p])
    {
      FinalizedRow(cfg, w, run, p);
    }
  }

  lemma BarrierKept(cfg: Settings, db: Db, db': Db, j: nat)
    requires DbOk(cfg, db) && Evolves(db, db') && KeptRows(db, db', j) && j < |db.jds| && !JdOpen(db.jds[j].status)
    ensures exists order :: RankOrder(db.pairs, j, order) && RankOrder(db'.pairs, j, order)
    ensures SelectedPairs(db'.pairs, j) == SelectedPairs(db.pairs, j) <= BarrierCap(db.jds[j].cap)
  {
    assert BarrierOk(db, j);
    var order :| RankOrder(db.pairs, j, order);
    KeptOrder(db, db', j, order);
    SelectedKept(db, db', j);
  }

  ghost predicate KeptRows(db: Db, db': Db, j: nat) {
    forall p :: 0 <= p < |db'.pairs| && db'.pairs[p].jd == j ==>
      && p < |db.pairs| && db.pairs[p].jd == j && db'.pairs[p].rank == db.pairs[p].rank
      && (Selected(db'.pairs[p]) <==> Selected(db.pairs[p]))
  }

  lemma KeptOrder(db: Db, db': Db, j: nat, order: seq<nat>)
    requires Evolves(db, db') && KeptRows(db, db', j) && RankOrder(db.pairs, j, order)
    ensures RankOrder(db'.pairs, j, order)
  {
    forall k | 0 <= k < |order|
      ensures order[k] < |db'.pairs| && db'.pairs[order[k]].jd == j && db'.pairs[order[k]].rank == Some(k + 1)
    {
      assert RowEvolves(db.pairs[order[k]], db'.pairs[order[k]], BarrierDone(db, db.pairs[order[k]]));
    }
  }

  lemma SelectedKept(db: Db, db': Db, j: nat)
    requires Evolves(db, db') && KeptRows(db, db', j)
    ensures SelectedPairs(db'.pairs, j) == SelectedPairs(db.pairs, j)
  {
    var n := |db.pairs|;
    assert db'.pairs == db'.pairs[..n] + db'.pairs[n..];
    CountAppend(db'.pairs[..n], db'.pairs[n..], SelectedOf(j));
    CountPositive(db'.pairs[n..], SelectedOf(j));
    forall i | 0 <= i < n ensures SelectedOf(j)(db.pairs[i]) <==> SelectedOf(j)(db'.pairs[..n][i]) {
      assert RowEvolves(db.pairs[i], db'.pairs[i], BarrierDone(db, db.pairs[i]));
    }
    CountSame(db.pairs, db'.pairs[..n], SelectedOf(j), SelectedOf(j));
  }

  // ----- what the barrier commits

  /** The candidates of one JD are distinct, so the ranking key has no ties. */
  lemma PoolIdsUnique(cfg: Settings, db: Db, j: nat)
    requires DbOk(cfg, db)
    ensures UniqueIds(Pool(db, j, |db.pairs|))
  {
    var pool := Pool(db, j, |db.pairs|);
    PoolRows(db, j, |db.pairs|);
    forall a, b | 0 <= a < b < |pool| ensures pool[a].id != pool[b].id {
      assert pool[a] in pool && pool[b] in pool;
      var p, q := db.pairs[pool[a].pair], db.pairs[pool[b].pair];
      assert RowShape(db, p) && RowShape(db, q);
    }
  }

  /**
   * The barrier transaction: it commits when no pair of the JD is still moving, and then shortlists
   * exactly the rows the synchronous selection takes from the same pool with the same cap.
   */
  lemma BarrierCommitsBatchSelection(cfg: Settings, w: World, j: nat, p: nat)
    requires ValidSettings(cfg) && Reachable(cfg, w) && Enabled(cfg, w, Barrier(j))
    requires JdOpen(w.db.jds[j].status)
    requires p < |w.db.pairs| && w.db.pairs[p].jd == j
    ensures var pool, db' := Pool(w.db, j, |w.db.pairs|), FinalizeJd(w.db, j);
      && |db'.pairs| == |w.db.pairs|
      && (db'.jds[j].status == JdShortlisted <==> !Unresolved(w.db, j))
      && (db'.jds[j].status == JdShortlisted ==>
            var chosen := RankAndFilter(pool, BarrierCap(w.db.jds[j].cap));
            && chosen.Some?
            && (db'.pairs[p].status == Shortlisted <==> exists x :: x in chosen.value && x.pair == p))
  {
    ReachableOk(cfg, w);
    var db := w.db;
    NothingUnscored(cfg, db, j);
    if !Unresolved(db, j) {
      PoolIdsUnique(cfg, db, j);
      BarrierRefinesBatchSelection(Pool(db, j, |db.pairs|), Pool(db, j, |db.pairs|), db.jds[j].cap);
      CommittedRow(cfg, db, j, p);
    }
  }

  lemma NothingUnscored(cfg: Settings, db: Db, j: nat)
    requires DbOk(cfg, db)
    ensures !Unscored(db, j)
  {
    forall p | 0 <= p < |db.pairs| && db.pairs[p].status == Stage2Ready ensures db.pairs[p].evidence.Some? {
      assert RowOk(cfg, db, db.pairs[p]);
    }
  }

  lemma {:induction false} ShortlistedMembers(rows: seq<Candidate>, cap: int, k: nat)
    requires k <= |rows|
    ensures forall x :: x in ShortlistedAmong(rows, cap, k) <==>
              exists i :: 0 <= i < k && rows[i] == x && VerdictAt(rows, cap, i) == Shortlist
  {
    if k > 0 {
      ShortlistedMembers(rows, cap, k - 1);
    }
  }

  lemma CommittedRow(cfg: Settings, db: Db, j: nat, p: nat)
    requires DbOk(cfg, db) && j < |db.jds| && Finalizes(db, j) && p < |db.pairs| && db.pairs[p].jd == j
    ensures var rows, cap := BarrierRows(db, j), BarrierCap(db.jds[j].cap);
      FinalizeJd(db, j).pairs[p].status == Shortlisted
      <==> exists x :: x in ShortlistedAmong(rows, cap, |rows|) && x.pair == p
  {
    RankedPool(db, j);
    BarrierRow(cfg, db, j, p);
    RankedRow(db.pairs, BarrierRows(db, j), BarrierCap(db.jds[j].cap), p);
  }

  lemma RankedRow(pairs: seq<PairRow>, rows: seq<Candidate>, cap: int, p: nat)
    requires DistinctPool(pairs, rows) && p < |pairs| && pairs[p].status != Shortlisted
    ensures RankRows(pairs, rows, Verdicts(rows, cap), |rows|)[p].status == Shortlisted
      <==> exists x :: x in ShortlistedAmong(rows, cap, |rows|) && x.pair == p
  {
    var verdicts := Verdicts(rows, cap);
    RankRowsChanges(pairs, rows, verdicts, |rows|);
    ShortlistedMembers(rows, cap, |rows|);
    if Ranks(rows, |rows|, p) {
      var i :| 0 <= i < |rows| && rows[i].pair == p;
      assert verdicts[i] == Shortlist ==> rows[i] in ShortlistedAmong(rows, cap, |rows|);
    }
  }

  // ----- Stage 0 claims and recovery

  /**
   * Recovery stamps the row before it publishes. The message it publishes for a stale RUNNING
   * document is therefore dropped as ALREADY_RUNNING, unless it is delivered a full lease later.
   */
  lemma RecoveryMessageIsDropped(cfg: Settings, db: Db, v: nat, wait: nat)
    requires v < |db.cvs| && db.cvs[v].campaign < |db.campaigns|
    requires db.cvs[v].stage0 == Stage0Running && NeedsRecovery(cfg, db, v)
    ensures var published := RecoverStage0(cfg, db, v);
      && ClaimOutcome(cfg, db, v) != AlreadyRunning
      && (ClaimOutcome(cfg, published.(clock := db.clock + wait), v) == AlreadyRunning <==> wait < LeaseLength(cfg))
  {
  }

  /** A retry scheduled when extraction times out is dropped too, unless its countdown reaches 35 seconds. */
  lemma TimeoutRetryIsDropped(cfg: Settings, db: Db, v: nat, countdown: nat)
    requires v < |db.cvs| && ClaimOutcome(cfg, db, v) == Claimed
    ensures var claimed := ClaimStage0(cfg, db, v);
      ClaimOutcome(cfg, claimed.(clock := db.clock + cfg.runTimeout + countdown), v) == AlreadyRunning
      <==> countdown < 35
  {
    var claimed := ClaimStage0(cfg, db, v);
    assert claimed.cvs[v].stage0 == Stage0Running && claimed.cvs[v].updatedAt == db.clock;
  }

  /** Stage 0 publishes either a text or a failure code, except for the empty code: a success without text. */
  lemma PublishedTextOrFailure(db: Db, v: nat, result: Extraction)
    requires v < |db.cvs| && !Stage0Done(db.cvs[v].stage0)
    ensures var cv := FinishStage0(db, v, result).cvs[v];
      && Stage0Done(cv.stage0) && !cv.hasPdf
      && (result.Text? ==> cv.stage0 == Stage0Succeeded && cv.text == Some(result.text) && cv.error.None?)
      && (cv.stage0 == Stage0Succeeded && cv.text.None? <==> result == Error(""))
  {
  }
}

/**
 * Dispatch is fair to its order and uses what it may: a pair is passed over only when a limit is reached,
 * and then only for pairs whose key is no larger.
 */
module CampaignQueues {
  import opened Prelude
  import opened Sorting
  import opened CampaignState
  import opened CampaignInvariant
  import opened CampaignProtocol

  /** First the JD key, then the second column. */
  ghost predicate KeysInOrder(major: int, minor: int, major': int, minor': int) {
    major <= major' && (major == major' ==> minor <= minor')
  }

  lemma QueueIsSorted(queue: seq<QueueRow>, i: nat, k: nat)
    requires i < k < |queue|
    ensures var rows := Sort(queue, QueueOrder());
      KeysInOrder(rows[i].major, rows[i].minor, rows[k].major, rows[k].minor)
  {
    SortSorts(queue, QueueOrder());
    assert QueueOrder()(Sort(queue, QueueOrder())[i], Sort(queue, QueueOrder())[k]);
  }

  /** An entry that was not taken stands behind every entry that was. */
  lemma TakenFirst(queue: seq<QueueRow>, slots: nat, x: QueueRow, y: QueueRow)
    requires x in Take(Sort(queue, QueueOrder()), slots)
    requires y in queue && y !in Take(Sort(queue, QueueOrder()), slots)
    ensures KeysInOrder(x.major, x.minor, y.major, y.minor)
    ensures |Take(Sort(queue, QueueOrder()), slots)| == slots
  {
    var rows := Sort(queue, QueueOrder());
    SortMembers(queue, QueueOrder());
    var k :| 0 <= k < |rows| && rows[k] == y;
    var i :| 0 <= i < |Take(rows, slots)| && Take(rows, slots)[i] == x;
    assert Take(rows, slots)[i] == rows[i];
    assert forall m :: 0 <= m < |Take(rows, slots)| ==> rows[m] == Take(rows, slots)[m];
    QueueIsSorted(queue, i, k);
  }

  // ----- retrieval

  lemma {:induction false} RetrievalKeys(db: Db, c: nat, locked: set<nat>, n: nat, x: QueueRow)
    requires Shape(db) && n <= |db.pairs| && x in RetrievalQueue(db, c, locked, n)
    ensures x.pair < n && x.major == db.jds[db.pairs[x.pair].jd].key
    ensures x.minor == db.cvs[db.pairs[x.pair].cv].candidate
  {
    if n > 0 {
      var before := RetrievalQueue(db, c, locked, n - 1);
      if x in before {
        RetrievalKeys(db, c, locked, n - 1, x);
      }
    }
  }

  /** Between a pair the query returned and one it passed over. */
  lemma RetrievalPassedOver(cfg: Settings, db: Db, c: nat, locked: set<nat>, i: nat, q: nat)
    requires Shape(db) && q < |db.pairs| && Retrievable(db, c, locked, q)
    requires i < |RetrievalRows(cfg, db, c, locked)|
    requires forall k :: 0 <= k < |RetrievalRows(cfg, db, c, locked)| ==> RetrievalRows(cfg, db, c, locked)[k].pair != q
    ensures var p := RetrievalRows(cfg, db, c, locked)[i].pair;
      && p < |db.pairs|
      && KeysInOrder(db.jds[db.pairs[p].jd].key, db.cvs[db.pairs[p].cv].candidate,
                     db.jds[db.pairs[q].jd].key, db.cvs[db.pairs[q].cv].candidate)
  {
    var queue, rows := RetrievalQueue(db, c, locked, |db.pairs|), RetrievalRows(cfg, db, c, locked);
    RetrievalQueueRows(db, c, locked, |db.pairs|);
    SortMembers(queue, QueueOrder());
    var y := QueueRow(q, db.jds[db.pairs[q].jd].key, db.cvs[db.pairs[q].cv].candidate);
    assert y !in rows;
    assert rows[i] in Sort(queue, QueueOrder());
    RetrievalKeys(db, c, locked, |db.pairs|, rows[i]);
    TakenFirst(queue, RetrievalSlots(cfg, db, c), rows[i], y);
  }

  /** The pair waits, and nothing keeps a dispatch of the campaign from taking it. */
  ghost predicate LeftWaiting(db: Db, c: nat, locked: set<nat>, q: nat) {
    && q < |db.pairs| && db.pairs[q].campaign == c && db.pairs[q].status.Pending? && q !in locked
    && db.pairs[q].cv < |db.cvs| && db.cvs[db.pairs[q].cv].stage0.Stage0Succeeded?
    && db.pairs[q].jd < |db.jds| && (db.jds[db.pairs[q].jd].status.JdPending? || db.jds[db.pairs[q].jd].status.JdProcessing?)
  }

  ghost predicate JustLeased(db: Db, db': Db, p: nat) {
    p < |db'.pairs| && db'.pairs[p].lease.Some? && db'.pairs[p].lease.value >= db.nextToken
  }

  /** The dispatch after its expiry: which rows it took, and what it left. */
  lemma RetrievalTook(cfg: Settings, db: Db, c: nat, locked: set<nat>)
    requires ValidSettings(cfg) && DbOk(cfg, db) && c < |db.campaigns| && db.campaigns[c] == CampaignRunning
    ensures var expired, db' := ExpiredRunning(cfg, db, c), DispatchPairs(cfg, db, c, locked);
      && DbOk(cfg, expired)
      && var rows := RetrievalRows(cfg, expired, c, locked);
      && DistinctRows(expired, rows) && db' == ReserveAll(cfg, expired, rows, |rows|)
      && RetrievalProgress(cfg, expired, db', c, |rows|)
      && db'.nextToken == db.nextToken + |rows|
  {
    ExpiredRunningOk(cfg, db, c);
    var expired := ExpiredRunning(cfg, db, c);
    var rows := RetrievalRows(cfg, expired, c, locked);
    RetrievalRowsSound(cfg, expired, c, locked);
    EvolvesReflexive(expired);
    ReserveAllOk(cfg, expired, c, locked, rows, |rows|);
    ReserveAllChanges(cfg, expired, rows, |rows|);
  }

  /** A pair that is still waiting was not named, and was dispatchable. */
  lemma StillWaiting(cfg: Settings, db: Db, c: nat, locked: set<nat>, rows: seq<QueueRow>, q: nat)
    requires Shape(db) && DistinctRows(db, rows) && LeftWaiting(ReserveAll(cfg, db, rows, |rows|), c, locked, q)
    ensures q < |db.pairs| && Retrievable(db, c, locked, q) && !Named(rows, |rows|, q)
    ensures ReserveAll(cfg, db, rows, |rows|).pairs[q] == db.pairs[q]
    ensures ReserveAll(cfg, db, rows, |rows|).cvs == db.cvs && ReserveAll(cfg, db, rows, |rows|).jds == db.jds
  {
    ReserveAllChanges(cfg, db, rows, |rows|);
    forall i | 0 <= i < |rows| ensures rows[i].pair != q {
      assert ReserveAll(cfg, db, rows, |rows|).pairs[rows[i].pair].status.Running?;
    }
  }

  lemma LeasedIsNamed(cfg: Settings, db: Db, rows: seq<QueueRow>, p: nat) returns (i: nat)
    requires RowsOk(cfg, db) && DistinctRows(db, rows) && JustLeased(db, ReserveAll(cfg, db, rows, |rows|), p)
    ensures i < |rows| && rows[i].pair == p < |db.pairs|
    ensures ReserveAll(cfg, db, rows, |rows|).pairs[p].jd == db.pairs[p].jd
    ensures ReserveAll(cfg, db, rows, |rows|).pairs[p].cv == db.pairs[p].cv
  {
    ReserveAllChanges(cfg, db, rows, |rows|);
    assert RowOk(cfg, db, db.pairs[p]);
    assert Named(rows, |rows|, p);
    i :| i < |rows| && rows[i].pair == p;
    assert ReserveAll(cfg, db, rows, |rows|).pairs[p] == RunningRow(cfg, db, db.pairs[p], db.nextToken + i);
  }

  /**
   * A retrieval dispatch leaves a dispatchable pair waiting only when the campaign's limit, the global limit
   * or the batch size is used up, and what it leased instead comes no later by JD and candidate.
   */
  lemma RetrievalTakesFirst(cfg: Settings, w: World, c: nat, locked: set<nat>, p: nat, q: nat)
    requires ValidSettings(cfg) && Reachable(cfg, w) && Enabled(cfg, w, Retrieve(c, locked))
    requires w.db.campaigns[c] == CampaignRunning
    requires LeftWaiting(DbAfter(cfg, w, Retrieve(c, locked)), c, locked, q)
    ensures var db' := DbAfter(cfg, w, Retrieve(c, locked));
      && (|| Count(db'.pairs, RunningIn(c)) == cfg.retrievalInflight
          || Count(db'.pairs, RunningAnywhere()) == cfg.retrievalGlobalInflight
          || db'.nextToken == w.db.nextToken + cfg.dispatchBatch)
      && (JustLeased(w.db, db', p) ==>
            && db'.pairs[p].jd < |db'.jds| && db'.pairs[p].cv < |db'.cvs|
            && var j, k := db'.jds[db'.pairs[p].jd].key, db'.jds[db'.pairs[q].jd].key;
            && j <= k
            && (j == k ==> db'.cvs[db'.pairs[p].cv].candidate <= db'.cvs[db'.pairs[q].cv].candidate))
  {
    ReachableOk(cfg, w);
    RetrievalTook(cfg, w.db, c, locked);
    var expired := ExpiredRunning(cfg, w.db, c);
    RetrievalLeaves(cfg, expired, c, locked, RetrievalRows(cfg, expired, c, locked), DbAfter(cfg, w, Retrieve(c, locked)), p, q);
  }

  lemma RetrievalLeaves(cfg: Settings, db: Db, c: nat, locked: set<nat>, rows: seq<QueueRow>, db': Db, p: nat, q: nat)
    requires ValidSettings(cfg) && DbOk(cfg, db) && DistinctRows(db, rows)
    requires rows == RetrievalRows(cfg, db, c, locked) && db' == ReserveAll(cfg, db, rows, |rows|)
    requires RetrievalProgress(cfg, db, db', c, |rows|) && LeftWaiting(db', c, locked, q)
    ensures || Count(db'.pairs, RunningIn(c)) == cfg.retrievalInflight
            || Count(db'.pairs, RunningAnywhere()) == cfg.retrievalGlobalInflight
            || |rows| == cfg.dispatchBatch
    ensures JustLeased(db, db', p) ==>
      && db'.pairs[p].jd < |db'.jds| && db'.pairs[p].cv < |db'.cvs|
      && KeysInOrder(db'.jds[db'.pairs[p].jd].key, db'.cvs[db'.pairs[p].cv].candidate,
                     db'.jds[db'.pairs[q].jd].key, db'.cvs[db'.pairs[q].cv].candidate)
  {
    StillWaiting(cfg, db, c, locked, rows, q);
    forall i | 0 <= i < |rows| ensures rows[i].pair != q {
      assert !Named(rows, |rows|, q);
    }
    RetrievalRowsComplete(cfg, db, c, locked, q);
    if JustLeased(db, db', p) {
      var i := LeasedIsNamed(cfg, db, rows, p);
      RetrievalPassedOver(cfg, db, c, locked, i, q);
      assert RowShape(db, db.pairs[p]);
    }
  }

  // ----- evaluation

  /** The place of a shortlisted pair in the queue: its rank. */
  function RankKey(r: PairRow): int {
    if r.rank.Some? then r.rank.value else 0
  }

  lemma {:induction false} EvaluationKeys(db: Db, c: nat, locked: set<nat>, n: nat, x: QueueRow)
    requires Shape(db) && n <= |db.pairs| && x in EvaluationQueue(db, c, locked, n)
    ensures x.pair < n && x.major == db.jds[db.pairs[x.pair].jd].key && x.minor == RankKey(db.pairs[x.pair])
  {
    if n > 0 {
      var before := EvaluationQueue(db, c, locked, n - 1);
      if x in before {
        EvaluationKeys(db, c, locked, n - 1, x);
      }
    }
  }

  lemma EvaluationPassedOver(cfg: Settings, db: Db, c: nat, locked: set<nat>, i: nat, q: nat)
    requires Shape(db) && q < |db.pairs| && Evaluable(db, c, locked, q)
    requires i < |EvaluationRows(cfg, db, c, locked)|
    requires forall k :: 0 <= k < |EvaluationRows(cfg, db, c, locked)| ==> EvaluationRows(cfg, db, c, locked)[k].pair != q
    ensures var p := EvaluationRows(cfg, db, c, locked)[i].pair;
      && p < |db.pairs|
      && KeysInOrder(db.jds[db.pairs[p].jd].key, RankKey(db.pairs[p]), db.jds[db.pairs[q].jd].key, RankKey(db.pairs[q]))
  {
    var queue, rows := EvaluationQueue(db, c, locked, |db.pairs|), EvaluationRows(cfg, db, c, locked);
    EvaluationQueueRows(db, c, locked, |db.pairs|);
    SortMembers(queue, QueueOrder());
    var y :| y in queue && y.pair == q;
    EvaluationKeys(db, c, locked, |db.pairs|, y);
    assert y !in rows;
    assert rows[i] in Sort(queue, QueueOrder());
    EvaluationKeys(db, c, locked, |db.pairs|, rows[i]);
    TakenFirst(queue, EvaluationSlots(cfg, db), rows[i], y);
  }

  /** The pair is shortlisted, its wait is over, and nothing keeps a dispatch from claiming it. */
  ghost predicate LeftShortlisted(db: Db, c: nat, locked: set<nat>, q: nat) {
    && q < |db.pairs| && db.pairs[q].campaign == c && db.pairs[q].status.Shortlisted? && q !in locked
    && (db.pairs[q].until.Some? ==> db.pairs[q].until.value <= db.clock)
    && db.pairs[q].jd < |db.jds| && db.jds[db.pairs[q].jd].status.JdShortlisted?
  }

  lemma EvaluationTook(cfg: Settings, db: Db, c: nat, locked: set<nat>)
    requires ValidSettings(cfg) && DbOk(cfg, db) && c < |db.campaigns| && db.campaigns[c] == CampaignRunning
    ensures var expired, db' := ExpiredEvaluating(cfg, db, c), DispatchStage3(cfg, db, c, locked);
      && DbOk(cfg, expired)
      && var rows := EvaluationRows(cfg, expired, c, locked);
      && DistinctRows(expired, rows) && db' == ClaimAll(cfg, expired, rows, |rows|)
      && EvaluationProgress(cfg, expired, db', |rows|)
      && db'.nextToken == db.nextToken + |rows|
  {
    ExpiredEvaluatingOk(cfg, db, c);
    var expired := ExpiredEvaluating(cfg, db, c);
    var rows := EvaluationRows(cfg, expired, c, locked);
    EvaluationRowsSound(cfg, expired, c, locked);
    EvolvesReflexive(expired);
    ClaimAllOk(cfg, expired, c, locked, rows, |rows|);
    ClaimAllChanges(cfg, expired, rows, |rows|);
  }

  lemma StillShortlisted(cfg: Settings, db: Db, c: nat, locked: set<nat>, rows: seq<QueueRow>, q: nat)
    requires Shape(db) && DistinctRows(db, rows) && LeftShortlisted(ClaimAll(cfg, db, rows, |rows|), c, locked, q)
    ensures q < |db.pairs| && Evaluable(db, c, locked, q) && !Named(rows, |rows|, q)
    ensures ClaimAll(cfg, db, rows, |rows|).pairs[q] == db.pairs[q] && ClaimAll(cfg, db, rows, |rows|).jds == db.jds
  {
    ClaimAllChanges(cfg, db, rows, |rows|);
    forall i | 0 <= i < |rows| ensures rows[i].pair != q {
      assert ClaimAll(cfg, db, rows, |rows|).pairs[rows[i].pair].status.Stage3Running?;
    }
  }

  lemma ClaimedIsNamed(cfg: Settings, db: Db, rows: seq<QueueRow>, p: nat) returns (i: nat)
    requires RowsOk(cfg, db) && DistinctRows(db, rows) && JustLeased(db, ClaimAll(cfg, db, rows, |rows|), p)
    ensures i < |rows| && rows[i].pair == p < |db.pairs|
    ensures ClaimAll(cfg, db, rows, |rows|).pairs[p].jd == db.pairs[p].jd
    ensures ClaimAll(cfg, db, rows, |rows|).pairs[p].rank == db.pairs[p].rank
  {
    ClaimAllChanges(cfg, db, rows, |rows|);
    assert RowOk(cfg, db, db.pairs[p]);
    assert Named(rows, |rows|, p);
    i :| i < |rows| && rows[i].pair == p;
    assert ClaimAll(cfg, db, rows, |rows|).pairs[p] == EvaluatingRow(cfg, db, db.pairs[p], db.nextToken + i);
  }

  /**
   * An evaluation dispatch leaves a claimable pair only when the global limit or the batch size is used up,
   * and what it claimed instead comes no later by JD and rank.
   */
  lemma EvaluationTakesFirst(cfg: Settings, w: World, c: nat, locked: set<nat>, p: nat, q: nat)
    requires ValidSettings(cfg) && Reachable(cfg, w) && Enabled(cfg, w, Evaluate(c, locked))
    requires w.db.campaigns[c] == CampaignRunning
    requires LeftShortlisted(DbAfter(cfg, w, Evaluate(c, locked)), c, locked, q)
    ensures var db' := DbAfter(cfg, w, Evaluate(c, locked));
      && (|| Count(db'.pairs, EvaluatingAnywhere()) == cfg.stage3GlobalInflight
          || db'.nextToken == w.db.nextToken + cfg.dispatchBatch)
      && (JustLeased(w.db, db', p) ==>
            && db'.pairs[p].jd < |db'.jds| && db'.pairs[p].rank.Some? && db'.pairs[q].rank.Some?
            && var j, k := db'.jds[db'.pairs[p].jd].key, db'.jds[db'.pairs[q].jd].key;
            && j <= k
            && (j == k ==> db'.pairs[p].rank.value <= db'.pairs[q].rank.value))
  {
    ReachableOk(cfg, w);
    EvaluationTook(cfg, w.db, c, locked);
    var expired := ExpiredEvaluating(cfg, w.db, c);
    EvaluationLeaves(cfg, expired, c, locked, EvaluationRows(cfg, expired, c, locked), DbAfter(cfg, w, Evaluate(c, locked)), p, q);
  }

  lemma {:induction false} EvaluationLeaves(cfg: Settings, db: Db, c: nat, locked: set<nat>, rows: seq<QueueRow>, db': Db, p: nat, q: nat)
    requires ValidSettings(cfg) && DbOk(cfg, db) && DistinctRows(db, rows)
    requires rows == EvaluationRows(cfg, db, c, locked) && db' == ClaimAll(cfg, db, rows, |rows|)
    requires EvaluationProgress(cfg, db, db', |rows|) && LeftShortlisted(db', c, locked, q)
    ensures Count(db'.pairs, EvaluatingAnywhere()) == cfg.stage3GlobalInflight || |rows| == cfg.dispatchBatch
    ensures JustLeased(db, db', p) ==>
      && db'.pairs[p].jd < |db'.jds| && db'.pairs[p].rank.Some? && db'.pairs[q].rank.Some?
      && KeysInOrder(db'.jds[db'.pairs[p].jd].key, db'.pairs[p].rank.value,
                     db'.jds[db'.pairs[q].jd].key, db'.pairs[q].rank.value)
  {
    StillShortlisted(cfg, db, c, locked, rows, q);
    forall i | 0 <= i < |rows| ensures rows[i].pair != q {
      assert !Named(rows, |rows|, q);
    }
    EvaluationRowsComplete(cfg, db, c, locked, q);
    if JustLeased(db, db', p) {
      var i := ClaimedIsNamed(cfg, db, rows, p);
      EvaluationPassedOver(cfg, db, c, locked, i, q);
      EvaluationRowsSound(cfg, db, c, locked);
      ShortlistedIsRanked(cfg, db, p);
      ShortlistedIsRanked(cfg, db, q);
    }
  }

  lemma ShortlistedIsRanked(cfg: Settings, db: Db, p: nat)
    requires RowsOk(cfg, db) && p < |db.pairs| && db.pairs[p].status.Shortlisted?
    ensures db.pairs[p].jd < |db.jds| && db.pairs[p].rank.Some?
  {
    assert RowOk(cfg, db, db.pairs[p]);
  }
}

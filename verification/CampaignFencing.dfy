/**
 * Fencing over all interleavings, late deliveries and duplicates: while a lease is live and not
 * expired only its holder touches the row; the first finishing write retires the token; a retired
 * token never comes back, and every later step that presents it changes nothing.
 */
module CampaignFencing {
  import opened Prelude
  import opened Ranking
  import opened CampaignState
  import opened CampaignInvariant
  import opened CampaignProtocol

  /** The pair and lease token a worker write or an enqueue refund presents. */
  function Presented(w: World, st: Step): Option<(nat, nat)> {
    match st
    case RetrieveRefund(p, t) => Some((p, t))
    case EvaluateRefund(p, t) => Some((p, t))
    case RetrieveFinish(id, _) => OfWorker(w, id)
    case EvaluatePark(id, _) => OfWorker(w, id)
    case EvaluateCount(id) => OfWorker(w, id)
    case EvaluateRetry(id, _, _, _) => OfWorker(w, id)
    case EvaluateFinish(id, _) => OfWorker(w, id)
    case _ => None
  }

  function OfWorker(w: World, id: nat): Option<(nat, nat)> {
    if id in w.workers && !w.workers[id].Extractor? then Some((w.workers[id].pair, w.workers[id].token)) else None
  }

  predicate Presents(w: World, st: Step, t: nat) {
    Presented(w, st).Some? && Presented(w, st).value.1 == t
  }

  /** Every write that presents a token, except the one that counts an attempt. */
  predicate Finishing(st: Step) {
    st.RetrieveRefund? || st.EvaluateRefund? || st.RetrieveFinish?
    || st.EvaluatePark? || st.EvaluateRetry? || st.EvaluateFinish?
  }

  // ----- one step

  lemma StaleStepIsIgnored(cfg: Settings, w: World, st: Step, t: nat)
    requires Enabled(cfg, w, st) && Presents(w, st, t) && !Live(w.db.pairs, t)
    ensures DbAfter(cfg, w, st) == w.db
  {
    var p := Presented(w, st).value.0;
    assert w.db.pairs[p].lease != Some(t);
  }

  lemma ClearedLease(pairs: seq<PairRow>, p: nat, r': PairRow, t: nat)
    requires DistinctLeases(pairs) && p < |pairs| && pairs[p].lease == Some(t) && r'.lease.None?
    ensures Live(pairs, t) && !Live(pairs[p := r'], t)
  {
  }

  lemma FinishingWriteRetires(cfg: Settings, w: World, st: Step, t: nat)
    requires WorldOk(cfg, w) && Enabled(cfg, w, st) && Finishing(st) && Presents(w, st, t)
    requires DbAfter(cfg, w, st) != w.db
    ensures Live(w.db.pairs, t) && !Live(DbAfter(cfg, w, st).pairs, t)
  {
    var p := Presented(w, st).value.0;
    var r' := DbAfter(cfg, w, st).pairs[p];
    assert w.db.pairs[p].lease == Some(t);
    ClearedLease(w.db.pairs, p, r', t);
    assert DbAfter(cfg, w, st).pairs == w.db.pairs[p := r'];
  }

  // ----- a live, unexpired lease is exclusive

  ghost predicate LiveLease(db: Db, p: nat, t: nat) {
    p < |db.pairs| && db.pairs[p].lease == Some(t) && db.pairs[p].until.Some? && db.clock <= db.pairs[p].until.value
  }

  ghost predicate Untouched(db: Db, db': Db, p: nat) {
    p < |db.pairs| && p < |db'.pairs| && db'.pairs[p] == db.pairs[p]
  }

  lemma ReserveLeavesLeased(cfg: Settings, db: Db, c: nat, locked: set<nat>, p: nat)
    requires Shape(db) && p < |db.pairs| && db.pairs[p].status != Pending
    ensures var rows := RetrievalRows(cfg, db, c, locked);
      DistinctRows(db, rows) && Untouched(db, ReserveAll(cfg, db, rows, |rows|), p)
  {
    var rows := RetrievalRows(cfg, db, c, locked);
    RetrievalRowsSound(cfg, db, c, locked);
    ReserveAllChanges(cfg, db, rows, |rows|);
    assert !Named(rows, |rows|, p);
  }

  lemma RetrieveLeavesLeased(cfg: Settings, db: Db, c: nat, locked: set<nat>, p: nat, t: nat)
    requires Shape(db) && c < |db.campaigns| && LiveLease(db, p, t) && Leased(db.pairs[p].status)
    ensures Untouched(db, DispatchPairs(cfg, db, c, locked), p)
  {
    if db.campaigns[c] == CampaignRunning {
      ReserveLeavesLeased(cfg, ExpiredRunning(cfg, db, c), c, locked, p);
    }
  }

  lemma ClaimLeavesLeased(cfg: Settings, db: Db, c: nat, locked: set<nat>, p: nat)
    requires Shape(db) && p < |db.pairs| && db.pairs[p].status != Shortlisted
    ensures var rows := EvaluationRows(cfg, db, c, locked);
      DistinctRows(db, rows) && Untouched(db, ClaimAll(cfg, db, rows, |rows|), p)
  {
    var rows := EvaluationRows(cfg, db, c, locked);
    EvaluationRowsSound(cfg, db, c, locked);
    ClaimAllChanges(cfg, db, rows, |rows|);
    assert !Named(rows, |rows|, p);
  }

  lemma EvaluateLeavesLeased(cfg: Settings, db: Db, c: nat, locked: set<nat>, p: nat, t: nat)
    requires Shape(db) && c < |db.campaigns| && LiveLease(db, p, t) && Leased(db.pairs[p].status)
    ensures Untouched(db, DispatchStage3(cfg, db, c, locked), p)
  {
    if db.campaigns[c] == CampaignRunning {
      ClaimLeavesLeased(cfg, ExpiredEvaluating(cfg, db, c), c, locked, p);
    }
  }

  /** A JD with a leased pair is not ready for its barrier, or is past it. */
  lemma LeasedBlocksBarrier(cfg: Settings, db: Db, j: nat, p: nat)
    requires DbOk(cfg, db) && j < |db.jds| && p < |db.pairs| && Leased(db.pairs[p].status) && db.pairs[p].jd == j
    ensures !Finalizes(db, j)
  {
    assert RowOk(cfg, db, db.pairs[p]);
  }

  lemma BarrierLeavesOthers(db: Db, j: nat, p: nat)
    requires Shape(db) && j < |db.jds| && p < |db.pairs| && (db.pairs[p].jd != j || !Finalizes(db, j))
    ensures Untouched(db, FinalizeJd(db, j), p)
  {
    if Finalizes(db, j) {
      var rows := BarrierRows(db, j);
      RankedPool(db, j);
      RankRowsChanges(db.pairs, rows, Verdicts(rows, BarrierCap(db.jds[j].cap)), |rows|);
    }
  }

  lemma BarrierLeavesLeased(cfg: Settings, db: Db, j: nat, p: nat)
    requires DbOk(cfg, db) && j < |db.jds| && p < |db.pairs| && Leased(db.pairs[p].status)
    ensures Untouched(db, FinalizeJd(db, j), p)
  {
    if db.pairs[p].jd == j {
      LeasedBlocksBarrier(cfg, db, j, p);
    }
    BarrierLeavesOthers(db, j, p);
  }

  lemma IntakeLeavesLeased(cfg: Settings, w: World, st: Step, p: nat, t: nat)
    requires WorldOk(cfg, w) && Enabled(cfg, w, st) && LiveLease(w.db, p, t)
    requires IntakeStep(st) || st.Complete?
    ensures Untouched(w.db, DbAfter(cfg, w, st), p)
  {
    if st.Stage0Claim? || st.Stage0Finish? || st.Stage0Recover? {
      Stage0LeavesLeased(cfg, w, st, p, t);
    }
  }

  /** Stage 0 fails pairs of a document that is not decided yet; those are not leased. */
  lemma Stage0LeavesLeased(cfg: Settings, w: World, st: Step, p: nat, t: nat)
    requires WorldOk(cfg, w) && Enabled(cfg, w, st) && LiveLease(w.db, p, t)
    requires st.Stage0Claim? || st.Stage0Finish? || st.Stage0Recover?
    ensures Untouched(w.db, DbAfter(cfg, w, st), p)
  {
    LeasedCvIsDone(cfg, w.db, p);
    if st.Stage0Claim? {
      ClaimLeavesDecided(cfg, w.db, st.cv, p);
    } else if st.Stage0Finish? {
      FinishLeavesDecided(w.db, w.workers[st.worker].cv, st.extraction, p);
    }
  }

  lemma ClaimLeavesDecided(cfg: Settings, db: Db, v: nat, p: nat)
    requires v < |db.cvs| && p < |db.pairs| && db.pairs[p].cv < |db.cvs| && Stage0Done(db.cvs[db.pairs[p].cv].stage0)
    ensures Untouched(db, ClaimStage0(cfg, db, v), p)
  {
  }

  lemma FinishLeavesDecided(db: Db, v: nat, result: Extraction, p: nat)
    requires v < |db.cvs| && p < |db.pairs| && db.pairs[p].cv < |db.cvs| && Stage0Done(db.cvs[db.pairs[p].cv].stage0)
    ensures Untouched(db, FinishStage0(db, v, result), p)
  {
  }

  lemma LeasedCvIsDone(cfg: Settings, db: Db, p: nat)
    requires RowsOk(cfg, db) && p < |db.pairs| && db.pairs[p].lease.Some?
    ensures db.pairs[p].cv < |db.cvs| && Stage0Done(db.cvs[db.pairs[p].cv].stage0)
  {
    assert RowOk(cfg, db, db.pairs[p]);
  }

  lemma HolderLeavesOthers(cfg: Settings, w: World, st: Step, p: nat, t: nat)
    requires WorldOk(cfg, w) && Enabled(cfg, w, st) && LiveLease(w.db, p, t)
    requires Presented(w, st).Some? && !Presents(w, st, t)
    ensures Untouched(w.db, DbAfter(cfg, w, st), p)
  {
  }

  /** While a lease is live and unexpired, its row changes only in steps that present its token. */
  lemma LeaseIsExclusive(cfg: Settings, w: World, st: Step, p: nat, t: nat)
    requires ValidSettings(cfg) && Reachable(cfg, w) && Enabled(cfg, w, st)
    requires LiveLease(w.db, p, t) && !Presents(w, st, t)
    ensures p < |DbAfter(cfg, w, st).pairs| && DbAfter(cfg, w, st).pairs[p] == w.db.pairs[p]
  {
    ReachableOk(cfg, w);
    assert RowOk(cfg, w.db, w.db.pairs[p]);
    if st.Retrieve? {
      RetrieveLeavesLeased(cfg, w.db, st.campaign, st.locked, p, t);
    } else if st.Evaluate? {
      EvaluateLeavesLeased(cfg, w.db, st.campaign, st.locked, p, t);
    } else if st.Barrier? {
      BarrierLeavesLeased(cfg, w.db, st.jd, p);
    } else if IntakeStep(st) || st.Complete? {
      IntakeLeavesLeased(cfg, w, st, p, t);
    } else if Presented(w, st).Some? {
      HolderLeavesOthers(cfg, w, st, p, t);
    }
  }

  // ----- whole runs

  /** The world before step `i` of a run. */
  ghost function At(cfg: Settings, w: World, run: seq<Step>, i: nat): World
    requires Legal(cfg, w, run) && i <= |run|
    decreases i
  {
    if i == 0 then w else At(cfg, Apply(cfg, w, run[0]), run[1..], i - 1)
  }

  lemma {:induction false} AtIsLegal(cfg: Settings, w: World, run: seq<Step>, i: nat)
    requires Legal(cfg, w, run) && i <= |run|
    ensures Legal(cfg, At(cfg, w, run, i), run[i..])
    ensures After(cfg, At(cfg, w, run, i), run[i..]) == After(cfg, w, run)
    decreases i
  {
    if i == 0 {
      assert run[0..] == run;
    } else {
      var n: nat := i - 1;
      AtIsLegal(cfg, Apply(cfg, w, run[0]), run[1..], n);
      assert run[1..][n..] == run[i..];
    }
  }

  lemma AtEnabled(cfg: Settings, w: World, run: seq<Step>, i: nat)
    requires Legal(cfg, w, run) && i < |run|
    ensures Enabled(cfg, At(cfg, w, run, i), run[i])
  {
    AtIsLegal(cfg, w, run, i);
    LegalHead(cfg, At(cfg, w, run, i), run[i..]);
  }

  lemma LegalHead(cfg: Settings, w: World, run: seq<Step>)
    requires Legal(cfg, w, run) && run != []
    ensures Enabled(cfg, w, run[0]) && Legal(cfg, Apply(cfg, w, run[0]), run[1..])
  {
  }

  lemma {:induction false} AtOk(cfg: Settings, w: World, run: seq<Step>, i: nat)
    requires ValidSettings(cfg) && WorldOk(cfg, w) && Legal(cfg, w, run) && i <= |run|
    ensures WorldOk(cfg, At(cfg, w, run, i))
    decreases i
  {
    if i > 0 {
      var n: nat := i - 1;
      AtOk(cfg, w, run, n);
      AtEnabled(cfg, w, run, n);
      AtNext(cfg, w, run, n);
      StepOk(cfg, At(cfg, w, run, n), run[n]);
    }
  }

  lemma {:induction false} AtNext(cfg: Settings, w: World, run: seq<Step>, i: nat)
    requires Legal(cfg, w, run) && i < |run| && Enabled(cfg, At(cfg, w, run, i), run[i])
    ensures At(cfg, w, run, i + 1) == Apply(cfg, At(cfg, w, run, i), run[i])
    decreases i
  {
    if i > 0 {
      var n: nat := i - 1;
      assert run[1..][n] == run[i];
      AtNext(cfg, Apply(cfg, w, run[0]), run[1..], n);
    } else {
      assert At(cfg, Apply(cfg, w, run[0]), run[1..], 0) == Apply(cfg, w, run[0]);
    }
  }

  lemma AtStep(cfg: Settings, w: World, run: seq<Step>, i: nat)
    requires ValidSettings(cfg) && WorldOk(cfg, w) && Legal(cfg, w, run) && i < |run|
    ensures Evolves(At(cfg, w, run, i).db, At(cfg, w, run, i + 1).db)
  {
    AtOk(cfg, w, run, i);
    AtEnabled(cfg, w, run, i);
    AtNext(cfg, w, run, i);
    StepOk(cfg, At(cfg, w, run, i), run[i]);
  }

  /** Tables that each evolve into the next. */
  ghost predicate Chained(dbs: seq<Db>) {
    && (forall m :: 0 <= m < |dbs| ==> Evolves(dbs[m], dbs[m]))
    && (forall m {:trigger dbs[m]} :: 0 <= m < |dbs| - 1 ==> Evolves(dbs[m], dbs[m + 1]))
  }

  lemma {:induction false} ChainEvolves(dbs: seq<Db>, i: nat, k: nat)
    requires Chained(dbs) && i <= k < |dbs|
    ensures Evolves(dbs[i], dbs[k])
    decreases k - i
  {
    if i < k {
      ChainEvolves(dbs, i + 1, k);
      assert Evolves(dbs[i], dbs[i + 1]);
      EvolvesTransitive(dbs[i], dbs[i + 1], dbs[k]);
    }
  }

  /** The tables before each step of a run, and after the last. */
  ghost function Tables(cfg: Settings, w: World, run: seq<Step>): (dbs: seq<Db>)
    requires Legal(cfg, w, run)
    ensures |dbs| == |run| + 1 && forall i :: 0 <= i < |dbs| ==> dbs[i] == At(cfg, w, run, i).db
  {
    seq(|run| + 1, i requires 0 <= i <= |run| => At(cfg, w, run, i).db)
  }

  lemma TablesChained(cfg: Settings, w: World, run: seq<Step>)
    requires ValidSettings(cfg) && WorldOk(cfg, w) && Legal(cfg, w, run)
    ensures Chained(Tables(cfg, w, run))
  {
    var dbs := Tables(cfg, w, run);
    forall i: nat | i < |dbs| ensures Evolves(dbs[i], dbs[i]) {
      AtOk(cfg, w, run, i);
      EvolvesReflexive(dbs[i]);
    }
    forall i: nat | i < |dbs| - 1 ensures Evolves(dbs[i], dbs[i + 1]) {
      AtStep(cfg, w, run, i);
    }
  }

  /** Step `i` of the run takes the token out of the tables. */
  ghost predicate Retires(cfg: Settings, w: World, run: seq<Step>, i: nat, t: nat)
    requires Legal(cfg, w, run) && i < |run|
  {
    Live(At(cfg, w, run, i).db.pairs, t) && !Live(At(cfg, w, run, i + 1).db.pairs, t)
  }

  lemma LiveIsIssued(cfg: Settings, db: Db, t: nat)
    requires DbOk(cfg, db) && Live(db.pairs, t)
    ensures t < db.nextToken
  {
    var p :| 0 <= p < |db.pairs| && db.pairs[p].lease == Some(t);
    assert RowOk(cfg, db, db.pairs[p]);
  }

  /** A token taken out of the tables never comes back to them. */
  lemma GoneForGood(cfg: Settings, dbs: seq<Db>, i: nat, k: nat, t: nat)
    requires Chained(dbs) && i < k < |dbs| && DbOk(cfg, dbs[i])
    requires Live(dbs[i].pairs, t) && !Live(dbs[i + 1].pairs, t)
    ensures !Live(dbs[k].pairs, t)
  {
    LiveIsIssued(cfg, dbs[i], t);
    assert Evolves(dbs[i], dbs[i + 1]);
    ChainEvolves(dbs, i + 1, k);
  }

  /** A token is retired at most once; after that it is never live and no step presenting it does anything. */
  lemma RetiredForGood(cfg: Settings, w: World, run: seq<Step>, i: nat, k: nat, t: nat)
    requires ValidSettings(cfg) && Reachable(cfg, w) && Legal(cfg, w, run)
    requires i < k < |run| && Retires(cfg, w, run, i, t)
    ensures !Live(At(cfg, w, run, k).db.pairs, t) && !Retires(cfg, w, run, k, t)
    ensures Enabled(cfg, At(cfg, w, run, k), run[k])
    ensures Presents(At(cfg, w, run, k), run[k], t) ==> DbAfter(cfg, At(cfg, w, run, k), run[k]) == At(cfg, w, run, k).db
  {
    ReachableOk(cfg, w);
    TablesChained(cfg, w, run);
    AtOk(cfg, w, run, i);
    GoneForGood(cfg, Tables(cfg, w, run), i, k, t);
    AtEnabled(cfg, w, run, k);
    if Presents(At(cfg, w, run, k), run[k], t) {
      StaleStepIsIgnored(cfg, At(cfg, w, run, k), run[k], t);
    }
  }

  /** Of all the finishing writes presenting one token in a run, at most one takes effect. */
  lemma OneFinishingWrite(cfg: Settings, w: World, run: seq<Step>, i: nat, k: nat, t: nat)
    requires ValidSettings(cfg) && Reachable(cfg, w) && Legal(cfg, w, run) && i < k < |run|
    requires Finishing(run[i]) && Presents(At(cfg, w, run, i), run[i], t)
    requires At(cfg, w, run, i + 1).db != At(cfg, w, run, i).db
    requires Presents(At(cfg, w, run, k), run[k], t)
    ensures At(cfg, w, run, k + 1).db == At(cfg, w, run, k).db
  {
    ReachableOk(cfg, w);
    AtOk(cfg, w, run, i);
    AtEnabled(cfg, w, run, i);
    AtEnabled(cfg, w, run, k);
    AtNext(cfg, w, run, i);
    AtNext(cfg, w, run, k);
    FinishingWriteRetires(cfg, At(cfg, w, run, i), run[i], t);
    RetiredForGood(cfg, w, run, i, k, t);
  }
}

/**
 * What the short transactions mean for the rows they touch: a refund reopens the pair and frees its
 * slot, a parked pair rests until its wait is over, recovery is throttled by its own stamp, and the
 * committed selection is what the selected-pair count reports ever after.
 */
module CampaignTransactions {
  import opened Prelude
  import opened Ranking
  import opened CampaignState
  import opened CampaignInvariant
  import opened CampaignProtocol
  import opened CampaignSafety
  import opened CampaignFencing

  ghost predicate OnlyPairChanges(db: Db, db': Db, p: nat) {
    p < |db.pairs| == |db'.pairs| && db' == db.(pairs := db.pairs[p := db'.pairs[p]])
  }

  /** A campaign has one more retrieval slot, on its own account and on everybody's. */
  ghost predicate RetrievalSlotFreed(db: Db, db': Db, c: nat) {
    && Count(db'.pairs, RunningIn(c)) == Count(db.pairs, RunningIn(c)) - 1
    && Count(db'.pairs, RunningAnywhere()) == Count(db.pairs, RunningAnywhere()) - 1
  }

  // ----- the queue refuses a retrieval message

  /**
   * A refund by the lease holder makes the pair dispatchable again at once, one attempt cheaper,
   * frees one slot, retires the token, and touches nothing else. Any other refund does nothing.
   */
  lemma RefundReopensPair(cfg: Settings, w: World, p: nat, t: nat)
    requires ValidSettings(cfg) && Reachable(cfg, w) && Enabled(cfg, w, RetrieveRefund(p, t))
    ensures var db, db' := w.db, DbAfter(cfg, w, RetrieveRefund(p, t));
      if Holds(db.pairs[p], Running, t) then
        && OnlyPairChanges(db, db', p) && Shape(db') && Retrievable(db', db.pairs[p].campaign, {}, p)
        && db'.pairs[p].attempts == db.pairs[p].attempts - 1 && 0 <= db'.pairs[p].attempts < cfg.runMaxAttempts
        && RetrievalSlotFreed(db, db', db.pairs[p].campaign)
        && !Live(db'.pairs, t)
      else db' == db
  {
    ReachableOk(cfg, w);
    var db := w.db;
    assert RowOk(cfg, db, db.pairs[p]);
    if Holds(db.pairs[p], Running, t) {
      RefundRunningOk(cfg, db, p, t);
      var r' := RefundRunning(db, p, t).pairs[p];
      CountUpdate(db.pairs, p, r', RunningIn(db.pairs[p].campaign));
      CountUpdate(db.pairs, p, r', RunningAnywhere());
      ClearedLease(db.pairs, p, r', t);
    }
  }

  /** Reserving a waiting pair and refunding it restores every row; only the token is used up. */
  lemma RefundUndoesReservation(cfg: Settings, w: World, p: nat, t: nat)
    requires ValidSettings(cfg) && Reachable(cfg, w) && p < |w.db.pairs| && w.db.pairs[p].status == Pending
    ensures var reserved := ReserveRunning(cfg, w.db, p);
      RefundRunning(reserved, p, t)
      == if t == w.db.nextToken then w.db.(nextToken := w.db.nextToken + 1) else reserved
  {
    ReachableOk(cfg, w);
    assert RowOk(cfg, w.db, w.db.pairs[p]);
    var refunded := RefundRunning(ReserveRunning(cfg, w.db, p), p, w.db.nextToken);
    assert refunded.pairs == w.db.pairs;
  }

  // ----- the queue refuses an evaluation message

  /** As for retrieval, except that the attempts were not charged and stay. */
  lemma RefundReopensEvaluation(cfg: Settings, w: World, p: nat, t: nat)
    requires ValidSettings(cfg) && Reachable(cfg, w) && Enabled(cfg, w, EvaluateRefund(p, t))
    ensures var db, db' := w.db, DbAfter(cfg, w, EvaluateRefund(p, t));
      if Holds(db.pairs[p], Stage3Running, t) then
        && OnlyPairChanges(db, db', p) && Shape(db') && Evaluable(db', db.pairs[p].campaign, {}, p)
        && db'.pairs[p].stage3Attempts == db.pairs[p].stage3Attempts && db'.pairs[p].rank == db.pairs[p].rank
        && Count(db'.pairs, EvaluatingAnywhere()) == Count(db.pairs, EvaluatingAnywhere()) - 1
        && !Live(db'.pairs, t)
      else db' == db
  {
    ReachableOk(cfg, w);
    var db := w.db;
    assert RowOk(cfg, db, db.pairs[p]);
    if Holds(db.pairs[p], Stage3Running, t) {
      RefundEvaluatingOk(cfg, db, p, t);
      EvaluationGivenUp(db.pairs, p, RefundEvaluating(db, p, t).pairs[p], t);
    }
  }

  lemma EvaluationGivenUp(pairs: seq<PairRow>, p: nat, r': PairRow, t: nat)
    requires DistinctLeases(pairs) && p < |pairs| && Holds(pairs[p], Stage3Running, t)
    requires r'.lease.None? && r'.status == Shortlisted
    ensures Count(pairs[p := r'], EvaluatingAnywhere()) == Count(pairs, EvaluatingAnywhere()) - 1
    ensures !Live(pairs[p := r'], t)
  {
    CountUpdate(pairs, p, r', EvaluatingAnywhere());
    ClearedLease(pairs, p, r', t);
  }

  /** Claiming a pair and refunding it restores every row, but for a wait that was over. */
  lemma RefundUndoesClaim(cfg: Settings, w: World, c: nat, p: nat, t: nat)
    requires ValidSettings(cfg) && Reachable(cfg, w) && Shape(w.db)
    requires p < |w.db.pairs| && Evaluable(w.db, c, {}, p)
    ensures var claimed, waited := ReserveEvaluating(cfg, w.db, p), w.db.pairs[p].(until := None);
      RefundEvaluating(claimed, p, t)
      == if t == w.db.nextToken then w.db.(pairs := w.db.pairs[p := waited], nextToken := w.db.nextToken + 1)
         else claimed
  {
    ReachableOk(cfg, w);
    assert RowOk(cfg, w.db, w.db.pairs[p]);
    var refunded := RefundEvaluating(ReserveEvaluating(cfg, w.db, p), p, w.db.nextToken);
    assert refunded.pairs == w.db.pairs[p := w.db.pairs[p].(until := None)];
  }

  // ----- a parked pair

  /** The pair waits on the shortlist, and its wait is not over. */
  ghost predicate Resting(db: Db, p: nat) {
    && p < |db.pairs| && db.pairs[p].status == Shortlisted
    && db.pairs[p].until.Some? && db.clock < db.pairs[p].until.value
  }

  lemma RetrieveLeavesResting(cfg: Settings, db: Db, c: nat, locked: set<nat>, p: nat)
    requires Shape(db) && c < |db.campaigns| && Resting(db, p)
    ensures Untouched(db, DispatchPairs(cfg, db, c, locked), p)
  {
    if db.campaigns[c] == CampaignRunning {
      ReserveLeavesLeased(cfg, ExpiredRunning(cfg, db, c), c, locked, p);
    }
  }

  lemma EvaluateLeavesResting(cfg: Settings, db: Db, c: nat, locked: set<nat>, p: nat)
    requires Shape(db) && c < |db.campaigns| && Resting(db, p)
    ensures Untouched(db, DispatchStage3(cfg, db, c, locked), p)
  {
    if db.campaigns[c] == CampaignRunning {
      var expired := ExpiredEvaluating(cfg, db, c);
      var rows := EvaluationRows(cfg, expired, c, locked);
      EvaluationRowsSound(cfg, expired, c, locked);
      ClaimAllChanges(cfg, expired, rows, |rows|);
      assert !Named(rows, |rows|, p);
    }
  }

  lemma BarrierLeavesResting(cfg: Settings, db: Db, j: nat, p: nat)
    requires DbOk(cfg, db) && j < |db.jds| && Resting(db, p)
    ensures Untouched(db, FinalizeJd(db, j), p)
  {
    assert RowOk(cfg, db, db.pairs[p]);
    BarrierLeavesOthers(db, j, p);
  }

  lemma IntakeLeavesResting(cfg: Settings, w: World, st: Step, p: nat)
    requires WorldOk(cfg, w) && Enabled(cfg, w, st) && Resting(w.db, p)
    requires IntakeStep(st) || st.Complete?
    ensures Untouched(w.db, DbAfter(cfg, w, st), p)
  {
    assert RowOk(cfg, w.db, w.db.pairs[p]);
    if st.Stage0Claim? {
      ClaimLeavesDecided(cfg, w.db, st.cv, p);
    } else if st.Stage0Finish? {
      FinishLeavesDecided(w.db, w.workers[st.worker].cv, st.extraction, p);
    }
  }

  lemma FencedLeavesResting(cfg: Settings, w: World, st: Step, p: nat)
    requires WorldOk(cfg, w) && Enabled(cfg, w, st) && Resting(w.db, p) && Presented(w, st).Some?
    ensures Untouched(w.db, DbAfter(cfg, w, st), p)
  {
    assert RowOk(cfg, w.db, w.db.pairs[p]);
    if st.RetrieveRefund? || st.RetrieveFinish? {
      RetrieverLeavesUnleased(cfg, w, st, p);
    } else {
      EvaluatorLeavesUnleased(cfg, w, st, p);
    }
  }

  lemma RetrieverLeavesUnleased(cfg: Settings, w: World, st: Step, p: nat)
    requires Enabled(cfg, w, st) && p < |w.db.pairs| && w.db.pairs[p].lease.None?
    requires st.RetrieveRefund? || st.RetrieveFinish?
    ensures Untouched(w.db, DbAfter(cfg, w, st), p)
  {
  }

  lemma EvaluatorLeavesUnleased(cfg: Settings, w: World, st: Step, p: nat)
    requires Enabled(cfg, w, st) && p < |w.db.pairs| && w.db.pairs[p].lease.None?
    requires st.EvaluateRefund? || EvaluatorStep(st)
    ensures Untouched(w.db, DbAfter(cfg, w, st), p)
  {
  }

  /** No step of any actor changes a pair whose wait is not over. */
  lemma RestingIsUntouched(cfg: Settings, w: World, st: Step, p: nat)
    requires WorldOk(cfg, w) && Enabled(cfg, w, st) && Resting(w.db, p)
    ensures Untouched(w.db, DbAfter(cfg, w, st), p)
  {
    if st.Retrieve? {
      RetrieveLeavesResting(cfg, w.db, st.campaign, st.locked, p);
    } else if st.Evaluate? {
      EvaluateLeavesResting(cfg, w.db, st.campaign, st.locked, p);
    } else if st.Barrier? {
      BarrierLeavesResting(cfg, w.db, st.jd, p);
    } else if IntakeStep(st) || st.Complete? {
      IntakeLeavesResting(cfg, w, st, p);
    } else if Presented(w, st).Some? {
      FencedLeavesResting(cfg, w, st, p);
    }
  }

  lemma {:induction false} RestsUntilOver(cfg: Settings, w: World, run: seq<Step>, p: nat)
    requires ValidSettings(cfg) && WorldOk(cfg, w) && Legal(cfg, w, run)
    requires p < |w.db.pairs| && w.db.pairs[p].status == Shortlisted && w.db.pairs[p].until.Some?
    requires After(cfg, w, run).db.clock < w.db.pairs[p].until.value
    ensures Untouched(w.db, After(cfg, w, run).db, p)
    decreases |run|
  {
    if run != [] {
      var next := Apply(cfg, w, run[0]);
      RunOk(cfg, w, run);
      StepOk(cfg, w, run[0]);
      RunOk(cfg, next, run[1..]);
      RestingIsUntouched(cfg, w, run[0], p);
      RestsUntilOver(cfg, next, run[1..], p);
    }
  }

  /** While a shortlisted row stays as it is, the pair can be claimed exactly when its wait is over. */
  lemma ShortlistedIsEvaluable(cfg: Settings, db: Db, p: nat)
    requires DbOk(cfg, db) && p < |db.pairs| && db.pairs[p].status == Shortlisted && db.pairs[p].until.Some?
    ensures Evaluable(db, db.pairs[p].campaign, {}, p) <==> db.pairs[p].until.value <= db.clock
  {
    assert RowOk(cfg, db, db.pairs[p]);
  }

  lemma RestsThenWakes(cfg: Settings, w: World, run: seq<Step>, p: nat, over: int)
    requires ValidSettings(cfg) && WorldOk(cfg, w) && Legal(cfg, w, run)
    requires p < |w.db.pairs| && w.db.pairs[p].status == Shortlisted && w.db.pairs[p].until == Some(over)
    ensures var db, parked := After(cfg, w, run).db, w.db.pairs[p];
      && p < |db.pairs| && Shape(db)
      && (db.clock < over ==> db.pairs[p] == parked)
      && (db.pairs[p] == parked ==> (Evaluable(db, parked.campaign, {}, p) <==> over <= db.clock))
  {
    RunOk(cfg, w, run);
    var db := After(cfg, w, run).db;
    if db.clock < over {
      RestsUntilOver(cfg, w, run, p);
    }
    if db.pairs[p] == w.db.pairs[p] {
      ShortlistedIsEvaluable(cfg, db, p);
    }
  }

  /** The row an admission denial leaves behind. */
  function ParkedRow(r: PairRow, until: int): PairRow {
    r.(status := Shortlisted, lease := None, until := Some(until))
  }

  lemma ParkWrites(cfg: Settings, w: World, id: nat, wait: nat)
    requires Enabled(cfg, w, EvaluatePark(id, wait))
    requires Holds(w.db.pairs[w.workers[id].pair], Stage3Running, w.workers[id].token)
    ensures var p, db' := w.workers[id].pair, Apply(cfg, w, EvaluatePark(id, wait)).db;
      && OnlyPairChanges(w.db, db', p)
      && db'.pairs[p] == ParkedRow(w.db.pairs[p], w.db.clock + wait)
  {
  }

  /**
   * A denied evaluation goes back to the shortlist without being charged. In every continuation
   * nothing touches it before its wait is over, and once it is over a dispatch can claim it again.
   */
  lemma ParkedPairRests(cfg: Settings, w: World, id: nat, wait: nat, run: seq<Step>)
    requires ValidSettings(cfg) && Reachable(cfg, w) && Enabled(cfg, w, EvaluatePark(id, wait))
    requires Holds(w.db.pairs[w.workers[id].pair], Stage3Running, w.workers[id].token)
    requires Legal(cfg, Apply(cfg, w, EvaluatePark(id, wait)), run)
    ensures var p, over := w.workers[id].pair, w.db.clock + wait;
      var db, parked := After(cfg, Apply(cfg, w, EvaluatePark(id, wait)), run).db, ParkedRow(w.db.pairs[p], over);
      && p < |db.pairs| && Shape(db)
      && (db.clock < over ==> db.pairs[p] == parked)
      && (db.pairs[p] == parked ==> (Evaluable(db, parked.campaign, {}, p) <==> over <= db.clock))
  {
    ReachableOk(cfg, w);
    StepOk(cfg, w, EvaluatePark(id, wait));
    ParkWrites(cfg, w, id, wait);
    RestsThenWakes(cfg, Apply(cfg, w, EvaluatePark(id, wait)), run, w.workers[id].pair, w.db.clock + wait);
  }

  // ----- recovery

  /** How long recovery leaves a document alone after it was stamped. */
  function RecoveryWindow(cfg: Settings, s: Stage0Status): nat {
    if s == Stage0Pending then cfg.queueRecovery else LeaseLength(cfg)
  }

  lemma RecoverWrites(cfg: Settings, w: World, v: nat)
    requires Enabled(cfg, w, Stage0Recover(v)) && w.db.cvs[v].campaign < |w.db.campaigns|
    requires NeedsRecovery(cfg, w.db, v)
    ensures var w' := Apply(cfg, w, Stage0Recover(v));
      && w'.db == w.db.(cvs := w.db.cvs[v := w.db.cvs[v].(updatedAt := w.db.clock)])
      && w'.notices == w.notices + {Notice(v, w.db.clock)}
  {
  }

  /**
   * Recovery publishes one message, carrying the stamp it writes, and touches nothing else. In every
   * continuation it leaves the document alone for a whole window after that stamp; if only time
   * passes, exactly that long.
   */
  lemma RecoveryIsThrottled(cfg: Settings, w: World, v: nat, run: seq<Step>)
    requires ValidSettings(cfg) && Reachable(cfg, w) && Enabled(cfg, w, Stage0Recover(v))
    requires w.db.cvs[v].campaign < |w.db.campaigns| && NeedsRecovery(cfg, w.db, v)
    requires Legal(cfg, Apply(cfg, w, Stage0Recover(v)), run)
    ensures var next := Apply(cfg, w, Stage0Recover(v));
      && next.db == w.db.(cvs := w.db.cvs[v := w.db.cvs[v].(updatedAt := w.db.clock)])
      && next.notices == w.notices + {Notice(v, w.db.clock)}
    ensures var next := Apply(cfg, w, Stage0Recover(v));
      Throttled(cfg, next.db, After(cfg, next, run).db, v, w.db.clock)
  {
    ReachableOk(cfg, w);
    StepOk(cfg, w, Stage0Recover(v));
    RecoverWrites(cfg, w, v);
    var next := Apply(cfg, w, Stage0Recover(v));
    RunOk(cfg, next, run);
    StampThrottles(cfg, next.db, After(cfg, next, run).db, v);
  }

  /** `db'` comes after `db`, in which document `v` was stamped at `stamp`. */
  ghost predicate Throttled(cfg: Settings, db: Db, db': Db, v: nat, stamp: int) {
    && v < |db'.cvs| && db'.cvs[v].campaign < |db'.campaigns|
    && (NeedsRecovery(cfg, db', v) ==> db'.clock > stamp + RecoveryWindow(cfg, db'.cvs[v].stage0))
    && (db' == db.(clock := db'.clock) ==>
          (NeedsRecovery(cfg, db', v) <==> db'.clock > stamp + RecoveryWindow(cfg, db'.cvs[v].stage0)))
  }

  lemma StampThrottles(cfg: Settings, db: Db, db': Db, v: nat)
    requires v < |db.cvs| <= |db'.cvs| && CvEvolves(db.cvs[v], db'.cvs[v]) && |db'.campaigns| == |db.campaigns|
    requires !Stage0Done(db.cvs[v].stage0)
    requires db.cvs[v].campaign < |db.campaigns| && db.campaigns[db.cvs[v].campaign] == CampaignRunning
    ensures Throttled(cfg, db, db', v, db.cvs[v].updatedAt)
  {
  }

  // ----- a document whose worker is gone

  /** The document is marked RUNNING, but no worker is extracting it. */
  ghost predicate Abandoned(w: World, v: nat) {
    && v < |w.db.cvs| && w.db.cvs[v].stage0 == Stage0Running
    && (forall id :: id in w.workers ==> w.workers[id] != Extractor(v))
  }

  /** Every delivery of a message for the document comes within a lease of the stamp it carries. */
  ghost predicate DeliveredInTime(cfg: Settings, w: World, run: seq<Step>, v: nat)
    requires Legal(cfg, w, run)
    decreases |run|
  {
    run != [] ==> InTime(cfg, w, run[0], v) && DeliveredInTime(cfg, Apply(cfg, w, run[0]), run[1..], v)
  }

  predicate InTime(cfg: Settings, w: World, st: Step, v: nat) {
    st.Stage0Claim? && st.cv == v ==> w.db.clock < st.stamp + LeaseLength(cfg)
  }

  /** A message in time finds a running document. */
  lemma InTimeIsDropped(cfg: Settings, w: World, v: nat, at: int)
    requires WorldOk(cfg, w) && Enabled(cfg, w, Stage0Claim(v, at)) && w.db.cvs[v].stage0 == Stage0Running
    ensures ClaimOutcome(cfg, w.db, v) == AlreadyRunning <==> w.db.clock < w.db.cvs[v].updatedAt + LeaseLength(cfg)
    ensures w.db.clock < at + LeaseLength(cfg) ==> ClaimOutcome(cfg, w.db, v) == AlreadyRunning
  {
    assert NoticeOk(w.db, Notice(v, at));
  }

  lemma Stage0KeepsAbandoned(cfg: Settings, w: World, st: Step, v: nat)
    requires WorldOk(cfg, w) && Enabled(cfg, w, st) && Abandoned(w, v) && InTime(cfg, w, st, v)
    requires st.Stage0Claim? || st.Stage0Finish? || st.Stage0Recover?
    ensures Abandoned(Apply(cfg, w, st), v)
  {
    if st.Stage0Claim? {
      ClaimKeepsAbandoned(cfg, w, st.cv, st.stamp, v);
    } else if st.Stage0Finish? {
      FinishKeepsAbandoned(cfg, w, st.worker, st.extraction, v);
    } else {
      RecoverKeepsAbandoned(cfg, w, st.cv, v);
    }
  }

  lemma RecoverKeepsAbandoned(cfg: Settings, w: World, u: nat, v: nat)
    requires Enabled(cfg, w, Stage0Recover(u)) && Abandoned(w, v)
    ensures Abandoned(Apply(cfg, w, Stage0Recover(u)), v)
  {
  }

  lemma ClaimKeepsAbandoned(cfg: Settings, w: World, u: nat, at: int, v: nat)
    requires WorldOk(cfg, w) && Enabled(cfg, w, Stage0Claim(u, at)) && Abandoned(w, v)
    requires u == v ==> w.db.clock < at + LeaseLength(cfg)
    ensures Abandoned(Apply(cfg, w, Stage0Claim(u, at)), v)
  {
    if u == v {
      InTimeIsDropped(cfg, w, v, at);
      assert Apply(cfg, w, Stage0Claim(u, at)) == w;
    } else {
      OtherClaim(cfg, w, u, at, v);
    }
  }

  lemma OtherClaim(cfg: Settings, w: World, u: nat, at: int, v: nat)
    requires Enabled(cfg, w, Stage0Claim(u, at)) && v < |w.db.cvs| && u != v
    ensures var w' := Apply(cfg, w, Stage0Claim(u, at));
      && v < |w'.db.cvs| && w'.db.cvs[v] == w.db.cvs[v]
      && (forall id :: id in w'.workers ==> (id in w.workers && w'.workers[id] == w.workers[id]) || w'.workers[id] == Extractor(u))
  {
  }

  lemma FinishKeepsAbandoned(cfg: Settings, w: World, id: nat, result: Extraction, v: nat)
    requires Enabled(cfg, w, Stage0Finish(id, result)) && Abandoned(w, v)
    ensures Abandoned(Apply(cfg, w, Stage0Finish(id, result)), v)
  {
    assert w.workers[id].cv != v;
  }

  /** The other steps leave the documents alone and hire no extractor. */
  lemma OthersKeepCvs(cfg: Settings, w: World, st: Step)
    requires Enabled(cfg, w, st) && !st.Stage0Claim? && !st.Stage0Finish? && !st.Stage0Recover?
    ensures w.db.cvs <= DbAfter(cfg, w, st).cvs
  {
    if st.Retrieve? {
      RetrieveSameOwners(cfg, w.db, st.campaign, st.locked);
    } else if st.Evaluate? {
      EvaluateSameOwners(cfg, w.db, st.campaign, st.locked);
    }
  }

  lemma OthersHireNoExtractor(cfg: Settings, w: World, st: Step, v: nat)
    requires Enabled(cfg, w, st) && !st.Stage0Claim? && !st.Stage0Finish? && !st.Stage0Recover?
    requires forall id :: id in w.workers ==> w.workers[id] != Extractor(v)
    ensures forall id :: id in Apply(cfg, w, st).workers ==> Apply(cfg, w, st).workers[id] != Extractor(v)
  {
  }

  lemma StepKeepsAbandoned(cfg: Settings, w: World, st: Step, v: nat)
    requires WorldOk(cfg, w) && Enabled(cfg, w, st) && Abandoned(w, v) && InTime(cfg, w, st, v)
    ensures Abandoned(Apply(cfg, w, st), v)
  {
    if st.Stage0Claim? || st.Stage0Finish? || st.Stage0Recover? {
      Stage0KeepsAbandoned(cfg, w, st, v);
    } else {
      OthersKeepCvs(cfg, w, st);
      OthersHireNoExtractor(cfg, w, st, v);
    }
  }

  lemma {:induction false} RunKeepsAbandoned(cfg: Settings, w: World, run: seq<Step>, v: nat)
    requires ValidSettings(cfg) && WorldOk(cfg, w) && Abandoned(w, v)
    requires Legal(cfg, w, run) && DeliveredInTime(cfg, w, run, v)
    ensures Abandoned(After(cfg, w, run), v)
    decreases |run|
  {
    if run != [] {
      StepOk(cfg, w, run[0]);
      StepKeepsAbandoned(cfg, w, run[0], v);
      RunKeepsAbandoned(cfg, Apply(cfg, w, run[0]), run[1..], v);
    }
  }

  /**
   * A document left RUNNING by a lost worker stays abandoned for as long as every message for it,
   * recovery's own included, is delivered within a lease of the stamp it was published with.
   */
  lemma AbandonedWhileInTime(cfg: Settings, w: World, run: seq<Step>, v: nat)
    requires ValidSettings(cfg) && Reachable(cfg, w) && Abandoned(w, v)
    requires Legal(cfg, w, run) && DeliveredInTime(cfg, w, run, v)
    ensures Abandoned(After(cfg, w, run), v)
  {
    ReachableOk(cfg, w);
    RunKeepsAbandoned(cfg, w, run, v);
  }

  // ----- the selected-pair count

  /**
   * After the barrier of a JD has committed, the count of selected pairs is in every continuation
   * the size of the batch selection from the pool the barrier ranked.
   */
  lemma SelectionIsFixed(cfg: Settings, w: World, j: nat, run: seq<Step>)
    requires ValidSettings(cfg) && Reachable(cfg, w) && Enabled(cfg, w, Barrier(j))
    requires JdOpen(w.db.jds[j].status) && !Unresolved(w.db, j)
    requires Legal(cfg, Apply(cfg, w, Barrier(j)), run)
    ensures var chosen := RankAndFilter(Pool(w.db, j, |w.db.pairs|), BarrierCap(w.db.jds[j].cap));
      && chosen.Some?
      && SelectedPairs(After(cfg, Apply(cfg, w, Barrier(j)), run).db.pairs, j) == |chosen.value|
  {
    ReachableOk(cfg, w);
    CommittedSelection(cfg, w.db, j);
    StepOk(cfg, w, Barrier(j));
    SelectionKept(cfg, Apply(cfg, w, Barrier(j)), run, j);
  }

  lemma CommittedSelection(cfg: Settings, db: Db, j: nat)
    requires DbOk(cfg, db) && j < |db.jds| && JdOpen(db.jds[j].status) && !Unresolved(db, j)
    ensures var db', chosen := FinalizeJd(db, j), RankAndFilter(Pool(db, j, |db.pairs|), BarrierCap(db.jds[j].cap));
      && j < |db'.jds| && !JdOpen(db'.jds[j].status)
      && chosen.Some? && SelectedPairs(db'.pairs, j) == |chosen.value|
  {
    var pool := Pool(db, j, |db.pairs|);
    NothingUnscored(cfg, db, j);
    PoolIdsUnique(cfg, db, j);
    BarrierRefinesBatchSelection(pool, pool, db.jds[j].cap);
    FinalizedSelection(cfg, db, j);
    FinalizeWrites(db, j);
  }

  lemma SelectionKept(cfg: Settings, w: World, run: seq<Step>, j: nat)
    requires ValidSettings(cfg) && WorldOk(cfg, w) && Legal(cfg, w, run)
    requires j < |w.db.jds| && !JdOpen(w.db.jds[j].status)
    ensures SelectedPairs(After(cfg, w, run).db.pairs, j) == SelectedPairs(w.db.pairs, j)
  {
    RunOk(cfg, w, run);
    FinalizedRows(cfg, w, run, j);
    SelectedKept(w.db, After(cfg, w, run).db, j);
  }
}

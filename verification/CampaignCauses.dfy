/**
 * Why a pair has the status it has: every change of status has one cause, the causes are these, and what a
 * worker that holds the lease reports is what the pair becomes.
 */
module CampaignCauses {
  import opened Prelude
  import opened Ranking
  import opened CampaignState
  import opened CampaignInvariant
  import opened CampaignProtocol
  import opened CampaignSafety
  import opened CampaignFencing
  import opened CampaignBudget

  /** The worker works on the pair, and its token is the pair's lease. */
  ghost predicate Holder(w: World, id: nat, p: nat) {
    && id in w.workers && !w.workers[id].Extractor? && w.workers[id].pair == p
    && p < |w.db.pairs| && w.db.pairs[p].lease == Some(w.workers[id].token)
  }

  predicate Fit(e: Option<Evidence>) {
    e.Some? && e.value.currentVersion && e.value.shortlistEligible && 0.0 < e.value.score <= 1.0
  }

  predicate Overdue(db: Db, r: PairRow) {
    r.until.Some? && r.until.value < db.clock
  }

  /** A fresh lease of run timeout plus 35 seconds. */
  predicate FreshlyLeased(cfg: Settings, db: Db, r: PairRow) {
    && r.lease.Some? && db.nextToken <= r.lease.value
    && r.until == Some(db.clock + cfg.runTimeout + 35)
  }

  // ----- what can have made a row what it now is

  ghost predicate CausedWaiting(cfg: Settings, w: World, st: Step, p: nat, r: PairRow, r': PairRow) {
    || (st.RetrieveRefund? && st.pair == p && r.lease == Some(st.token) && r'.attempts == r.attempts - 1)
    || (st.RetrieveFinish? && Holder(w, st.worker, p) && st.retrieval.RetrievalError? && r.attempts < cfg.runMaxAttempts)
    || (st.Retrieve? && r.status.Running? && Overdue(w.db, r) && r.attempts < cfg.runMaxAttempts)
  }

  ghost predicate CausedRunning(cfg: Settings, w: World, st: Step, p: nat, r: PairRow, r': PairRow) {
    && st.Retrieve? && st.campaign == r.campaign && r.status.Pending?
    && FreshlyLeased(cfg, w.db, r') && r'.attempts == r.attempts + 1
    && r.cv < |w.db.cvs| && w.db.cvs[r.cv].stage0.Stage0Succeeded?
    && r.jd < |w.db.jds| && (w.db.jds[r.jd].status.JdPending? || w.db.jds[r.jd].status.JdProcessing?)
  }

  ghost predicate CausedReady(w: World, st: Step, p: nat, r': PairRow) {
    && st.RetrieveFinish? && Holder(w, st.worker, p) && w.workers[st.worker].Retriever?
    && st.retrieval.Scored? && r'.evidence == Some(st.retrieval.evidence)
    && r'.sourceText == w.workers[st.worker].text
  }

  ghost predicate CausedUnread(w: World, st: Step, r: PairRow, r': PairRow) {
    || (st.Stage0Claim? && st.cv == r.cv && r.cv < |w.db.cvs| && !w.db.cvs[r.cv].hasPdf
        && r'.failure == Some("PDF_MISSING"))
    || (st.Stage0Finish? && st.worker in w.workers && w.workers[st.worker] == Extractor(r.cv)
        && st.extraction.Error? && r'.failure == Some(st.extraction.code))
  }

  ghost predicate CausedUnprocessed(cfg: Settings, w: World, st: Step, p: nat, r: PairRow, r': PairRow) {
    && r.status.Running? && r.attempts >= cfg.runMaxAttempts
    && (|| (st.RetrieveFinish? && Holder(w, st.worker, p) && st.retrieval.RetrievalError?
            && r'.failure == Some(st.retrieval.code))
        || (st.Retrieve? && Overdue(w.db, r) && r'.failure == Some("RETRIEVAL_ATTEMPTS_EXHAUSTED")))
  }

  ghost predicate CausedShortlisted(cfg: Settings, w: World, st: Step, p: nat, r: PairRow, r': PairRow) {
    || (st.Barrier? && st.jd == r.jd && r.status.Stage2Ready? && Fit(r.evidence))
    || (r.status.Stage3Running?
        && (|| (st.EvaluateRefund? && st.pair == p && r.lease == Some(st.token))
            || (st.EvaluatePark? && Holder(w, st.worker, p) && r'.until == Some(w.db.clock + st.wait))
            || (st.EvaluateRetry? && Holder(w, st.worker, p) && w.workers[st.worker].Evaluator?
                && w.workers[st.worker].attempt.Some? && w.workers[st.worker].attempt.value < cfg.stage3MaxAttempts
                && r'.until == Some(w.db.clock + st.delay) && r'.failure == Some(st.code))
            || (st.Evaluate? && Overdue(w.db, r) && r.stage3Attempts < cfg.stage3MaxAttempts)))
  }

  ghost predicate CausedEvaluating(cfg: Settings, w: World, st: Step, r: PairRow, r': PairRow) {
    && st.Evaluate? && st.campaign == r.campaign && r.status.Shortlisted?
    && (r.until.Some? ==> r.until.value <= w.db.clock)
    && FreshlyLeased(cfg, w.db, r') && r'.stage3Attempts == r.stage3Attempts
    && r.jd < |w.db.jds| && w.db.jds[r.jd].status.JdShortlisted?
  }

  ghost predicate Reported(w: World, st: Step, p: nat, e: Evaluation) {
    st.EvaluateFinish? && Holder(w, st.worker, p) && w.db.pairs[p].status.Stage3Running? && st.evaluation == e
  }

  ghost predicate CausedReview(w: World, st: Step, p: nat, r: PairRow, r': PairRow) {
    || Reported(w, st, p, NeedsReview)
    || (st.Barrier? && st.jd == r.jd && r.status.Stage2Ready? && r.evidence.Some? && !Fit(r.evidence)
        && r'.failure.Some? && r'.failure.value != "")
  }

  ghost predicate CausedUnevaluated(cfg: Settings, w: World, st: Step, p: nat, r: PairRow, r': PairRow) {
    && r'.failure.Some? && r.status.Stage3Running?
    && (|| Reported(w, st, p, Failed(r'.failure.value))
        || (st.EvaluateRetry? && Holder(w, st.worker, p) && w.workers[st.worker].Evaluator?
            && w.workers[st.worker].attempt.Some? && w.workers[st.worker].attempt.value >= cfg.stage3MaxAttempts
            && r'.failure.value == st.exhausted)
        || (st.Evaluate? && Overdue(w.db, r) && r.stage3Attempts >= cfg.stage3MaxAttempts
            && r'.failure.value == "STAGE3_ATTEMPTS_EXHAUSTED"))
  }

  ghost predicate Caused(cfg: Settings, w: World, st: Step, p: nat, r: PairRow, r': PairRow) {
    match r'.status
    case Pending => CausedWaiting(cfg, w, st, p, r, r')
    case Running => CausedRunning(cfg, w, st, p, r, r')
    case Stage2Ready => CausedReady(w, st, p, r')
    case ExtractionFailed => CausedUnread(w, st, r, r')
    case FilterRejected => st.RetrieveFinish? && Holder(w, st.worker, p) && st.retrieval.FilterFailed?
    case ProcessingFailed => CausedUnprocessed(cfg, w, st, p, r, r')
    case CutoffExcluded => st.Barrier? && st.jd == r.jd && r.status.Stage2Ready? && Fit(r.evidence)
    case Shortlisted => CausedShortlisted(cfg, w, st, p, r, r')
    case Stage3Running => CausedEvaluating(cfg, w, st, r, r')
    case Success => Reported(w, st, p, Succeeded)
    case ReviewRequired => CausedReview(w, st, p, r, r')
    case EvaluationFailed => CausedUnevaluated(cfg, w, st, p, r, r')
  }

  /** The row changes its status, if at all, for a cause. */
  ghost predicate HasCause(cfg: Settings, w: World, st: Step, p: nat, r': PairRow)
    requires p < |w.db.pairs|
  {
    r'.status != w.db.pairs[p].status ==> Caused(cfg, w, st, p, w.db.pairs[p], r')
  }

  // ----- one kind of step after the other

  lemma IntakeCause(cfg: Settings, w: World, st: Step, p: nat)
    requires WorldOk(cfg, w) && Enabled(cfg, w, st) && IntakeStep(st) && p < |w.db.pairs|
    ensures p < |DbAfter(cfg, w, st).pairs| && HasCause(cfg, w, st, p, DbAfter(cfg, w, st).pairs[p])
  {
    if st.Stage0Claim? {
      ClaimCause(cfg, w, st.cv, st.stamp, p);
    } else if st.Stage0Finish? {
      ExtractionCause(cfg, w, st.worker, st.extraction, p);
    }
  }

  lemma ClaimCause(cfg: Settings, w: World, v: nat, at: int, p: nat)
    requires Enabled(cfg, w, Stage0Claim(v, at)) && p < |w.db.pairs|
    ensures p < |DbAfter(cfg, w, Stage0Claim(v, at)).pairs|
    ensures HasCause(cfg, w, Stage0Claim(v, at), p, DbAfter(cfg, w, Stage0Claim(v, at)).pairs[p])
  {
  }

  lemma ExtractionCause(cfg: Settings, w: World, id: nat, result: Extraction, p: nat)
    requires Enabled(cfg, w, Stage0Finish(id, result)) && p < |w.db.pairs|
    ensures p < |DbAfter(cfg, w, Stage0Finish(id, result)).pairs|
    ensures HasCause(cfg, w, Stage0Finish(id, result), p, DbAfter(cfg, w, Stage0Finish(id, result)).pairs[p])
  {
  }

  /** What a retrieval dispatch reserves was waiting, with its CV read and its JD open. */
  lemma RetrievedWas(cfg: Settings, db: Db, c: nat, locked: set<nat>, p: nat)
    requires Shape(db) && p < |db.pairs|
    ensures var rows := RetrievalRows(cfg, db, c, locked);
      && DistinctRows(db, rows) && |ReserveAll(cfg, db, rows, |rows|).pairs| == |db.pairs|
      && (ReserveAll(cfg, db, rows, |rows|).pairs[p] == db.pairs[p] || Retrievable(db, c, locked, p))
  {
    var rows := RetrievalRows(cfg, db, c, locked);
    RetrievalRowsSound(cfg, db, c, locked);
    if Retrievable(db, c, locked, p) {
    } else {
      assert !Named(rows, |rows|, p);
      ReserveAllChanges(cfg, db, rows, |rows|);
    }
  }

  lemma RetrieveCause(cfg: Settings, w: World, c: nat, locked: set<nat>, p: nat)
    requires WorldOk(cfg, w) && Enabled(cfg, w, Retrieve(c, locked)) && p < |w.db.pairs|
    ensures p < |DispatchPairs(cfg, w.db, c, locked).pairs|
    ensures HasCause(cfg, w, Retrieve(c, locked), p, DispatchPairs(cfg, w.db, c, locked).pairs[p])
  {
    if w.db.campaigns[c] == CampaignRunning {
      var t := RetrievedBy(cfg, w.db, c, locked, p);
      RetrievedCause(cfg, w, c, locked, p, t, DispatchPairs(cfg, w.db, c, locked).pairs[p]);
    }
  }

  /** The token a dispatch has given the row, if any. */
  lemma RetrievedBy(cfg: Settings, db: Db, c: nat, locked: set<nat>, p: nat) returns (t: Option<nat>)
    requires Shape(db) && c < |db.campaigns| && db.campaigns[c] == CampaignRunning && p < |db.pairs|
    ensures |DispatchPairs(cfg, db, c, locked).pairs| == |db.pairs|
    ensures RetrievedAs(cfg, db, c, p, t, DispatchPairs(cfg, db, c, locked).pairs[p])
  {
    var expired := ExpiredRunning(cfg, db, c);
    RetrievedWas(cfg, expired, c, locked, p);
    ReservedRow(cfg, expired, c, locked, p);
    var r' := DispatchPairs(cfg, db, c, locked).pairs[p];
    if r' == expired.pairs[p] {
      t := None;
    } else {
      var token: nat :| token >= expired.nextToken && r' == RunningRow(cfg, expired, expired.pairs[p], token);
      t := Some(token);
    }
  }

  ghost predicate RetrievedAs(cfg: Settings, db: Db, c: nat, p: nat, t: Option<nat>, r': PairRow)
    requires Shape(db) && p < |db.pairs|
  {
    var mid := ExpireRunning(cfg, db.clock, c, db.pairs[p]);
    if t.None? then r' == mid
    else
      && r' == RunningRow(cfg, db, mid, t.value) && t.value >= db.nextToken
      && mid.campaign == c && mid.status.Pending?
      && db.cvs[db.pairs[p].cv].stage0.Stage0Succeeded? && JdOpen(db.jds[db.pairs[p].jd].status)
  }

  lemma RetrievedCause(cfg: Settings, w: World, c: nat, locked: set<nat>, p: nat, t: Option<nat>, r': PairRow)
    requires Shape(w.db) && p < |w.db.pairs| && RetrievedAs(cfg, w.db, c, p, t, r')
    ensures HasCause(cfg, w, Retrieve(c, locked), p, r')
  {
  }

  lemma EvaluatedWas(cfg: Settings, db: Db, c: nat, locked: set<nat>, p: nat)
    requires Shape(db) && p < |db.pairs|
    ensures var rows := EvaluationRows(cfg, db, c, locked);
      && DistinctRows(db, rows) && |ClaimAll(cfg, db, rows, |rows|).pairs| == |db.pairs|
      && (ClaimAll(cfg, db, rows, |rows|).pairs[p] == db.pairs[p] || Evaluable(db, c, locked, p))
  {
    var rows := EvaluationRows(cfg, db, c, locked);
    EvaluationRowsSound(cfg, db, c, locked);
    if Evaluable(db, c, locked, p) {
    } else {
      assert !Named(rows, |rows|, p);
      ClaimAllChanges(cfg, db, rows, |rows|);
    }
  }

  lemma EvaluateCause(cfg: Settings, w: World, c: nat, locked: set<nat>, p: nat)
    requires WorldOk(cfg, w) && Enabled(cfg, w, Evaluate(c, locked)) && p < |w.db.pairs|
    ensures p < |DispatchStage3(cfg, w.db, c, locked).pairs|
    ensures HasCause(cfg, w, Evaluate(c, locked), p, DispatchStage3(cfg, w.db, c, locked).pairs[p])
  {
    if w.db.campaigns[c] == CampaignRunning {
      var t := EvaluatedBy(cfg, w.db, c, locked, p);
      EvaluatedCause(cfg, w, c, locked, p, t, DispatchStage3(cfg, w.db, c, locked).pairs[p]);
    }
  }

  lemma EvaluatedBy(cfg: Settings, db: Db, c: nat, locked: set<nat>, p: nat) returns (t: Option<nat>)
    requires Shape(db) && c < |db.campaigns| && db.campaigns[c] == CampaignRunning && p < |db.pairs|
    ensures |DispatchStage3(cfg, db, c, locked).pairs| == |db.pairs|
    ensures EvaluatedAs(cfg, db, c, p, t, DispatchStage3(cfg, db, c, locked).pairs[p])
  {
    var expired := ExpiredEvaluating(cfg, db, c);
    EvaluatedWas(cfg, expired, c, locked, p);
    ClaimedRow(cfg, expired, c, locked, p);
    var r' := DispatchStage3(cfg, db, c, locked).pairs[p];
    if r' == expired.pairs[p] {
      t := None;
    } else {
      var token: nat :| token >= expired.nextToken && r' == EvaluatingRow(cfg, expired, expired.pairs[p], token);
      t := Some(token);
    }
  }

  ghost predicate EvaluatedAs(cfg: Settings, db: Db, c: nat, p: nat, t: Option<nat>, r': PairRow)
    requires Shape(db) && p < |db.pairs|
  {
    var mid := ExpireEvaluating(cfg, db.clock, c, db.pairs[p]);
    if t.None? then r' == mid
    else
      && r' == EvaluatingRow(cfg, db, mid, t.value) && t.value >= db.nextToken
      && mid.campaign == c && mid.status.Shortlisted? && (mid.until.Some? ==> mid.until.value <= db.clock)
      && db.jds[db.pairs[p].jd].status.JdShortlisted?
  }

  lemma EvaluatedCause(cfg: Settings, w: World, c: nat, locked: set<nat>, p: nat, t: Option<nat>, r': PairRow)
    requires Shape(w.db) && p < |w.db.pairs| && EvaluatedAs(cfg, w.db, c, p, t, r')
    ensures HasCause(cfg, w, Evaluate(c, locked), p, r')
  {
  }

  /** What the barrier decides for one row of the pool. */
  lemma DecidedFor(r: PairRow, rank: nat, verdict: Verdict, e: Evidence)
    requires r.status.Stage2Ready? && r.evidence == Some(e)
    requires verdict == Shortlist ==> Eligible(e)
    requires verdict == Review ==> !Eligible(e)
    requires verdict == Exclude ==> Eligible(e)
    ensures var r' := Decide(r, rank, verdict, e);
      && (r'.status.Shortlisted? || r'.status.CutoffExcluded? ==> Fit(r.evidence))
      && (r'.status.ReviewRequired? ==> !Fit(r.evidence) && r'.failure.Some? && r'.failure.value != "")
      && (r'.status.Shortlisted? || r'.status.CutoffExcluded? || r'.status.ReviewRequired?)
  {
  }

  /** The barrier has decided the row: only a fit one goes on or is cut, and an unfit one says why not. */
  ghost predicate DecidedBy(j: nat, r: PairRow, r': PairRow) {
    && r.jd == j && r.status.Stage2Ready? && r.evidence.Some?
    && (r'.status.Shortlisted? || r'.status.CutoffExcluded? || r'.status.ReviewRequired?)
    && (r'.status.ReviewRequired? <==> !Fit(r.evidence))
    && (r'.status.ReviewRequired? ==> r'.failure.Some? && r'.failure.value != "")
  }

  lemma BarrierDecides(db: Db, j: nat, p: nat)
    requires Shape(db) && j < |db.jds| && Finalizes(db, j) && p < |db.pairs|
    ensures |FinalizeJd(db, j).pairs| == |db.pairs|
    ensures FinalizeJd(db, j).pairs[p] == db.pairs[p] || DecidedBy(j, db.pairs[p], FinalizeJd(db, j).pairs[p])
  {
    var rows, cap := BarrierRows(db, j), BarrierCap(db.jds[j].cap);
    RankedPool(db, j);
    FinalizeWrites(db, j);
    RankRowsChanges(db.pairs, rows, Verdicts(rows, cap), |rows|);
    if Ranks(rows, |rows|, p) {
      var i: nat :| i < |rows| && rows[i].pair == p;
      DecidedFor(db.pairs[p], i + 1, VerdictAt(rows, cap, i), rows[i].evidence);
    }
  }

  lemma BarrierCause(cfg: Settings, w: World, j: nat, p: nat)
    requires WorldOk(cfg, w) && Enabled(cfg, w, Barrier(j)) && p < |w.db.pairs|
    ensures p < |FinalizeJd(w.db, j).pairs| && HasCause(cfg, w, Barrier(j), p, FinalizeJd(w.db, j).pairs[p])
  {
    if Finalizes(w.db, j) {
      BarrierDecides(w.db, j, p);
    }
  }

  lemma RefundCause(cfg: Settings, w: World, st: Step, p: nat)
    requires Enabled(cfg, w, st) && p < |w.db.pairs| && (st.RetrieveRefund? || st.EvaluateRefund?)
    ensures p < |DbAfter(cfg, w, st).pairs| && HasCause(cfg, w, st, p, DbAfter(cfg, w, st).pairs[p])
  {
  }

  lemma RetrieverCause(cfg: Settings, w: World, id: nat, result: Retrieval, p: nat)
    requires Enabled(cfg, w, RetrieveFinish(id, result)) && p < |w.db.pairs|
    ensures p < |DbAfter(cfg, w, RetrieveFinish(id, result)).pairs|
    ensures HasCause(cfg, w, RetrieveFinish(id, result), p, DbAfter(cfg, w, RetrieveFinish(id, result)).pairs[p])
  {
  }

  lemma EvaluatorCause(cfg: Settings, w: World, st: Step, p: nat)
    requires Enabled(cfg, w, st) && p < |w.db.pairs| && EvaluatorStep(st)
    ensures p < |DbAfter(cfg, w, st).pairs| && HasCause(cfg, w, st, p, DbAfter(cfg, w, st).pairs[p])
  {
  }

  lemma StepCause(cfg: Settings, w: World, st: Step, p: nat)
    requires WorldOk(cfg, w) && Enabled(cfg, w, st) && p < |w.db.pairs|
    ensures p < |DbAfter(cfg, w, st).pairs| && HasCause(cfg, w, st, p, DbAfter(cfg, w, st).pairs[p])
  {
    if IntakeStep(st) {
      IntakeCause(cfg, w, st, p);
    } else if st.Retrieve? {
      RetrieveCause(cfg, w, st.campaign, st.locked, p);
    } else if st.Evaluate? {
      EvaluateCause(cfg, w, st.campaign, st.locked, p);
    } else if st.Barrier? {
      BarrierCause(cfg, w, st.jd, p);
    } else if st.RetrieveRefund? || st.EvaluateRefund? {
      RefundCause(cfg, w, st, p);
    } else if st.RetrieveFinish? {
      RetrieverCause(cfg, w, st.worker, st.retrieval, p);
    } else if EvaluatorStep(st) {
      EvaluatorCause(cfg, w, st, p);
    }
  }

  /** Whatever status a pair changes to, in any step from any reachable state, it changes for its cause. */
  lemma ChangeHasCause(cfg: Settings, w: World, st: Step, p: nat)
    requires ValidSettings(cfg) && Reachable(cfg, w) && Enabled(cfg, w, st)
    requires p < |w.db.pairs| && p < |DbAfter(cfg, w, st).pairs|
    requires DbAfter(cfg, w, st).pairs[p].status != w.db.pairs[p].status
    ensures Caused(cfg, w, st, p, w.db.pairs[p], DbAfter(cfg, w, st).pairs[p])
  {
    ReachableOk(cfg, w);
    StepCause(cfg, w, st, p);
  }

  // ----- over a run

  ghost predicate HasStatus(db: Db, p: nat, s: PairStatus) {
    p < |db.pairs| && db.pairs[p].status == s
  }

  /** Only intake adds rows, and what it adds is waiting. */
  lemma NewRowsWait(cfg: Settings, w: World, st: Step, p: nat)
    requires Enabled(cfg, w, st) && |w.db.pairs| <= p < |DbAfter(cfg, w, st).pairs|
    ensures DbAfter(cfg, w, st).pairs[p].status.Pending?
  {
    if st.IntakeCv? {
      IntakeRows(cfg, w.db, st.campaign, st.candidate, st.hasPdf);
    } else if st.Retrieve? {
      RetrieveIssues(cfg, w.db, st.campaign, st.locked);
    } else if st.Evaluate? {
      EvaluateIssues(cfg, w.db, st.campaign, st.locked);
    } else if st.Barrier? {
      FinalizeKeepsRows(w.db, st.jd);
    } else if !IntakeStep(st) {
      WorkerKeepsRows(cfg, w, st);
    }
  }

  lemma FirstStepCause(cfg: Settings, w: World, st: Step, p: nat, s: PairStatus)
    requires WorldOk(cfg, w) && Enabled(cfg, w, st) && !s.Pending?
    requires !HasStatus(w.db, p, s) && HasStatus(Apply(cfg, w, st).db, p, s)
    ensures p < |w.db.pairs| && Caused(cfg, w, st, p, w.db.pairs[p], Apply(cfg, w, st).db.pairs[p])
  {
    if p < |w.db.pairs| {
      StepCause(cfg, w, st, p);
    } else {
      NewRowsWait(cfg, w, st, p);
    }
  }

  /** Step `i` of the run made the pair what it now is, for its cause. */
  ghost predicate MadeBy(cfg: Settings, w: World, run: seq<Step>, i: nat, p: nat, s: PairStatus)
    requires Legal(cfg, w, run) && i < |run|
  {
    Made(cfg, At(cfg, w, run, i), run[i], At(cfg, w, run, i + 1), p, s)
  }

  ghost predicate Made(cfg: Settings, before: World, st: Step, after: World, p: nat, s: PairStatus) {
    && !HasStatus(before.db, p, s) && HasStatus(after.db, p, s)
    && p < |before.db.pairs| && Caused(cfg, before, st, p, before.db.pairs[p], after.db.pairs[p])
  }

  /** The step at which the status appears. */
  lemma {:induction false} AppearsAt(cfg: Settings, w: World, run: seq<Step>, n: nat, p: nat, s: PairStatus) returns (i: nat)
    requires Legal(cfg, w, run) && n <= |run|
    requires !HasStatus(w.db, p, s) && HasStatus(At(cfg, w, run, n).db, p, s)
    ensures i < n && !HasStatus(At(cfg, w, run, i).db, p, s) && HasStatus(At(cfg, w, run, i + 1).db, p, s)
    decreases n
  {
    i := n - 1;
    if HasStatus(At(cfg, w, run, i).db, p, s) {
      i := AppearsAt(cfg, w, run, i, p, s);
    }
  }

  lemma AtEnd(cfg: Settings, w: World, run: seq<Step>)
    requires Legal(cfg, w, run)
    ensures At(cfg, w, run, |run|) == After(cfg, w, run)
  {
    AtIsLegal(cfg, w, run, |run|);
  }

  lemma StepMade(cfg: Settings, w: World, run: seq<Step>, i: nat, p: nat, s: PairStatus)
    requires ValidSettings(cfg) && WorldOk(cfg, w) && Legal(cfg, w, run) && i < |run| && !s.Pending?
    requires !HasStatus(At(cfg, w, run, i).db, p, s) && HasStatus(At(cfg, w, run, i + 1).db, p, s)
    ensures MadeBy(cfg, w, run, i, p, s)
  {
    AtOk(cfg, w, run, i);
    AtEnabled(cfg, w, run, i);
    AtNext(cfg, w, run, i);
    FirstStepCause(cfg, At(cfg, w, run, i), run[i], p, s);
  }

  /**
   * Whatever status a pair has at the end of a run and did not have at its start, some step of the run gave
   * it that status, for its cause.
   */
  lemma StatusWasCaused(cfg: Settings, w: World, run: seq<Step>, p: nat, s: PairStatus) returns (i: nat)
    requires ValidSettings(cfg) && Reachable(cfg, w) && Legal(cfg, w, run) && !s.Pending?
    requires !HasStatus(w.db, p, s) && HasStatus(After(cfg, w, run).db, p, s)
    ensures i < |run| && MadeBy(cfg, w, run, i, p, s)
  {
    ReachableOk(cfg, w);
    AtEnd(cfg, w, run);
    i := AppearsAt(cfg, w, run, |run|, p, s);
    StepMade(cfg, w, run, i, p, s);
  }

  ghost predicate ReportsSuccess(w: World, st: Step, p: nat) {
    && st.EvaluateFinish? && st.evaluation.Succeeded?
    && st.worker in w.workers && !w.workers[st.worker].Extractor? && w.workers[st.worker].pair == p < |w.db.pairs|
    && w.db.pairs[p].status.Stage3Running? && w.db.pairs[p].lease == Some(w.workers[st.worker].token)
  }

  /** A success was reported: by a worker that held the pair's lease, while the pair was being evaluated. */
  lemma SuccessWasReported(cfg: Settings, w: World, run: seq<Step>, p: nat)
    requires ValidSettings(cfg) && Reachable(cfg, w) && Legal(cfg, w, run)
    requires p < |After(cfg, w, run).db.pairs| && After(cfg, w, run).db.pairs[p].status.Success?
    requires p < |w.db.pairs| ==> !w.db.pairs[p].status.Success?
    ensures exists i :: 0 <= i < |run| && ReportsSuccess(At(cfg, w, run, i), run[i], p)
  {
    var i := StatusWasCaused(cfg, w, run, p, Success);
    assert Reported(At(cfg, w, run, i), run[i], p, Succeeded);
    assert ReportsSuccess(At(cfg, w, run, i), run[i], p);
  }

  // ----- what a worker that holds the lease reports is what the pair becomes

  ghost predicate OnlyRowChanges(db: Db, db': Db, p: nat) {
    p < |db.pairs| == |db'.pairs| && db' == db.(pairs := db.pairs[p := db'.pairs[p]])
  }

  /** An evaluation reported under the lease: success, review or failure, as reported, and the token is spent. */
  lemma EvaluationIsStored(cfg: Settings, w: World, id: nat, e: Evaluation)
    requires Enabled(cfg, w, EvaluateFinish(id, e))
    requires Holds(w.db.pairs[w.workers[id].pair], Stage3Running, w.workers[id].token)
    ensures var p, db' := w.workers[id].pair, Apply(cfg, w, EvaluateFinish(id, e)).db;
      && OnlyRowChanges(w.db, db', p)
      && var r' := db'.pairs[p];
      && (r'.status.Success? <==> e.Succeeded?)
      && (r'.status.ReviewRequired? <==> e.NeedsReview?)
      && (r'.status.EvaluationFailed? <==> e.Failed?)
      && r'.failure == (if e.Failed? then Some(e.code) else None)
      && r'.lease.None? && r'.until.None? && r'.stage3Attempts == w.db.pairs[p].stage3Attempts
  {
  }

  /** A retrieval result reported under the lease. */
  lemma RetrievalIsStored(cfg: Settings, w: World, id: nat, result: Retrieval)
    requires Enabled(cfg, w, RetrieveFinish(id, result))
    requires Holds(w.db.pairs[w.workers[id].pair], Running, w.workers[id].token)
    ensures var p, db' := w.workers[id].pair, Apply(cfg, w, RetrieveFinish(id, result)).db;
      && OnlyRowChanges(w.db, db', p)
      && var r, r' := w.db.pairs[p], db'.pairs[p];
      && (r'.status.Stage2Ready? <==> result.Scored?)
      && (r'.status.FilterRejected? <==> result.FilterFailed?)
      && (r'.status.Pending? <==> result.RetrievalError? && r.attempts < cfg.runMaxAttempts)
      && (r'.status.ProcessingFailed? <==> result.RetrievalError? && r.attempts >= cfg.runMaxAttempts)
      && (result.Scored? ==> r'.evidence == Some(result.evidence) && r'.sourceText == w.workers[id].text)
      && (r'.status.ProcessingFailed? ==> r'.failure == Some(result.code))
      && r'.lease.None? && r'.until.None? && r'.attempts == r.attempts
  {
  }

  /** A provider failure under the lease: parked for the delay, or failed after the worker's last attempt. */
  lemma FailureIsRetried(cfg: Settings, w: World, id: nat, delay: nat, exhausted: string, code: string)
    requires Enabled(cfg, w, EvaluateRetry(id, delay, exhausted, code))
    requires Holds(w.db.pairs[w.workers[id].pair], Stage3Running, w.workers[id].token)
    ensures var p, db' := w.workers[id].pair, Apply(cfg, w, EvaluateRetry(id, delay, exhausted, code)).db;
      && OnlyRowChanges(w.db, db', p)
      && var r', last := db'.pairs[p], w.workers[id].attempt.value >= cfg.stage3MaxAttempts;
      && (r'.status.EvaluationFailed? <==> last) && (r'.status.Shortlisted? <==> !last)
      && r'.failure == Some(if last then exhausted else code)
      && r'.until == (if last then None else Some(w.db.clock + delay))
      && r'.lease.None? && r'.stage3Attempts == w.db.pairs[p].stage3Attempts
  {
  }
}

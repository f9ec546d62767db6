/**
 * Retry budgets. When every evaluation message is delivered once, counted attempts stay within the
 * limit and an explicit measure pays for every change of a pair; only enqueue refunds, admission
 * denials and leases lost before the attempt was counted give something back. A second delivery of
 * one message breaks the bound, without limit.
 */
module CampaignBudget {
  import opened Prelude
  import opened Ranking
  import opened CampaignState
  import opened CampaignInvariant
  import opened CampaignProtocol

  /** No evaluation message is handed to a second worker. */
  ghost predicate OnceStep(w: World, st: Step) {
    st.EvaluateDeliver? ==> st.token !in w.delivered
  }

  ghost predicate OnceRun(cfg: Settings, w: World, run: seq<Step>)
    requires Legal(cfg, w, run)
    decreases |run|
  {
    run != [] ==> OnceStep(w, run[0]) && OnceRun(cfg, Apply(cfg, w, run[0]), run[1..])
  }

  ghost predicate OnceReachable(cfg: Settings, w: World) {
    exists start, run :: Initial(start) && Legal(cfg, start, run) && OnceRun(cfg, start, run)
                         && After(cfg, start, run) == w
  }

  // ----- the ledger of tokens

  ghost predicate TicketLedger(w: World) {
    && (forall x, y :: x in w.reserved + w.sent && y in w.reserved + w.sent && x.token == y.token ==> x == y)
    && w.reserved !! w.sent
    && (forall x :: x in w.reserved ==> x.token !in w.delivered)
    && (forall x :: x in w.reserved + w.sent ==> x.token < w.db.nextToken)
    && (forall t :: t in w.delivered ==> t < w.db.nextToken)
    && w.counted <= w.delivered
  }

  ghost predicate WorkerLedger(w: World) {
    && (forall id :: id in w.workers ==> id < w.nextWorker)
    && (forall id :: id in w.workers && w.workers[id].Evaluator? ==>
          && w.workers[id].token in w.delivered
          && (w.workers[id].attempt.Some? <==> w.workers[id].token in w.counted)
          && AttemptRead(w.db.pairs, w.workers[id]))
    && OneWorkerEach(w.workers)
  }

  ghost predicate OneWorkerEach(workers: map<nat, Worker>) {
    forall a, b | a in workers && b in workers && workers[a].Evaluator? && workers[b].Evaluator? ::
      workers[a].token == workers[b].token ==> a == b
  }

  /** A worker that still holds its lease remembers the row's current count. */
  ghost predicate AttemptRead(pairs: seq<PairRow>, k: Worker)
    requires k.Evaluator?
  {
    k.attempt.Some? && k.pair < |pairs| && Holds(pairs[k.pair], Stage3Running, k.token) ==>
      k.attempt.value == pairs[k.pair].stage3Attempts
  }

  predicate Uncounted(counted: set<nat>, r: PairRow) {
    r.status == Stage3Running && r.lease.Some? && r.lease.value !in counted
  }

  predicate RowBudget(cfg: Settings, counted: set<nat>, r: PairRow) {
    && r.stage3Attempts <= cfg.stage3MaxAttempts
    && (r.status == Shortlisted || Uncounted(counted, r) ==> r.stage3Attempts < cfg.stage3MaxAttempts)
  }

  ghost predicate RowBudgets(cfg: Settings, w: World) {
    forall p :: 0 <= p < |w.db.pairs| ==> RowBudget(cfg, w.counted, w.db.pairs[p])
  }

  ghost predicate LedgerOk(cfg: Settings, w: World) {
    TicketLedger(w) && WorkerLedger(w) && RowBudgets(cfg, w)
  }

  // ----- rows

  /** Row changes outside Stage 3. */
  ghost predicate OutsideStage3(r: PairRow, r': PairRow) {
    && r'.stage3Attempts == r.stage3Attempts
    && (r' == r || (r'.status != Shortlisted && r'.status != Stage3Running))
  }

  ghost predicate RowsOutsideStage3(pairs: seq<PairRow>, pairs': seq<PairRow>) {
    && |pairs| <= |pairs'|
    && (forall p :: 0 <= p < |pairs| ==> OutsideStage3(pairs[p], pairs'[p]))
    && (forall p :: |pairs| <= p < |pairs'| ==> pairs'[p].stage3Attempts == 0 && pairs'[p].status == Pending)
  }

  predicate OutsideStep(st: Step) {
    st.Tick? || st.Start? || st.Stage0Claim? || st.Stage0Finish? || st.Stage0Recover?
    || st.RetrieveSend? || st.RetrieveRefund? || st.RetrieveDeliver? || st.RetrieveFinish?
    || st.EvaluateSend? || st.EvaluateDeliver? || st.Complete? || st.Crash?
  }

  lemma Stage0Rows(cfg: Settings, w: World, st: Step)
    requires Enabled(cfg, w, st) && (st.Stage0Claim? || st.Stage0Finish? || st.Stage0Recover?)
    ensures RowsOutsideStage3(w.db.pairs, DbAfter(cfg, w, st).pairs)
  {
  }

  lemma Stage2Rows(cfg: Settings, w: World, st: Step)
    requires Enabled(cfg, w, st) && (st.RetrieveRefund? || st.RetrieveFinish?)
    ensures RowsOutsideStage3(w.db.pairs, DbAfter(cfg, w, st).pairs)
  {
  }

  lemma OutsideRows(cfg: Settings, w: World, st: Step)
    requires Enabled(cfg, w, st) && OutsideStep(st)
    ensures RowsOutsideStage3(w.db.pairs, DbAfter(cfg, w, st).pairs)
  {
    if st.Stage0Claim? || st.Stage0Finish? || st.Stage0Recover? {
      Stage0Rows(cfg, w, st);
    } else if st.RetrieveRefund? || st.RetrieveFinish? {
      Stage2Rows(cfg, w, st);
    } else {
      assert DbAfter(cfg, w, st).pairs == w.db.pairs;
    }
  }

  lemma IntakeRows(cfg: Settings, db: Db, c: nat, candidate: int, hasPdf: bool)
    requires c < |db.campaigns|
    ensures RowsOutsideStage3(db.pairs, ReserveCv(db, c, candidate, hasPdf).pairs)
  {
    if Reserves(db, c, candidate) {
      NewPairsCover(db, c, |db.cvs|, |db.jds|);
    }
  }

  lemma ReservedRow(cfg: Settings, db: Db, c: nat, locked: set<nat>, p: nat)
    requires Shape(db) && p < |db.pairs|
    ensures var rows := RetrievalRows(cfg, db, c, locked);
      && DistinctRows(db, rows)
      && |ReserveAll(cfg, db, rows, |rows|).pairs| == |db.pairs|
      && Reserved(cfg, db, db.pairs[p], ReserveAll(cfg, db, rows, |rows|).pairs[p])
  {
    RetrievalRowsSound(cfg, db, c, locked);
    ReservedByRows(cfg, db, RetrievalRows(cfg, db, c, locked), p);
  }

  ghost predicate Reserved(cfg: Settings, db: Db, r: PairRow, r': PairRow) {
    r' == r || (r.status == Pending && exists t: nat :: t >= db.nextToken && r' == RunningRow(cfg, db, r, t))
  }

  lemma ReservedByRows(cfg: Settings, db: Db, rows: seq<QueueRow>, p: nat)
    requires DistinctRows(db, rows) && p < |db.pairs|
    requires forall i :: 0 <= i < |rows| ==> db.pairs[rows[i].pair].status == Pending
    ensures |ReserveAll(cfg, db, rows, |rows|).pairs| == |db.pairs|
    ensures Reserved(cfg, db, db.pairs[p], ReserveAll(cfg, db, rows, |rows|).pairs[p])
  {
    ReserveAllChanges(cfg, db, rows, |rows|);
    if Named(rows, |rows|, p) {
      var i :| 0 <= i < |rows| && rows[i].pair == p;
      var t: nat := db.nextToken + i;
      assert ReserveAll(cfg, db, rows, |rows|).pairs[p] == RunningRow(cfg, db, db.pairs[p], t);
    }
  }

  /** A retrieval dispatch may expire a row, reserve it with a fresh token, do both, or do nothing. */
  lemma RetrievedRow(cfg: Settings, db: Db, c: nat, locked: set<nat>, p: nat)
    requires Shape(db) && c < |db.campaigns| && p < |db.pairs|
    ensures |DispatchPairs(cfg, db, c, locked).pairs| == |db.pairs|
    ensures db.campaigns[c] != CampaignRunning ==> DispatchPairs(cfg, db, c, locked) == db
    ensures db.campaigns[c] == CampaignRunning ==>
              Reserved(cfg, ExpiredRunning(cfg, db, c), ExpireRunning(cfg, db.clock, c, db.pairs[p]),
                       DispatchPairs(cfg, db, c, locked).pairs[p])
  {
    if db.campaigns[c] == CampaignRunning {
      ReservedRow(cfg, ExpiredRunning(cfg, db, c), c, locked, p);
    }
  }

  lemma RetrieveRows(cfg: Settings, db: Db, c: nat, locked: set<nat>)
    requires Shape(db) && c < |db.campaigns|
    ensures RowsOutsideStage3(db.pairs, DispatchPairs(cfg, db, c, locked).pairs)
  {
    RetrieveIssues(cfg, db, c, locked);
    forall p | 0 <= p < |db.pairs| ensures OutsideStage3(db.pairs[p], DispatchPairs(cfg, db, c, locked).pairs[p]) {
      RetrievedRow(cfg, db, c, locked, p);
      if db.campaigns[c] == CampaignRunning {
        ReservedOutside(cfg, db, c, db.pairs[p], DispatchPairs(cfg, db, c, locked).pairs[p]);
      }
    }
  }

  lemma ReservedOutside(cfg: Settings, db: Db, c: nat, r: PairRow, r': PairRow)
    requires Reserved(cfg, ExpiredRunning(cfg, db, c), ExpireRunning(cfg, db.clock, c, r), r')
    ensures OutsideStage3(r, r')
  {
  }

  lemma OutsideBudgets(cfg: Settings, w: World, db': Db)
    requires ValidSettings(cfg) && RowBudgets(cfg, w) && RowsOutsideStage3(w.db.pairs, db'.pairs)
    ensures RowBudgets(cfg, w.(db := db'))
  {
  }

  ghost predicate BarrierRowChange(r: PairRow, r': PairRow) {
    r' == r || (r.status == Stage2Ready && r.stage3Attempts == 0 && r'.stage3Attempts == 0
                && (Terminal(r'.status) || r'.status == Shortlisted))
  }

  /** The barrier ranks and shortlists rows that have used no attempt. */
  lemma BarrierRowChanges(cfg: Settings, db: Db, j: nat, p: nat)
    requires DbOk(cfg, db) && j < |db.jds| && p < |db.pairs|
    ensures |FinalizeJd(db, j).pairs| == |db.pairs|
    ensures BarrierRowChange(db.pairs[p], FinalizeJd(db, j).pairs[p])
  {
    if Finalizes(db, j) {
      RankedPool(db, j);
      RankedChange(cfg, db, j, BarrierRows(db, j), Verdicts(BarrierRows(db, j), BarrierCap(db.jds[j].cap)), p);
    }
  }

  lemma RankedChange(cfg: Settings, db: Db, j: nat, rows: seq<Candidate>, verdicts: seq<Verdict>, p: nat)
    requires RowsOk(cfg, db) && j < |db.jds| && JdOpen(db.jds[j].status) && p < |db.pairs|
    requires |rows| == |verdicts| && DistinctPool(db.pairs, rows)
    requires forall i :: 0 <= i < |rows| ==> db.pairs[rows[i].pair].jd == j && db.pairs[rows[i].pair].status == Stage2Ready
    ensures BarrierRowChange(db.pairs[p], RankRows(db.pairs, rows, verdicts, |rows|)[p])
  {
    RankRowsChanges(db.pairs, rows, verdicts, |rows|);
    assert RowOk(cfg, db, db.pairs[p]);
    if Ranks(rows, |rows|, p) {
      var i :| 0 <= i < |rows| && rows[i].pair == p;
      assert RankRows(db.pairs, rows, verdicts, |rows|)[p] == DecideAt(db.pairs, rows, verdicts, i);
    }
  }

  lemma ClaimedByRows(cfg: Settings, db: Db, rows: seq<QueueRow>, p: nat)
    requires DistinctRows(db, rows) && p < |db.pairs|
    requires forall i :: 0 <= i < |rows| ==> db.pairs[rows[i].pair].status == Shortlisted
    ensures |ClaimAll(cfg, db, rows, |rows|).pairs| == |db.pairs|
    ensures Claimed(cfg, db, db.pairs[p], ClaimAll(cfg, db, rows, |rows|).pairs[p])
  {
    ClaimAllChanges(cfg, db, rows, |rows|);
    if Named(rows, |rows|, p) {
      var i :| 0 <= i < |rows| && rows[i].pair == p;
      var t: nat := db.nextToken + i;
      assert ClaimAll(cfg, db, rows, |rows|).pairs[p] == EvaluatingRow(cfg, db, db.pairs[p], t);
    }
  }

  lemma ClaimedRow(cfg: Settings, db: Db, c: nat, locked: set<nat>, p: nat)
    requires Shape(db) && p < |db.pairs|
    ensures var rows := EvaluationRows(cfg, db, c, locked);
      && DistinctRows(db, rows)
      && |ClaimAll(cfg, db, rows, |rows|).pairs| == |db.pairs|
      && Claimed(cfg, db, db.pairs[p], ClaimAll(cfg, db, rows, |rows|).pairs[p])
  {
    EvaluationRowsSound(cfg, db, c, locked);
    ClaimedByRows(cfg, db, EvaluationRows(cfg, db, c, locked), p);
  }

  ghost predicate Claimed(cfg: Settings, db: Db, r: PairRow, r': PairRow) {
    r' == r || (r.status == Shortlisted && exists t: nat :: t >= db.nextToken && r' == EvaluatingRow(cfg, db, r, t))
  }

  /** A Stage 3 dispatch may expire a row, claim it with a fresh token, do both, or do nothing. */
  lemma EvaluateRows(cfg: Settings, db: Db, c: nat, locked: set<nat>, p: nat)
    requires Shape(db) && c < |db.campaigns| && p < |db.pairs|
    ensures |DispatchStage3(cfg, db, c, locked).pairs| == |db.pairs|
    ensures db.campaigns[c] != CampaignRunning ==> DispatchStage3(cfg, db, c, locked) == db
    ensures db.campaigns[c] == CampaignRunning ==>
              Claimed(cfg, db, ExpireEvaluating(cfg, db.clock, c, db.pairs[p]),
                      DispatchStage3(cfg, db, c, locked).pairs[p])
  {
    if db.campaigns[c] == CampaignRunning {
      var expired := ExpiredEvaluating(cfg, db, c);
      ClaimedRow(cfg, expired, c, locked, p);
      var r' := DispatchStage3(cfg, db, c, locked).pairs[p];
      if r' != expired.pairs[p] {
        var t: nat :| t >= expired.nextToken && r' == EvaluatingRow(cfg, expired, expired.pairs[p], t);
        assert r' == EvaluatingRow(cfg, db, expired.pairs[p], t);
      }
    }
  }

  // ----- every step keeps the ledger

  lemma TicketsFresh(w: World, rows: seq<QueueRow>, task: Task, db': Db)
    requires TicketLedger(w) && db'.nextToken == w.db.nextToken + |rows|
    ensures TicketLedger(w.(reserved := w.reserved + Tickets(task, rows, w.db.nextToken), db := db'))
  {
  }

  lemma TicketStep(cfg: Settings, w: World, st: Step)
    requires TicketLedger(w) && WorkerLedger(w) && Enabled(cfg, w, st) && OnceStep(w, st)
    requires !st.Retrieve? && !st.Evaluate? && w.db.nextToken == DbAfter(cfg, w, st).nextToken
    ensures TicketLedger(Apply(cfg, w, st))
  {
    if st.RetrieveSend? || st.EvaluateSend? || st.RetrieveRefund? || st.EvaluateRefund? {
      TicketMoves(cfg, w, st);
    } else {
      assert Messages(cfg, w, st).reserved == w.reserved && Messages(cfg, w, st).sent == w.sent;
    }
  }

  lemma TicketMoves(cfg: Settings, w: World, st: Step)
    requires TicketLedger(w) && Enabled(cfg, w, st)
    requires st.RetrieveSend? || st.EvaluateSend? || st.RetrieveRefund? || st.EvaluateRefund?
    requires w.db.nextToken == DbAfter(cfg, w, st).nextToken
    ensures TicketLedger(Apply(cfg, w, st))
  {
  }

  ghost predicate AttemptsRead(w: World, pairs': seq<PairRow>) {
    forall id :: id in w.workers && w.workers[id].Evaluator? ==> AttemptRead(pairs', w.workers[id])
  }

  lemma OutsideRead(w: World, pairs': seq<PairRow>)
    requires WorkerLedger(w) && RowsOutsideStage3(w.db.pairs, pairs')
    ensures AttemptsRead(w, pairs')
  {
  }

  predicate HiringStep(st: Step) {
    st.Stage0Claim? || st.RetrieveDeliver? || st.EvaluateDeliver?
  }

  predicate LeavingStep(st: Step) {
    st.Stage0Finish? || st.RetrieveFinish? || st.EvaluatePark? || st.EvaluateRetry? || st.EvaluateFinish? || st.Crash?
  }

  lemma HiringKeeps(cfg: Settings, w: World, st: Step)
    requires TicketLedger(w) && WorkerLedger(w) && Enabled(cfg, w, st) && OnceStep(w, st) && HiringStep(st)
    requires AttemptsRead(w, DbAfter(cfg, w, st).pairs)
    ensures WorkerLedger(Apply(cfg, w, st))
  {
  }

  lemma LeavingEffect(cfg: Settings, w: World, st: Step)
    requires Enabled(cfg, w, st) && LeavingStep(st)
    ensures var w' := Apply(cfg, w, st);
      && w'.workers == w.workers - {st.worker} && w'.nextWorker == w.nextWorker
      && w'.delivered == w.delivered && w'.counted == w.counted
  {
  }

  lemma StayingEffect(cfg: Settings, w: World, st: Step)
    requires Enabled(cfg, w, st) && !HiringStep(st) && !LeavingStep(st) && !st.EvaluateCount?
    ensures var w' := Apply(cfg, w, st);
      && w'.workers == w.workers && w'.nextWorker == w.nextWorker
      && w'.delivered == w.delivered && w'.counted == w.counted
  {
  }

  /** Fewer workers, with the same histories and right memories. */
  lemma FewerWorkers(w: World, w': World)
    requires WorkerLedger(w) && AttemptsRead(w, w'.db.pairs)
    requires w'.nextWorker == w.nextWorker && w'.delivered == w.delivered && w'.counted == w.counted
    requires forall id :: id in w'.workers ==> id in w.workers && w'.workers[id] == w.workers[id]
    ensures WorkerLedger(w')
  {
  }

  /** Hiring, leaving and remembering keep the worker ledger, given that memories are right. */
  lemma WorkerStep(cfg: Settings, w: World, st: Step)
    requires TicketLedger(w) && WorkerLedger(w) && Enabled(cfg, w, st) && OnceStep(w, st) && !st.EvaluateCount?
    requires AttemptsRead(w, DbAfter(cfg, w, st).pairs)
    ensures WorkerLedger(Apply(cfg, w, st))
  {
    if HiringStep(st) {
      HiringKeeps(cfg, w, st);
    } else {
      if LeavingStep(st) {
        LeavingEffect(cfg, w, st);
      } else {
        StayingEffect(cfg, w, st);
      }
      FewerWorkers(w, Apply(cfg, w, st));
    }
  }

  lemma CountWorkers(cfg: Settings, w: World, id: nat)
    requires TicketLedger(w) && WorkerLedger(w) && Enabled(cfg, w, EvaluateCount(id)) && DistinctLeases(w.db.pairs)
    ensures WorkerLedger(Apply(cfg, w, EvaluateCount(id)))
  {
    var w' := Apply(cfg, w, EvaluateCount(id));
    forall k | k in w'.workers && w'.workers[k].Evaluator?
      ensures w'.workers[k].token in w'.delivered
      ensures w'.workers[k].attempt.Some? <==> w'.workers[k].token in w'.counted
      ensures AttemptRead(w'.db.pairs, w'.workers[k])
    {
      if k != id {
        assert w.workers[k].token != w.workers[id].token;
      }
    }
  }

  lemma BarrierRead(cfg: Settings, w: World, j: nat)
    requires ValidSettings(cfg) && DbOk(cfg, w.db) && j < |w.db.jds| && LedgerOk(cfg, w)
    ensures |FinalizeJd(w.db, j).pairs| == |w.db.pairs|
    ensures AttemptsRead(w, FinalizeJd(w.db, j).pairs)
    ensures forall p :: 0 <= p < |w.db.pairs| ==> RowBudget(cfg, w.counted, FinalizeJd(w.db, j).pairs[p])
  {
    FinalizeRowCount(w.db, j);
    forall p | 0 <= p < |w.db.pairs|
      ensures FinalizeJd(w.db, j).pairs[p] == w.db.pairs[p] || !FinalizeJd(w.db, j).pairs[p].status.Stage3Running?
      ensures RowBudget(cfg, w.counted, FinalizeJd(w.db, j).pairs[p])
    {
      BarrierRowChanges(cfg, w.db, j, p);
    }
  }

  lemma FinalizeRowCount(db: Db, j: nat)
    requires Shape(db) && j < |db.jds|
    ensures |FinalizeJd(db, j).pairs| == |db.pairs|
  {
  }

  lemma EvaluateRead(cfg: Settings, w: World, c: nat, locked: set<nat>)
    requires ValidSettings(cfg) && Shape(w.db) && c < |w.db.campaigns| && LedgerOk(cfg, w)
    ensures var pairs' := DispatchStage3(cfg, w.db, c, locked).pairs;
      && |pairs'| == |w.db.pairs|
      && AttemptsRead(w, pairs')
      && (forall p :: 0 <= p < |w.db.pairs| ==> RowBudget(cfg, w.counted, pairs'[p]))
  {
    var pairs' := DispatchStage3(cfg, w.db, c, locked).pairs;
    EvaluateIssues(cfg, w.db, c, locked);
    forall p | 0 <= p < |w.db.pairs|
      ensures RowBudget(cfg, w.counted, pairs'[p])
      ensures pairs'[p] == w.db.pairs[p] || !pairs'[p].status.Stage3Running?
              || (pairs'[p].lease.Some? && pairs'[p].lease.value >= w.db.nextToken)
    {
      EvaluateRows(cfg, w.db, c, locked, p);
      EvaluatedRow(cfg, w, c, w.db.pairs[p], pairs'[p]);
    }
  }

  lemma EvaluatedRow(cfg: Settings, w: World, c: nat, r: PairRow, r': PairRow)
    requires TicketLedger(w) && RowBudget(cfg, w.counted, r)
    requires r' == r || Claimed(cfg, w.db, ExpireEvaluating(cfg, w.db.clock, c, r), r')
    ensures RowBudget(cfg, w.counted, r')
    ensures r' == r || !r'.status.Stage3Running? || (r'.lease.Some? && r'.lease.value >= w.db.nextToken)
  {
  }

  predicate FencedEvaluation(st: Step) {
    st.EvaluateRefund? || st.EvaluatePark? || st.EvaluateRetry? || st.EvaluateFinish?
  }

  ghost predicate ReadsAndBudgets(cfg: Settings, w: World, pairs': seq<PairRow>) {
    && |pairs'| == |w.db.pairs|
    && AttemptsRead(w, pairs')
    && (forall p :: 0 <= p < |w.db.pairs| ==> RowBudget(cfg, w.counted, pairs'[p]))
  }

  lemma OneRowRead(cfg: Settings, w: World, p: nat, r': PairRow)
    requires LedgerOk(cfg, w) && p < |w.db.pairs| && !r'.status.Stage3Running? && RowBudget(cfg, w.counted, r')
    ensures ReadsAndBudgets(cfg, w, w.db.pairs[p := r'])
  {
  }

  lemma FencedRead(cfg: Settings, w: World, st: Step)
    requires LedgerOk(cfg, w) && Enabled(cfg, w, st) && FencedEvaluation(st)
    ensures ReadsAndBudgets(cfg, w, DbAfter(cfg, w, st).pairs)
  {
    var p := if st.EvaluateRefund? then st.pair else w.workers[st.worker].pair;
    if DbAfter(cfg, w, st) != w.db {
      FencedRow(cfg, w, st, p);
      OneRowRead(cfg, w, p, DbAfter(cfg, w, st).pairs[p]);
    }
  }

  /** A fenced write that does anything rewrites the one row it names, within its budget. */
  lemma FencedRow(cfg: Settings, w: World, st: Step, p: nat)
    requires LedgerOk(cfg, w) && Enabled(cfg, w, st) && FencedEvaluation(st) && DbAfter(cfg, w, st) != w.db
    requires p == if st.EvaluateRefund? then st.pair else w.workers[st.worker].pair
    ensures p < |w.db.pairs| == |DbAfter(cfg, w, st).pairs|
    ensures var r' := DbAfter(cfg, w, st).pairs[p];
      && DbAfter(cfg, w, st).pairs == w.db.pairs[p := r']
      && !r'.status.Stage3Running? && RowBudget(cfg, w.counted, r')
  {
    assert RowBudget(cfg, w.counted, w.db.pairs[p]);
  }

  lemma CountRead(cfg: Settings, w: World, id: nat)
    requires LedgerOk(cfg, w) && Enabled(cfg, w, EvaluateCount(id)) && DistinctLeases(w.db.pairs)
    ensures RowBudgets(cfg, Apply(cfg, w, EvaluateCount(id)))
  {
  }

  lemma RowsStep(cfg: Settings, w: World, st: Step)
    requires ValidSettings(cfg) && WorldOk(cfg, w) && LedgerOk(cfg, w) && Enabled(cfg, w, st) && !st.EvaluateCount?
    ensures AttemptsRead(w, DbAfter(cfg, w, st).pairs)
    ensures RowBudgets(cfg, w.(db := DbAfter(cfg, w, st)))
  {
    if st.Barrier? {
      BarrierRead(cfg, w, st.jd);
    } else if st.Evaluate? {
      EvaluateRead(cfg, w, st.campaign, st.locked);
    } else if FencedEvaluation(st) {
      FencedRead(cfg, w, st);
    } else {
      if st.IntakeCv? {
        IntakeRows(cfg, w.db, st.campaign, st.candidate, st.hasPdf);
      } else if st.Retrieve? {
        RetrieveRows(cfg, w.db, st.campaign, st.locked);
      } else {
        OutsideRows(cfg, w, st);
      }
      OutsideRead(w, DbAfter(cfg, w, st).pairs);
      OutsideBudgets(cfg, w, DbAfter(cfg, w, st));
    }
  }

  lemma TokensStep(cfg: Settings, w: World, st: Step)
    requires Enabled(cfg, w, st) && !st.Retrieve? && !st.Evaluate?
    ensures DbAfter(cfg, w, st).nextToken == w.db.nextToken
  {
  }

  lemma TicketsStep(cfg: Settings, w: World, st: Step)
    requires TicketLedger(w) && WorkerLedger(w) && Enabled(cfg, w, st) && OnceStep(w, st)
    ensures TicketLedger(Apply(cfg, w, st))
  {
    if st.Retrieve? {
      RetrieveIssues(cfg, w.db, st.campaign, st.locked);
      TicketsFresh(w, RetrievedRows(cfg, w.db, st.campaign, st.locked), RetrieveTask, DbAfter(cfg, w, st));
    } else if st.Evaluate? {
      EvaluateIssues(cfg, w.db, st.campaign, st.locked);
      TicketsFresh(w, EvaluatedRows(cfg, w.db, st.campaign, st.locked), EvaluateTask, DbAfter(cfg, w, st));
    } else {
      TokensStep(cfg, w, st);
      TicketStep(cfg, w, st);
    }
  }

  lemma LedgerStep(cfg: Settings, w: World, st: Step)
    requires ValidSettings(cfg) && WorldOk(cfg, w) && LedgerOk(cfg, w) && Enabled(cfg, w, st) && OnceStep(w, st)
    ensures LedgerOk(cfg, Apply(cfg, w, st))
  {
    TicketsStep(cfg, w, st);
    if st.EvaluateCount? {
      CountRead(cfg, w, st.worker);
      CountWorkers(cfg, w, st.worker);
    } else {
      RowsStep(cfg, w, st);
      WorkerStep(cfg, w, st);
      SameCounted(cfg, w, st);
    }
  }

  lemma SameCounted(cfg: Settings, w: World, st: Step)
    requires Enabled(cfg, w, st) && !st.EvaluateCount?
    ensures Apply(cfg, w, st).counted == w.counted && Apply(cfg, w, st).db == DbAfter(cfg, w, st)
  {
  }

  lemma {:induction false} LedgerRun(cfg: Settings, w: World, run: seq<Step>)
    requires ValidSettings(cfg) && WorldOk(cfg, w) && LedgerOk(cfg, w) && Legal(cfg, w, run) && OnceRun(cfg, w, run)
    ensures WorldOk(cfg, After(cfg, w, run)) && LedgerOk(cfg, After(cfg, w, run))
    decreases |run|
  {
    if run != [] {
      StepOk(cfg, w, run[0]);
      LedgerStep(cfg, w, run[0]);
      LedgerRun(cfg, Apply(cfg, w, run[0]), run[1..]);
    }
  }

  lemma OnceReachableOk(cfg: Settings, w: World)
    requires ValidSettings(cfg) && OnceReachable(cfg, w)
    ensures WorldOk(cfg, w) && LedgerOk(cfg, w)
  {
    var start, run :| Initial(start) && Legal(cfg, start, run) && OnceRun(cfg, start, run)
                      && After(cfg, start, run) == w;
    InitialOk(cfg, start);
    LedgerRun(cfg, start, run);
  }

  /**
   * With one delivery per message, counted attempts never exceed the limit, and a pair that may be
   * claimed again has one left.
   */
  lemma EvaluationAttemptsBounded(cfg: Settings, w: World, p: nat)
    requires ValidSettings(cfg) && OnceReachable(cfg, w) && p < |w.db.pairs|
    ensures w.db.pairs[p].stage3Attempts <= cfg.stage3MaxAttempts
    ensures w.db.pairs[p].status == Shortlisted ==> w.db.pairs[p].stage3Attempts < cfg.stage3MaxAttempts
  {
    OnceReachableOk(cfg, w);
    assert RowBudget(cfg, w.counted, w.db.pairs[p]);
  }

  // ----- the measure

  /** How many more changes a pair can still pay for. */
  function Effort(cfg: Settings, counted: set<nat>, r: PairRow): int {
    var left := 3 * (cfg.stage3MaxAttempts - r.stage3Attempts);
    var full := 3 * cfg.stage3MaxAttempts;
    match r.status
    case Pending => full + 4 + 2 * (cfg.runMaxAttempts - r.attempts)
    case Running => full + 5 + 2 * (cfg.runMaxAttempts - r.attempts)
    case Stage2Ready => full + 3
    case Shortlisted => left + 2
    case Stage3Running => if Uncounted(counted, r) then left + 1 else left + 3
    case _ => 0
  }

  ghost predicate Changes(cfg: Settings, w: World, st: Step, p: nat)
    requires Enabled(cfg, w, st) && p < |w.db.pairs|
  {
    p < |DbAfter(cfg, w, st).pairs| && DbAfter(cfg, w, st).pairs[p] != w.db.pairs[p]
  }

  /** Enqueue refunds, admission denials, and Stage 3 leases that expire before their attempt is counted. */
  ghost predicate GivesBack(cfg: Settings, w: World, st: Step, p: nat)
    requires Enabled(cfg, w, st) && p < |w.db.pairs|
  {
    && Changes(cfg, w, st, p)
    && (st.RetrieveRefund? || st.EvaluateRefund? || st.EvaluatePark?
        || (st.Evaluate? && Uncounted(w.counted, w.db.pairs[p])))
  }

  function Bit(b: bool): nat {
    if b then 1 else 0
  }

  ghost predicate EffortPays(cfg: Settings, w: World, st: Step, p: nat)
    requires Enabled(cfg, w, st) && p < |w.db.pairs| && |w.db.pairs| <= |DbAfter(cfg, w, st).pairs|
  {
    Bit(Changes(cfg, w, st, p)) + Effort(cfg, Messages(cfg, w, st).counted, DbAfter(cfg, w, st).pairs[p])
    <= Effort(cfg, w.counted, w.db.pairs[p]) + 2 * Bit(GivesBack(cfg, w, st, p))
  }

  /** Row changes that cost at least one unit of effort. */
  predicate Costs(cfg: Settings, counted: set<nat>, r: PairRow, r': PairRow) {
    r' == r || Effort(cfg, counted, r') + 1 <= Effort(cfg, counted, r)
  }

  lemma IntakeCosts(cfg: Settings, w: World, st: Step, p: nat)
    requires DbOk(cfg, w.db) && LedgerOk(cfg, w) && Enabled(cfg, w, st) && IntakeStep(st) && p < |w.db.pairs|
    ensures |w.db.pairs| <= |DbAfter(cfg, w, st).pairs|
    ensures Costs(cfg, w.counted, w.db.pairs[p], DbAfter(cfg, w, st).pairs[p])
  {
    if st.IntakeCv? {
      IntakeRows(cfg, w.db, st.campaign, st.candidate, st.hasPdf);
    } else {
      Stage0Costs(cfg, w, st, p);
    }
  }

  /** Stage 0 either leaves a row alone or fails it, which ends its effort. */
  lemma Stage0Costs(cfg: Settings, w: World, st: Step, p: nat)
    requires DbOk(cfg, w.db) && LedgerOk(cfg, w) && Enabled(cfg, w, st) && IntakeStep(st) && !st.IntakeCv?
    requires p < |w.db.pairs|
    ensures |w.db.pairs| <= |DbAfter(cfg, w, st).pairs|
    ensures Costs(cfg, w.counted, w.db.pairs[p], DbAfter(cfg, w, st).pairs[p])
  {
    var r, r' := w.db.pairs[p], DbAfter(cfg, w, st).pairs[p];
    assert RowOk(cfg, w.db, r) && RowBudget(cfg, w.counted, r);
    if st.Stage0Claim? || st.Stage0Finish? || st.Stage0Recover? {
      FailedWaiting(cfg, w, st, p);
      FailedCosts(cfg, w.counted, r, r');
    }
  }

  /** A row that a Stage 0 step changes was waiting, and fails with its document. */
  lemma FailedWaiting(cfg: Settings, w: World, st: Step, p: nat)
    requires DbOk(cfg, w.db) && Enabled(cfg, w, st) && p < |w.db.pairs|
    requires st.Stage0Claim? || st.Stage0Finish? || st.Stage0Recover?
    ensures |DbAfter(cfg, w, st).pairs| == |w.db.pairs|
    ensures var r, r' := w.db.pairs[p], DbAfter(cfg, w, st).pairs[p];
      r' == r || (r.status.Pending? && r'.status.ExtractionFailed?)
  {
    assert RowOk(cfg, w.db, w.db.pairs[p]);
  }

  lemma FailedCosts(cfg: Settings, counted: set<nat>, r: PairRow, r': PairRow)
    requires r' == r || (r.status.Pending? && r'.status.ExtractionFailed?)
    requires r.attempts <= cfg.runMaxAttempts
    ensures Costs(cfg, counted, r, r')
  {
  }

  /** What a retrieval dispatch does to one row. */
  lemma RetrieveCosts(cfg: Settings, w: World, c: nat, locked: set<nat>, p: nat)
    requires DbOk(cfg, w.db) && LedgerOk(cfg, w) && c < |w.db.campaigns| && p < |w.db.pairs|
    ensures |DispatchPairs(cfg, w.db, c, locked).pairs| == |w.db.pairs|
    ensures Costs(cfg, w.counted, w.db.pairs[p], DispatchPairs(cfg, w.db, c, locked).pairs[p])
  {
    var db := w.db;
    assert RowOk(cfg, db, db.pairs[p]) && RowBudget(cfg, w.counted, db.pairs[p]);
    RetrievedRow(cfg, db, c, locked, p);
    if db.campaigns[c] == CampaignRunning {
      ReservedCosts(cfg, w, c, db.pairs[p], DispatchPairs(cfg, db, c, locked).pairs[p]);
    }
  }

  lemma ReservedCosts(cfg: Settings, w: World, c: nat, r: PairRow, r': PairRow)
    requires RowOk(cfg, w.db, r) && RowBudget(cfg, w.counted, r)
    requires Reserved(cfg, ExpiredRunning(cfg, w.db, c), ExpireRunning(cfg, w.db.clock, c, r), r')
    ensures Costs(cfg, w.counted, r, r')
  {
  }

  lemma BarrierCosts(cfg: Settings, w: World, j: nat, p: nat)
    requires ValidSettings(cfg) && DbOk(cfg, w.db) && LedgerOk(cfg, w) && j < |w.db.jds| && p < |w.db.pairs|
    ensures |FinalizeJd(w.db, j).pairs| == |w.db.pairs|
    ensures Costs(cfg, w.counted, w.db.pairs[p], FinalizeJd(w.db, j).pairs[p])
  {
    BarrierRowChanges(cfg, w.db, j, p);
  }

  /** A Stage 3 dispatch pays for a row unless the lease it takes back was never counted. */
  lemma EvaluateCosts(cfg: Settings, w: World, c: nat, locked: set<nat>, p: nat)
    requires LedgerOk(cfg, w) && Shape(w.db) && c < |w.db.campaigns| && p < |w.db.pairs|
    ensures |DispatchStage3(cfg, w.db, c, locked).pairs| == |w.db.pairs|
    ensures var r, r' := w.db.pairs[p], DispatchStage3(cfg, w.db, c, locked).pairs[p];
      r' == r || Effort(cfg, w.counted, r') + 1 <= Effort(cfg, w.counted, r) + 2 * Bit(Uncounted(w.counted, r))
  {
    EvaluateRows(cfg, w.db, c, locked, p);
    var r, r' := w.db.pairs[p], DispatchStage3(cfg, w.db, c, locked).pairs[p];
    assert RowBudget(cfg, w.counted, r);
  }

  /** The remaining transactions: fenced worker writes and refunds. */
  lemma RefundCosts(cfg: Settings, w: World, st: Step, p: nat)
    requires WorldOk(cfg, w) && LedgerOk(cfg, w) && Enabled(cfg, w, st) && p < |w.db.pairs|
    requires st.RetrieveRefund? || st.EvaluateRefund? || st.EvaluatePark?
    ensures |w.db.pairs| <= |DbAfter(cfg, w, st).pairs| && EffortPays(cfg, w, st, p)
  {
    if st.RetrieveRefund? {
      assert Messages(cfg, w, st).counted == w.counted;
    } else {
      EvaluationRefundCosts(cfg, w, st, p);
    }
  }

  /** A worker's or refund's write takes an evaluation back: to the shortlist, or to an end. */
  predicate Released(r: PairRow, r': PairRow) {
    && r.status == Stage3Running && r'.stage3Attempts == r.stage3Attempts
    && (r'.status == Shortlisted || Terminal(r'.status))
  }

  lemma ReleasedRow(cfg: Settings, w: World, st: Step, p: nat)
    requires Enabled(cfg, w, st) && FencedEvaluation(st) && p < |w.db.pairs|
    ensures |DbAfter(cfg, w, st).pairs| == |w.db.pairs| && Messages(cfg, w, st).counted == w.counted
    ensures var r, r' := w.db.pairs[p], DbAfter(cfg, w, st).pairs[p];
      r' == r || (Released(r, r') && (st.EvaluateRefund? || r.lease == Some(w.workers[st.worker].token)))
  {
  }

  lemma ReleasedEffort(cfg: Settings, counted: set<nat>, r: PairRow, r': PairRow)
    requires RowBudget(cfg, counted, r) && Released(r, r')
    ensures Effort(cfg, counted, r') + 1 <= Effort(cfg, counted, r) + 2 * Bit(Uncounted(counted, r))
  {
  }

  lemma EvaluationRefundCosts(cfg: Settings, w: World, st: Step, p: nat)
    requires WorldOk(cfg, w) && LedgerOk(cfg, w) && Enabled(cfg, w, st) && p < |w.db.pairs|
    requires st.EvaluateRefund? || st.EvaluatePark?
    ensures |w.db.pairs| <= |DbAfter(cfg, w, st).pairs| && EffortPays(cfg, w, st, p)
  {
    ReleasedRow(cfg, w, st, p);
    assert RowBudget(cfg, w.counted, w.db.pairs[p]);
    if DbAfter(cfg, w, st).pairs[p] != w.db.pairs[p] {
      ReleasedEffort(cfg, w.counted, w.db.pairs[p], DbAfter(cfg, w, st).pairs[p]);
    }
  }

  lemma RetrieveFinishCosts(cfg: Settings, w: World, st: Step, p: nat)
    requires WorldOk(cfg, w) && LedgerOk(cfg, w) && Enabled(cfg, w, st) && p < |w.db.pairs| && st.RetrieveFinish?
    ensures |w.db.pairs| <= |DbAfter(cfg, w, st).pairs| && EffortPays(cfg, w, st, p)
  {
    var r := w.db.pairs[p];
    assert RowOk(cfg, w.db, r) && RowBudget(cfg, w.counted, r);
    RetrievedRowAfter(cfg, w, st.worker, st.retrieval, p);
    RetrievedEffort(cfg, w.counted, r, DbAfter(cfg, w, st).pairs[p]);
  }

  /** A retrieval result ends the pair, makes it ready, or sends it back to wait. */
  predicate Retrieved(r: PairRow, r': PairRow) {
    && r.status == Running && r'.attempts == r.attempts && r'.stage3Attempts == r.stage3Attempts
    && (Terminal(r'.status) || r'.status == Stage2Ready || r'.status == Pending)
  }

  lemma RetrievedRowAfter(cfg: Settings, w: World, id: nat, result: Retrieval, p: nat)
    requires Enabled(cfg, w, RetrieveFinish(id, result)) && p < |w.db.pairs|
    ensures var db' := DbAfter(cfg, w, RetrieveFinish(id, result));
      && |db'.pairs| == |w.db.pairs| && Messages(cfg, w, RetrieveFinish(id, result)).counted == w.counted
      && (db'.pairs[p] == w.db.pairs[p] || Retrieved(w.db.pairs[p], db'.pairs[p]))
  {
  }

  lemma RetrievedEffort(cfg: Settings, counted: set<nat>, r: PairRow, r': PairRow)
    requires 0 <= r.attempts <= cfg.runMaxAttempts
    requires r' == r || Retrieved(r, r')
    ensures Costs(cfg, counted, r, r')
  {
  }

  lemma EvaluateFinishCosts(cfg: Settings, w: World, st: Step, p: nat)
    requires WorldOk(cfg, w) && LedgerOk(cfg, w) && Enabled(cfg, w, st) && p < |w.db.pairs|
    requires st.EvaluateRetry? || st.EvaluateFinish?
    ensures |w.db.pairs| <= |DbAfter(cfg, w, st).pairs| && EffortPays(cfg, w, st, p)
  {
    ReleasedRow(cfg, w, st, p);
    assert RowBudget(cfg, w.counted, w.db.pairs[p]);
    assert w.workers[st.worker].token in w.counted;
    if DbAfter(cfg, w, st).pairs[p] != w.db.pairs[p] {
      ReleasedEffort(cfg, w.counted, w.db.pairs[p], DbAfter(cfg, w, st).pairs[p]);
    }
  }

  lemma CountCosts(cfg: Settings, w: World, st: Step, p: nat)
    requires WorldOk(cfg, w) && LedgerOk(cfg, w) && Enabled(cfg, w, st) && p < |w.db.pairs| && st.EvaluateCount?
    ensures |w.db.pairs| <= |DbAfter(cfg, w, st).pairs| && EffortPays(cfg, w, st, p)
  {
    var k := w.workers[st.worker];
    CountChanges(cfg, w, st.worker, p);
    if Holds(w.db.pairs[k.pair], Stage3Running, k.token) {
      CountedEffort(cfg, w.counted, k.token, w.db.pairs[p], DbAfter(cfg, w, st).pairs[p]);
    }
  }

  /** Counting an attempt touches the row that holds the token, and charges the token. */
  lemma CountChanges(cfg: Settings, w: World, id: nat, p: nat)
    requires WorldOk(cfg, w) && WorkerLedger(w) && Enabled(cfg, w, EvaluateCount(id)) && p < |w.db.pairs|
    ensures var k, db', after := w.workers[id], DbAfter(cfg, w, EvaluateCount(id)), Messages(cfg, w, EvaluateCount(id));
      && |db'.pairs| == |w.db.pairs|
      && if Holds(w.db.pairs[k.pair], Stage3Running, k.token) then
           && k.token !in w.counted && after.counted == w.counted + {k.token}
           && CountedBy(k.token, w.db.pairs[p], db'.pairs[p])
         else db' == w.db && after.counted == w.counted
  {
    var k := w.workers[id];
    if Holds(w.db.pairs[k.pair], Stage3Running, k.token) && p != k.pair {
      OtherLease(w.db.pairs, k.pair, p, k.token);
    }
  }

  lemma OtherLease(pairs: seq<PairRow>, p: nat, q: nat, t: nat)
    requires DistinctLeases(pairs) && p < |pairs| && q < |pairs| && p != q && pairs[p].lease == Some(t)
    ensures pairs[q].lease != Some(t)
  {
  }

  predicate CountedBy(token: nat, r: PairRow, r': PairRow) {
    if Holds(r, Stage3Running, token) then r' == r.(stage3Attempts := r.stage3Attempts + 1)
    else r' == r && r.lease != Some(token)
  }

  lemma CountedEffort(cfg: Settings, counted: set<nat>, token: nat, r: PairRow, r': PairRow)
    requires token !in counted && CountedBy(token, r, r')
    ensures Effort(cfg, counted + {token}, r') + Bit(r' != r) <= Effort(cfg, counted, r)
  {
  }

  lemma StepPays(cfg: Settings, w: World, st: Step, p: nat)
    requires ValidSettings(cfg) && WorldOk(cfg, w) && LedgerOk(cfg, w) && Enabled(cfg, w, st) && p < |w.db.pairs|
    ensures |w.db.pairs| <= |DbAfter(cfg, w, st).pairs| && EffortPays(cfg, w, st, p)
  {
    if IntakeStep(st) {
      IntakeCosts(cfg, w, st, p);
    } else if st.Retrieve? {
      RetrieveCosts(cfg, w, st.campaign, st.locked, p);
    } else if st.Barrier? {
      BarrierCosts(cfg, w, st.jd, p);
    } else if st.Evaluate? {
      EvaluateCosts(cfg, w, st.campaign, st.locked, p);
    } else if st.RetrieveRefund? || st.EvaluateRefund? || st.EvaluatePark? {
      RefundCosts(cfg, w, st, p);
    } else if st.RetrieveFinish? {
      RetrieveFinishCosts(cfg, w, st, p);
    } else if st.EvaluateRetry? || st.EvaluateFinish? {
      EvaluateFinishCosts(cfg, w, st, p);
    } else if st.EvaluateCount? {
      CountCosts(cfg, w, st, p);
    }
  }

  ghost function ChangeCount(cfg: Settings, w: World, run: seq<Step>, p: nat): nat
    requires Legal(cfg, w, run) && p < |w.db.pairs|
    decreases |run|
  {
    if run == [] || p >= |Apply(cfg, w, run[0]).db.pairs| then 0
    else Bit(Changes(cfg, w, run[0], p)) + ChangeCount(cfg, Apply(cfg, w, run[0]), run[1..], p)
  }

  ghost function GiveBackCount(cfg: Settings, w: World, run: seq<Step>, p: nat): nat
    requires Legal(cfg, w, run) && p < |w.db.pairs|
    decreases |run|
  {
    if run == [] || p >= |Apply(cfg, w, run[0]).db.pairs| then 0
    else Bit(GivesBack(cfg, w, run[0], p)) + GiveBackCount(cfg, Apply(cfg, w, run[0]), run[1..], p)
  }

  lemma EffortIsNonNegative(cfg: Settings, w: World, p: nat)
    requires DbOk(cfg, w.db) && LedgerOk(cfg, w) && p < |w.db.pairs|
    ensures 0 <= Effort(cfg, w.counted, w.db.pairs[p])
  {
    assert RowOk(cfg, w.db, w.db.pairs[p]) && RowBudget(cfg, w.counted, w.db.pairs[p]);
  }

  lemma NextEffort(cfg: Settings, w: World, st: Step, p: nat)
    requires ValidSettings(cfg) && WorldOk(cfg, w) && LedgerOk(cfg, w) && Enabled(cfg, w, st)
    requires p < |w.db.pairs| && Changes(cfg, w, st, p)
    ensures 0 <= Effort(cfg, Apply(cfg, w, st).counted, Apply(cfg, w, st).db.pairs[p])
  {
    StepOk(cfg, w, st);
    LedgerStep(cfg, w, st);
    EffortIsNonNegative(cfg, Apply(cfg, w, st), p);
  }

  /** The measure falls with every change of a pair, except the three that give something back. */
  lemma EffortFalls(cfg: Settings, w: World, st: Step, p: nat)
    requires ValidSettings(cfg) && OnceReachable(cfg, w) && Enabled(cfg, w, st)
    requires p < |w.db.pairs| && Changes(cfg, w, st, p) && !GivesBack(cfg, w, st, p)
    ensures var w' := Apply(cfg, w, st);
      0 <= Effort(cfg, w'.counted, w'.db.pairs[p]) < Effort(cfg, w.counted, w.db.pairs[p])
  {
    OnceReachableOk(cfg, w);
    StepPays(cfg, w, st, p);
    NextEffort(cfg, w, st, p);
  }

  lemma {:induction false} RunPays(cfg: Settings, w: World, run: seq<Step>, p: nat)
    requires ValidSettings(cfg) && WorldOk(cfg, w) && LedgerOk(cfg, w)
    requires Legal(cfg, w, run) && OnceRun(cfg, w, run) && p < |w.db.pairs|
    ensures ChangeCount(cfg, w, run, p) <= Effort(cfg, w.counted, w.db.pairs[p]) + 2 * GiveBackCount(cfg, w, run, p)
    decreases |run|
  {
    if run == [] {
      EffortIsNonNegative(cfg, w, p);
    } else {
      var next := Apply(cfg, w, run[0]);
      StepPays(cfg, w, run[0], p);
      StepOk(cfg, w, run[0]);
      LedgerStep(cfg, w, run[0]);
      RunPays(cfg, next, run[1..], p);
    }
  }

  /**
   * In every run with one delivery per message, a pair changes at most as often as its effort says,
   * plus twice for each refund, denial or uncounted expiry; a fresh pair starts with
   * 3 * MAX_STAGE3 + 4 + 2 * MAX_RETRIEVAL.
   */
  lemma WorkIsBounded(cfg: Settings, w: World, run: seq<Step>, p: nat)
    requires ValidSettings(cfg) && OnceReachable(cfg, w)
    requires Legal(cfg, w, run) && OnceRun(cfg, w, run) && p < |w.db.pairs|
    ensures ChangeCount(cfg, w, run, p)
         <= 3 * cfg.stage3MaxAttempts + 4 + 2 * cfg.runMaxAttempts + 2 * GiveBackCount(cfg, w, run, p)
  {
    OnceReachableOk(cfg, w);
    RunPays(cfg, w, run, p);
    FullEffort(cfg, w, p);
  }

  /** No pair has more effort left than a fresh one. */
  lemma FullEffort(cfg: Settings, w: World, p: nat)
    requires RowsOk(cfg, w.db) && p < |w.db.pairs|
    ensures Effort(cfg, w.counted, w.db.pairs[p]) <= 3 * cfg.stage3MaxAttempts + 4 + 2 * cfg.runMaxAttempts
  {
    assert RowOk(cfg, w.db, w.db.pairs[p]);
  }
}

/**
 * What holds of the tables in every reachable state, and the relation `Evolves` every transaction
 * stays within: terminal rows freeze, barriers are final, tokens once given up never come back.
 */
module CampaignInvariant {
  import opened Prelude
  import opened Ranking
  import opened CampaignState

  // ----- one row

  predicate BeforeBarrier(s: PairStatus) {
    s.Pending? || s.Running? || s.Stage2Ready? || NeverRanked(s)
  }

  predicate NeverRanked(s: PairStatus) {
    s.ExtractionFailed? || s.FilterRejected? || s.ProcessingFailed?
  }

  predicate LeaseOk(nextToken: nat, r: PairRow) {
    && (r.lease.Some? <==> Leased(r.status))
    && (r.lease.Some? ==> r.until.Some? && r.lease.value < nextToken)
    && (r.until.Some? ==> Leased(r.status) || r.status == Shortlisted)
  }

  predicate AttemptsOk(cfg: Settings, r: PairRow) {
    && 0 <= r.attempts <= cfg.runMaxAttempts
    && (r.status == Pending ==> r.attempts < cfg.runMaxAttempts)
    && (r.status == Running ==> 1 <= r.attempts)
    && 0 <= r.stage3Attempts
  }

  predicate JdAgrees(s: JdStatus, r: PairRow) {
    && (JdOpen(s) ==> BeforeBarrier(r.status) && r.rank.None? && r.stage3Attempts == 0)
    && (!JdOpen(s) ==>
          && !r.status.Pending? && !r.status.Running? && !r.status.Stage2Ready?
          && (r.rank.None? <==> NeverRanked(r.status))
          && (NeverRanked(r.status) || r.status == CutoffExcluded ==> r.stage3Attempts == 0)
          && (r.status == EvaluationFailed ==> r.stage3Attempts > 0))
    && (s == JdCompleted ==> Terminal(r.status))
  }

  predicate CvAgrees(v: CvRow, r: PairRow) {
    && (r.status.Pending? || r.status.ExtractionFailed? || v.stage0 == Stage0Succeeded)
    && (r.status == ExtractionFailed <==> v.stage0 == Stage0Failed)
    && (r.evidence.Some? ==> v.stage0 == Stage0Succeeded && r.sourceText == v.text)
    && (r.status == Stage2Ready || r.rank.Some? ==> r.evidence.Some?)
  }

  predicate CampaignAgrees(s: CampaignStatus, r: PairRow) {
    && (s == Intake ==> r.status.Pending? || r.status.ExtractionFailed?)
    && (s == CampaignCompleted ==> Terminal(r.status))
  }

  ghost predicate RowOk(cfg: Settings, db: Db, r: PairRow) {
    && RowShape(db, r)
    && LeaseOk(db.nextToken, r)
    && AttemptsOk(cfg, r)
    && JdAgrees(db.jds[r.jd].status, r)
    && CvAgrees(db.cvs[r.cv], r)
    && CampaignAgrees(db.campaigns[r.campaign], r)
  }

  // ----- whole tables

  predicate CvOk(v: CvRow) {
    && (v.text.Some? <==> v.stage0 == Stage0Succeeded)
    && (Stage0Done(v.stage0) ==> !v.hasPdf)
  }

  ghost predicate JdOk(db: Db, j: JdRow)
    requires j.campaign < |db.campaigns|
  {
    && (db.campaigns[j.campaign] == CampaignCompleted ==> j.status == JdCompleted)
    && (db.campaigns[j.campaign] == Intake ==> j.status == JdPending)
  }

  ghost predicate OwnersOk(db: Db) {
    && Shape(db)
    && (forall v :: 0 <= v < |db.cvs| ==> CvOk(db.cvs[v]) && db.cvs[v].updatedAt <= db.clock)
    && (forall v, u :: 0 <= v < u < |db.cvs| && db.cvs[v].campaign == db.cvs[u].campaign ==>
          db.cvs[v].candidate != db.cvs[u].candidate)
    && (forall j :: 0 <= j < |db.jds| ==> JdOk(db, db.jds[j]))
  }

  ghost predicate DistinctLeases(pairs: seq<PairRow>) {
    forall p, q :: 0 <= p < q < |pairs| && pairs[p].lease.Some? ==> pairs[p].lease != pairs[q].lease
  }

  ghost predicate HasPair(pairs: seq<PairRow>, j: nat, v: nat) {
    exists p :: 0 <= p < |pairs| && pairs[p].jd == j && pairs[p].cv == v
  }

  /** Exactly one pair row per JD and CV of the same campaign. */
  ghost predicate OnePairEach(db: Db) {
    && (forall p, q :: 0 <= p < q < |db.pairs| ==>
          db.pairs[p].jd != db.pairs[q].jd || db.pairs[p].cv != db.pairs[q].cv)
    && (forall j, v :: 0 <= j < |db.jds| && 0 <= v < |db.cvs| && db.jds[j].campaign == db.cvs[v].campaign ==>
          HasPair(db.pairs, j, v))
    && (forall c: nat :: Count(db.pairs, OfCampaign(c)) == Count(db.jds, JdsOf(c)) * Count(db.cvs, CvsOf(c)))
  }

  ghost predicate WithinLimits(cfg: Settings, pairs: seq<PairRow>) {
    && (forall c: nat :: Count(pairs, RunningIn(c)) <= cfg.retrievalInflight)
    && Count(pairs, RunningAnywhere()) <= cfg.retrievalGlobalInflight
    && Count(pairs, EvaluatingAnywhere()) <= cfg.stage3GlobalInflight
  }

  /** `order` lists the ranked pairs of JD `j`: the k-th holds rank k + 1, and no other pair is ranked. */
  ghost predicate RankOrder(pairs: seq<PairRow>, j: nat, order: seq<nat>) {
    && Distinct(order)
    && (forall k :: 0 <= k < |order| ==>
          order[k] < |pairs| && pairs[order[k]].jd == j && pairs[order[k]].rank == Some(k + 1))
    && (forall p :: 0 <= p < |pairs| && pairs[p].jd == j && pairs[p].rank.Some? ==> p in order)
  }

  ghost predicate BarrierOk(db: Db, j: nat)
    requires j < |db.jds|
  {
    !JdOpen(db.jds[j].status) ==>
      && Count(db.pairs, SelectedOf(j)) <= BarrierCap(db.jds[j].cap)
      && exists order :: RankOrder(db.pairs, j, order)
  }

  ghost predicate DbOk(cfg: Settings, db: Db) {
    && OwnersOk(db)
    && (forall p :: 0 <= p < |db.pairs| ==> RowOk(cfg, db, db.pairs[p]))
    && DistinctLeases(db.pairs)
    && OnePairEach(db)
    && WithinLimits(cfg, db.pairs)
    && (forall j :: 0 <= j < |db.jds| ==> BarrierOk(db, j))
  }

  // ----- the evolution every transaction stays within

  ghost predicate Live(pairs: seq<PairRow>, token: nat) {
    exists p :: 0 <= p < |pairs| && pairs[p].lease == Some(token)
  }

  function JdPhase(s: JdStatus): nat {
    match s
    case JdPending => 0
    case JdProcessing => 1
    case JdShortlisted => 2
    case JdCompleted => 3
  }

  function CampaignPhase(s: CampaignStatus): nat {
    match s
    case Intake => 0
    case CampaignRunning => 1
    case CampaignCompleted => 2
  }

  function Phase(s: PairStatus): nat {
    if Terminal(s) then 3
    else if s == Shortlisted || s == Stage3Running then 2
    else if s == Stage2Ready then 1
    else 0
  }

  ghost predicate RowEvolves(r: PairRow, r': PairRow, barrierDone: bool) {
    && r'.campaign == r.campaign && r'.jd == r.jd && r'.cv == r.cv
    && Phase(r.status) <= Phase(r'.status)
    && r.stage3Attempts <= r'.stage3Attempts
    && (Terminal(r.status) ==> r' == r)
    && (barrierDone ==> r'.rank == r.rank && r'.evidence == r.evidence && (Selected(r') <==> Selected(r)))
  }

  ghost predicate BarrierDone(db: Db, r: PairRow) {
    r.jd < |db.jds| && !JdOpen(db.jds[r.jd].status)
  }

  ghost predicate PairsEvolve(db: Db, pairs': seq<PairRow>) {
    && |db.pairs| <= |pairs'|
    && (forall p :: 0 <= p < |db.pairs| ==>
          db.pairs[p].jd < |db.jds| && RowEvolves(db.pairs[p], pairs'[p], BarrierDone(db, db.pairs[p])))
  }

  ghost predicate CvEvolves(v: CvRow, v': CvRow) {
    && v'.campaign == v.campaign && v'.candidate == v.candidate
    && v.updatedAt <= v'.updatedAt
    && (Stage0Done(v.stage0) ==> v' == v)
  }

  ghost predicate Evolves(db: Db, db': Db) {
    && |db.campaigns| == |db'.campaigns| && |db.jds| == |db'.jds|
    && |db.cvs| <= |db'.cvs| && |db.pairs| <= |db'.pairs|
    && db.clock <= db'.clock && db.nextToken <= db'.nextToken
    && (forall c :: 0 <= c < |db.campaigns| ==> CampaignPhase(db.campaigns[c]) <= CampaignPhase(db'.campaigns[c]))
    && (forall j :: 0 <= j < |db.jds| ==>
          db'.jds[j] == db.jds[j].(status := db'.jds[j].status)
          && JdPhase(db.jds[j].status) <= JdPhase(db'.jds[j].status))
    && (forall v :: 0 <= v < |db.cvs| ==> CvEvolves(db.cvs[v], db'.cvs[v]))
    && PairsEvolve(db, db'.pairs)
    && (forall t: nat :: t < db.nextToken && !Live(db.pairs, t) ==> !Live(db'.pairs, t))
  }

  lemma EvolvesReflexive(db: Db)
    requires Shape(db)
    ensures Evolves(db, db)
  {
  }

  lemma EvolvesTransitive(a: Db, b: Db, c: Db)
    requires Evolves(a, b) && Evolves(b, c)
    ensures Evolves(a, c)
  {
  }

  // ----- transactions that rank nothing

  /** Row changes that keep the row's identity and rank, and select nothing new. */
  ghost predicate SteadyRow(r: PairRow, r': PairRow) {
    && r'.campaign == r.campaign && r'.jd == r.jd && r'.cv == r.cv
    && r'.rank == r.rank
    && (Selected(r') ==> Selected(r))
  }

  ghost predicate SteadyRows(pairs: seq<PairRow>, pairs': seq<PairRow>) {
    && |pairs| == |pairs'|
    && (forall p :: 0 <= p < |pairs| ==> SteadyRow(pairs[p], pairs'[p]))
  }

  /** The columns that are written once, when a row is created. */
  ghost predicate SameKeys(db: Db, db': Db) {
    && |db.campaigns| == |db'.campaigns| && |db.jds| == |db'.jds| && |db.cvs| == |db'.cvs|
    && |db.pairs| == |db'.pairs|
    && (forall j :: 0 <= j < |db.jds| ==> db'.jds[j].campaign == db.jds[j].campaign)
    && (forall v :: 0 <= v < |db.cvs| ==> db'.cvs[v].campaign == db.cvs[v].campaign)
    && (forall p :: 0 <= p < |db.pairs| ==>
          && db'.pairs[p].campaign == db.pairs[p].campaign
          && db'.pairs[p].jd == db.pairs[p].jd && db'.pairs[p].cv == db.pairs[p].cv)
  }

  /** Rows may leave the in-flight statuses, never enter them. */
  ghost predicate NoNewLease(pairs: seq<PairRow>, pairs': seq<PairRow>) {
    && |pairs| == |pairs'|
    && (forall p :: 0 <= p < |pairs| ==>
          && pairs'[p].campaign == pairs[p].campaign
          && (pairs'[p].lease == pairs[p].lease || pairs'[p].lease.None?)
          && (Leased(pairs'[p].status) ==> pairs'[p].status == pairs[p].status))
  }

  /** Steady, and nothing new is leased: at most a lease is cleared. */
  ghost predicate QuietRow(r: PairRow, r': PairRow) {
    && SteadyRow(r, r')
    && (r'.lease == r.lease || r'.lease.None?)
    && (Leased(r'.status) ==> r'.status == r.status)
  }

  ghost predicate QuietRows(pairs: seq<PairRow>, pairs': seq<PairRow>) {
    && |pairs| == |pairs'|
    && (forall p :: 0 <= p < |pairs| ==> QuietRow(pairs[p], pairs'[p]))
  }

  ghost predicate RowsOk(cfg: Settings, db: Db) {
    forall p :: 0 <= p < |db.pairs| ==> RowOk(cfg, db, db.pairs[p])
  }

  ghost predicate SameOwners(db: Db, db': Db) {
    && |db.campaigns| == |db'.campaigns| && |db.jds| == |db'.jds| && |db.cvs| == |db'.cvs|
    && (forall j :: 0 <= j < |db.jds| ==>
          db'.jds[j] == db.jds[j].(status := db'.jds[j].status)
          && (JdOpen(db'.jds[j].status) <==> JdOpen(db.jds[j].status)))
    && (forall v :: 0 <= v < |db.cvs| ==>
          db'.cvs[v].campaign == db.cvs[v].campaign && db'.cvs[v].candidate == db.cvs[v].candidate)
  }

  lemma KeysOnePairEach(db: Db, db': Db)
    requires OnePairEach(db) && SameKeys(db, db')
    ensures OnePairEach(db')
  {
    forall j, v | 0 <= j < |db'.jds| && 0 <= v < |db'.cvs| && db'.jds[j].campaign == db'.cvs[v].campaign
      ensures HasPair(db'.pairs, j, v)
    {
      assert HasPair(db.pairs, j, v);
      var p :| 0 <= p < |db.pairs| && db.pairs[p].jd == j && db.pairs[p].cv == v;
      assert db'.pairs[p].jd == j;
    }
    forall c: nat
      ensures Count(db'.pairs, OfCampaign(c)) == Count(db'.jds, JdsOf(c)) * Count(db'.cvs, CvsOf(c))
    {
      CountSame(db.pairs, db'.pairs, OfCampaign(c), OfCampaign(c));
      CountSame(db.jds, db'.jds, JdsOf(c), JdsOf(c));
      CountSame(db.cvs, db'.cvs, CvsOf(c), CvsOf(c));
    }
  }

  lemma SteadyBarrier(db: Db, db': Db, j: nat)
    requires j < |db.jds| && SameOwners(db, db') && BarrierOk(db, j) && SteadyRows(db.pairs, db'.pairs)
    ensures BarrierOk(db', j)
  {
    if !JdOpen(db.jds[j].status) {
      CountMonotone(db'.pairs, db.pairs, SelectedOf(j), SelectedOf(j));
      var order :| RankOrder(db.pairs, j, order);
      assert RankOrder(db'.pairs, j, order);
    }
  }

  lemma Steady(cfg: Settings, db: Db, db': Db)
    requires DbOk(cfg, db) && SameOwners(db, db') && OwnersOk(db') && SteadyRows(db.pairs, db'.pairs)
    requires RowsOk(cfg, db') && DistinctLeases(db'.pairs) && WithinLimits(cfg, db'.pairs)
    ensures DbOk(cfg, db')
  {
    KeysOnePairEach(db, db');
    forall j | 0 <= j < |db'.jds| ensures BarrierOk(db', j) {
      assert BarrierOk(db, j);
      SteadyBarrier(db, db', j);
    }
  }

  lemma NoNewLeaseLimits(cfg: Settings, pairs: seq<PairRow>, pairs': seq<PairRow>)
    requires WithinLimits(cfg, pairs) && NoNewLease(pairs, pairs')
    ensures WithinLimits(cfg, pairs')
  {
    forall c: nat ensures Count(pairs', RunningIn(c)) <= cfg.retrievalInflight {
      CountMonotone(pairs', pairs, RunningIn(c), RunningIn(c));
    }
    CountMonotone(pairs', pairs, RunningAnywhere(), RunningAnywhere());
    CountMonotone(pairs', pairs, EvaluatingAnywhere(), EvaluatingAnywhere());
  }

  lemma NoNewLeaseDistinct(pairs: seq<PairRow>, pairs': seq<PairRow>)
    requires DistinctLeases(pairs) && NoNewLease(pairs, pairs')
    ensures DistinctLeases(pairs')
    ensures forall t: nat :: !Live(pairs, t) ==> !Live(pairs', t)
  {
    forall p, q | 0 <= p < q < |pairs'| && pairs'[p].lease.Some?
      ensures pairs'[p].lease != pairs'[q].lease
    {
      assert pairs[p].lease != pairs[q].lease;
    }
    forall t: nat | !Live(pairs, t) ensures !Live(pairs', t) {
      forall p | 0 <= p < |pairs'| ensures pairs'[p].lease != Some(t) {
        assert pairs[p].lease != Some(t);
      }
    }
  }

  lemma Quiet(cfg: Settings, db: Db, db': Db)
    requires DbOk(cfg, db) && SameOwners(db, db') && OwnersOk(db')
    requires QuietRows(db.pairs, db'.pairs) && RowsOk(cfg, db')
    ensures DbOk(cfg, db')
    ensures forall t: nat :: !Live(db.pairs, t) ==> !Live(db'.pairs, t)
  {
    NoNewLeaseDistinct(db.pairs, db'.pairs);
    NoNewLeaseLimits(cfg, db.pairs, db'.pairs);
    Steady(cfg, db, db');
  }

  lemma OwnersUnchanged(cfg: Settings, db: Db, db': Db)
    requires OwnersOk(db) && RowsOk(cfg, db')
    requires db'.campaigns == db.campaigns && db'.jds == db.jds && db'.cvs == db.cvs && db.clock <= db'.clock
    ensures OwnersOk(db')
  {
    forall q | 0 <= q < |db'.pairs| ensures RowShape(db', db'.pairs[q]) {
      assert RowOk(cfg, db', db'.pairs[q]);
    }
    forall j | 0 <= j < |db'.jds| ensures JdOk(db', db'.jds[j]) {
      assert JdOk(db, db.jds[j]);
    }
  }

  /** Rewriting rows quietly, leaving the owners alone. */
  lemma QuietUpdate(cfg: Settings, db: Db, pairs': seq<PairRow>)
    requires DbOk(cfg, db) && QuietRows(db.pairs, pairs')
    requires forall p :: 0 <= p < |db.pairs| ==> RowOk(cfg, db, pairs'[p])
    requires PairsEvolve(db, pairs')
    ensures DbOk(cfg, db.(pairs := pairs')) && Evolves(db, db.(pairs := pairs'))
  {
    var db' := db.(pairs := pairs');
    forall q | 0 <= q < |db'.pairs| ensures RowOk(cfg, db', db'.pairs[q]) {
      assert RowOk(cfg, db, pairs'[q]);
    }
    OwnersUnchanged(cfg, db, db');
    Quiet(cfg, db, db');
  }

  /** One row rewritten, everything else untouched. */
  lemma QuietRowUpdate(cfg: Settings, db: Db, p: nat, r': PairRow)
    requires DbOk(cfg, db) && p < |db.pairs|
    requires QuietRow(db.pairs[p], r') && RowOk(cfg, db, r')
    requires RowEvolves(db.pairs[p], r', BarrierDone(db, db.pairs[p]))
    ensures DbOk(cfg, db.(pairs := db.pairs[p := r'])) && Evolves(db, db.(pairs := db.pairs[p := r']))
  {
    var pairs' := db.pairs[p := r'];
    forall q | 0 <= q < |db.pairs|
      ensures RowOk(cfg, db, pairs'[q]) && QuietRow(db.pairs[q], pairs'[q])
      ensures db.pairs[q].jd < |db.jds| && RowEvolves(db.pairs[q], pairs'[q], BarrierDone(db, db.pairs[q]))
    {
      assert RowOk(cfg, db, db.pairs[q]);
    }
    QuietUpdate(cfg, db, pairs');
  }

  // ----- fenced writes

  lemma RefundRunningOk(cfg: Settings, db: Db, p: nat, token: nat)
    requires DbOk(cfg, db) && p < |db.pairs|
    ensures DbOk(cfg, RefundRunning(db, p, token)) && Evolves(db, RefundRunning(db, p, token))
  {
    var r := db.pairs[p];
    assert RowOk(cfg, db, r);
    if Holds(r, Running, token) {
      QuietRowUpdate(cfg, db, p, RefundRunning(db, p, token).pairs[p]);
    }
  }

  lemma FinishRunningOk(cfg: Settings, db: Db, p: nat, token: nat, text: Option<string>, result: Retrieval)
    requires DbOk(cfg, db) && p < |db.pairs|
    requires Holds(db.pairs[p], Running, token) ==> text == db.cvs[db.pairs[p].cv].text
    ensures var db' := FinishRunning(cfg, db, p, token, text, result);
      DbOk(cfg, db') && Evolves(db, db')
  {
    var r := db.pairs[p];
    assert RowOk(cfg, db, r);
    if Holds(r, Running, token) {
      QuietRowUpdate(cfg, db, p, FinishRunning(cfg, db, p, token, text, result).pairs[p]);
    }
  }

  lemma RefundEvaluatingOk(cfg: Settings, db: Db, p: nat, token: nat)
    requires DbOk(cfg, db) && p < |db.pairs|
    ensures DbOk(cfg, RefundEvaluating(db, p, token)) && Evolves(db, RefundEvaluating(db, p, token))
  {
    var r := db.pairs[p];
    assert RowOk(cfg, db, r);
    if Holds(r, Stage3Running, token) {
      QuietRowUpdate(cfg, db, p, RefundEvaluating(db, p, token).pairs[p]);
    }
  }

  lemma ParkEvaluatingOk(cfg: Settings, db: Db, p: nat, token: nat, wait: int)
    requires DbOk(cfg, db) && p < |db.pairs|
    ensures DbOk(cfg, ParkEvaluating(db, p, token, wait)) && Evolves(db, ParkEvaluating(db, p, token, wait))
  {
    var r := db.pairs[p];
    assert RowOk(cfg, db, r);
    if Holds(r, Stage3Running, token) {
      QuietRowUpdate(cfg, db, p, ParkEvaluating(db, p, token, wait).pairs[p]);
    }
  }

  lemma CountAttemptOk(cfg: Settings, db: Db, p: nat, token: nat)
    requires DbOk(cfg, db) && p < |db.pairs|
    ensures DbOk(cfg, CountAttempt(db, p, token)) && Evolves(db, CountAttempt(db, p, token))
  {
    var r := db.pairs[p];
    assert RowOk(cfg, db, r);
    if Holds(r, Stage3Running, token) {
      QuietRowUpdate(cfg, db, p, CountAttempt(db, p, token).pairs[p]);
    }
  }

  lemma RetryEvaluatingOk(cfg: Settings, db: Db, p: nat, token: nat, attempt: int, delay: int,
                          exhausted: string, code: string)
    requires DbOk(cfg, db) && p < |db.pairs|
    requires Holds(db.pairs[p], Stage3Running, token) ==> 0 < db.pairs[p].stage3Attempts
    ensures var db' := RetryEvaluating(cfg, db, p, token, attempt, delay, exhausted, code);
      DbOk(cfg, db') && Evolves(db, db')
  {
    var r := db.pairs[p];
    assert RowOk(cfg, db, r);
    if Holds(r, Stage3Running, token) {
      QuietRowUpdate(cfg, db, p, RetryEvaluating(cfg, db, p, token, attempt, delay, exhausted, code).pairs[p]);
    }
  }

  lemma FinishEvaluatingOk(cfg: Settings, db: Db, p: nat, token: nat, result: Evaluation)
    requires DbOk(cfg, db) && p < |db.pairs|
    requires Holds(db.pairs[p], Stage3Running, token) ==> 0 < db.pairs[p].stage3Attempts
    ensures DbOk(cfg, FinishEvaluating(db, p, token, result))
    ensures Evolves(db, FinishEvaluating(db, p, token, result))
  {
    var r := db.pairs[p];
    assert RowOk(cfg, db, r);
    if Holds(r, Stage3Running, token) {
      QuietRowUpdate(cfg, db, p, FinishEvaluating(db, p, token, result).pairs[p]);
    }
  }

  // ----- Stage 0

  /** A CV row and the pairs that depend on it change together. */
  lemma CvUpdate(cfg: Settings, db: Db, db': Db, v: nat)
    requires DbOk(cfg, db) && v < |db.cvs|
    requires |db'.cvs| == |db.cvs| && |db'.pairs| == |db.pairs|
    requires db' == db.(cvs := db.cvs[v := db'.cvs[v]], pairs := db'.pairs)
    requires CvEvolves(db.cvs[v], db'.cvs[v]) && CvOk(db'.cvs[v]) && db'.cvs[v].updatedAt <= db.clock
    requires RowsOk(cfg, db') && QuietRows(db.pairs, db'.pairs) && PairsEvolve(db, db'.pairs)
    ensures DbOk(cfg, db') && Evolves(db, db')
  {
    assert OwnersOk(db') by {
      forall p | 0 <= p < |db'.pairs| ensures RowShape(db', db'.pairs[p]) {
        assert RowOk(cfg, db', db'.pairs[p]);
      }
      forall j | 0 <= j < |db'.jds| ensures JdOk(db', db'.jds[j]) {
        assert JdOk(db, db.jds[j]);
      }
    }
    Quiet(cfg, db, db');
  }

  /** A pair row survives a change of its CV: it fails with the CV, or is untouched. */
  lemma CvRowChange(cfg: Settings, db: Db, db': Db, v: nat, r: PairRow, r': PairRow)
    requires RowOk(cfg, db, r) && v < |db.cvs| && !Stage0Done(db.cvs[v].stage0)
    requires db'.campaigns == db.campaigns && db'.jds == db.jds && db'.nextToken == db.nextToken
    requires |db'.cvs| == |db.cvs| && db'.cvs == db.cvs[v := db'.cvs[v]]
    requires db'.cvs[v].campaign == db.cvs[v].campaign
    requires if r.cv == v && db'.cvs[v].stage0 == Stage0Failed
      then r' == r.(status := ExtractionFailed, failure := r'.failure) else r' == r
    ensures RowOk(cfg, db', r') && QuietRow(r, r') && RowEvolves(r, r', BarrierDone(db, r))
  {
    if r.cv == v {
      assert r.status.Pending?;
    }
  }

  lemma CvChange(cfg: Settings, db: Db, db': Db, v: nat)
    requires DbOk(cfg, db) && v < |db.cvs| && !Stage0Done(db.cvs[v].stage0)
    requires |db'.cvs| == |db.cvs| && |db'.pairs| == |db.pairs|
    requires db' == db.(cvs := db.cvs[v := db'.cvs[v]], pairs := db'.pairs)
    requires CvEvolves(db.cvs[v], db'.cvs[v]) && CvOk(db'.cvs[v]) && db'.cvs[v].updatedAt <= db.clock
    requires forall p :: 0 <= p < |db.pairs| ==>
      if db.pairs[p].cv == v && db'.cvs[v].stage0 == Stage0Failed
      then db'.pairs[p] == db.pairs[p].(status := ExtractionFailed, failure := db'.pairs[p].failure)
      else db'.pairs[p] == db.pairs[p]
    ensures DbOk(cfg, db') && Evolves(db, db')
  {
    forall p | 0 <= p < |db.pairs|
      ensures RowOk(cfg, db', db'.pairs[p]) && QuietRow(db.pairs[p], db'.pairs[p])
      ensures db.pairs[p].jd < |db.jds| && RowEvolves(db.pairs[p], db'.pairs[p], BarrierDone(db, db.pairs[p]))
    {
      CvRowChange(cfg, db, db', v, db.pairs[p], db'.pairs[p]);
    }
    CvUpdate(cfg, db, db', v);
  }

  /** Before Stage 0 ends, a CV's pairs are all still PENDING. */
  lemma WaitingPairs(cfg: Settings, db: Db, v: nat, p: nat)
    requires DbOk(cfg, db) && v < |db.cvs| && !Stage0Done(db.cvs[v].stage0)
    requires p < |db.pairs| && db.pairs[p].cv == v
    ensures db.pairs[p].status.Pending?
  {
    assert RowOk(cfg, db, db.pairs[p]);
  }

  lemma ClaimStage0Ok(cfg: Settings, db: Db, v: nat)
    requires DbOk(cfg, db) && v < |db.cvs|
    ensures DbOk(cfg, ClaimStage0(cfg, db, v)) && Evolves(db, ClaimStage0(cfg, db, v))
  {
    var db' := ClaimStage0(cfg, db, v);
    if ClaimOutcome(cfg, db, v).PdfMissing? || ClaimOutcome(cfg, db, v).Claimed? {
      forall p | 0 <= p < |db.pairs| && db.pairs[p].cv == v ensures db.pairs[p].status.Pending? {
        WaitingPairs(cfg, db, v, p);
      }
      CvChange(cfg, db, db', v);
    } else {
      EvolvesReflexive(db);
    }
  }

  lemma FinishStage0Ok(cfg: Settings, db: Db, v: nat, result: Extraction)
    requires DbOk(cfg, db) && v < |db.cvs| && result != Error("")
    ensures DbOk(cfg, FinishStage0(db, v, result)) && Evolves(db, FinishStage0(db, v, result))
  {
    var db' := FinishStage0(db, v, result);
    if !Stage0Done(db.cvs[v].stage0) {
      forall p | 0 <= p < |db.pairs| && db.pairs[p].cv == v ensures db.pairs[p].status.Pending? {
        WaitingPairs(cfg, db, v, p);
      }
      CvChange(cfg, db, db', v);
    } else {
      EvolvesReflexive(db);
    }
  }

  lemma RecoverStage0Ok(cfg: Settings, db: Db, v: nat)
    requires DbOk(cfg, db) && v < |db.cvs|
    ensures DbOk(cfg, RecoverStage0(cfg, db, v)) && Evolves(db, RecoverStage0(cfg, db, v))
  {
    if NeedsRecovery(cfg, db, v) {
      CvChange(cfg, db, RecoverStage0(cfg, db, v), v);
    } else {
      EvolvesReflexive(db);
    }
  }

  // ----- dispatch

  lemma ExpiredRunningOk(cfg: Settings, db: Db, c: nat)
    requires DbOk(cfg, db)
    ensures DbOk(cfg, ExpiredRunning(cfg, db, c)) && Evolves(db, ExpiredRunning(cfg, db, c))
  {
    var pairs' := ExpiredRunning(cfg, db, c).pairs;
    forall p | 0 <= p < |db.pairs|
      ensures RowOk(cfg, db, pairs'[p]) && QuietRow(db.pairs[p], pairs'[p])
      ensures db.pairs[p].jd < |db.jds| && RowEvolves(db.pairs[p], pairs'[p], BarrierDone(db, db.pairs[p]))
    {
      assert RowOk(cfg, db, db.pairs[p]);
    }
    QuietUpdate(cfg, db, pairs');
  }

  lemma ExpiredEvaluatingOk(cfg: Settings, db: Db, c: nat)
    requires ValidSettings(cfg) && DbOk(cfg, db)
    ensures DbOk(cfg, ExpiredEvaluating(cfg, db, c)) && Evolves(db, ExpiredEvaluating(cfg, db, c))
  {
    var pairs' := ExpiredEvaluating(cfg, db, c).pairs;
    forall p | 0 <= p < |db.pairs|
      ensures RowOk(cfg, db, pairs'[p]) && QuietRow(db.pairs[p], pairs'[p])
      ensures db.pairs[p].jd < |db.jds| && RowEvolves(db.pairs[p], pairs'[p], BarrierDone(db, db.pairs[p]))
    {
      assert RowOk(cfg, db, db.pairs[p]);
    }
    QuietUpdate(cfg, db, pairs');
  }

  ghost function WithLease(db: Db, p: nat, r': PairRow): Db
    requires p < |db.pairs|
  {
    db.(pairs := db.pairs[p := r'], nextToken := db.nextToken + 1)
  }

  lemma FreshLeaseDistinct(cfg: Settings, db: Db, p: nat, r': PairRow)
    requires RowsOk(cfg, db) && DistinctLeases(db.pairs) && p < |db.pairs| && r'.lease == Some(db.nextToken)
    ensures DistinctLeases(db.pairs[p := r'])
    ensures forall t: nat :: t < db.nextToken && !Live(db.pairs, t) ==> !Live(db.pairs[p := r'], t)
  {
    forall q | 0 <= q < |db.pairs| ensures db.pairs[q].lease != Some(db.nextToken) {
      assert RowOk(cfg, db, db.pairs[q]);
    }
  }

  lemma LaterToken(cfg: Settings, db: Db, db': Db, r: PairRow)
    requires RowOk(cfg, db, r) && db.nextToken <= db'.nextToken
    requires db'.campaigns == db.campaigns && db'.jds == db.jds && db'.cvs == db.cvs
    ensures RowOk(cfg, db', r)
  {
  }

  lemma FreshLeaseRows(cfg: Settings, db: Db, p: nat, r': PairRow)
    requires RowsOk(cfg, db) && p < |db.pairs|
    requires RowOk(cfg, WithLease(db, p, r'), r')
    ensures RowsOk(cfg, WithLease(db, p, r'))
  {
    var db' := WithLease(db, p, r');
    forall q | 0 <= q < |db'.pairs| ensures RowOk(cfg, db', db'.pairs[q]) {
      LaterToken(cfg, db, db', db.pairs[q]);
    }
  }

  lemma FreshLeaseEvolves(cfg: Settings, db: Db, p: nat, r': PairRow)
    requires RowsOk(cfg, db) && DistinctLeases(db.pairs) && p < |db.pairs| && r'.lease == Some(db.nextToken)
    requires RowEvolves(db.pairs[p], r', BarrierDone(db, db.pairs[p]))
    ensures Evolves(db, WithLease(db, p, r'))
  {
    FreshLeaseDistinct(cfg, db, p, r');
    forall q | 0 <= q < |db.pairs| ensures db.pairs[q].jd < |db.jds| {
      assert RowOk(cfg, db, db.pairs[q]);
    }
  }

  /** A row that takes a fresh token keeps every invariant but, possibly, the in-flight limits. */
  lemma FreshLease(cfg: Settings, db: Db, p: nat, r': PairRow)
    requires DbOk(cfg, db) && p < |db.pairs|
    requires RowOk(cfg, WithLease(db, p, r'), r') && r'.lease == Some(db.nextToken)
    requires SteadyRow(db.pairs[p], r')
    requires WithinLimits(cfg, db.pairs[p := r'])
    ensures DbOk(cfg, WithLease(db, p, r'))
  {
    var db' := WithLease(db, p, r');
    FreshLeaseRows(cfg, db, p, r');
    FreshLeaseDistinct(cfg, db, p, r');
    OwnersUnchanged(cfg, db, db');
    Steady(cfg, db, db');
  }

  lemma ReserveRunningCounts(cfg: Settings, db: Db, p: nat)
    requires p < |db.pairs| && db.pairs[p].status == Pending
    ensures var pairs' := ReserveRunning(cfg, db, p).pairs;
      && (forall d: nat :: Count(pairs', RunningIn(d))
            == Count(db.pairs, RunningIn(d)) + (if d == db.pairs[p].campaign then 1 else 0))
      && Count(pairs', RunningAnywhere()) == Count(db.pairs, RunningAnywhere()) + 1
      && Count(pairs', EvaluatingAnywhere()) == Count(db.pairs, EvaluatingAnywhere())
  {
    var r' := ReserveRunning(cfg, db, p).pairs[p];
    forall d: nat
      ensures Count(db.pairs[p := r'], RunningIn(d))
           == Count(db.pairs, RunningIn(d)) + (if d == db.pairs[p].campaign then 1 else 0)
    {
      CountUpdate(db.pairs, p, r', RunningIn(d));
    }
    CountUpdate(db.pairs, p, r', RunningAnywhere());
    CountUpdate(db.pairs, p, r', EvaluatingAnywhere());
  }

  lemma ReserveRunningOk(cfg: Settings, db: Db, c: nat, p: nat)
    requires DbOk(cfg, db) && p < |db.pairs|
    requires db.pairs[p].status == Pending && db.pairs[p].campaign == c
    requires c < |db.campaigns| && db.campaigns[c] == CampaignRunning
    requires db.cvs[db.pairs[p].cv].stage0 == Stage0Succeeded
    requires Count(db.pairs, RunningIn(c)) < cfg.retrievalInflight
    requires Count(db.pairs, RunningAnywhere()) < cfg.retrievalGlobalInflight
    ensures DbOk(cfg, ReserveRunning(cfg, db, p)) && Evolves(db, ReserveRunning(cfg, db, p))
  {
    assert RowOk(cfg, db, db.pairs[p]);
    ReserveRunningCounts(cfg, db, p);
    FreshLease(cfg, db, p, ReserveRunning(cfg, db, p).pairs[p]);
    FreshLeaseEvolves(cfg, db, p, ReserveRunning(cfg, db, p).pairs[p]);
  }

  ghost predicate Named(rows: seq<QueueRow>, k: nat, p: nat)
    requires k <= |rows|
  {
    exists i :: 0 <= i < k && rows[i].pair == p
  }

  ghost predicate DistinctRows(db: Db, rows: seq<QueueRow>) {
    && (forall i :: 0 <= i < |rows| ==> rows[i].pair < |db.pairs|)
    && (forall i, j :: 0 <= i < j < |rows| ==> rows[i].pair != rows[j].pair)
  }

  function RunningRow(cfg: Settings, db: Db, r: PairRow, token: nat): PairRow {
    r.(status := Running, lease := Some(token), until := Some(db.clock + LeaseLength(cfg)), attempts := r.attempts + 1)
  }

  function EvaluatingRow(cfg: Settings, db: Db, r: PairRow, token: nat): PairRow {
    r.(status := Stage3Running, lease := Some(token), until := Some(db.clock + LeaseLength(cfg)))
  }

  /** What the reservation loop has done after `k` rows: exactly those rows changed. */
  lemma {:induction false} ReserveAllChanges(cfg: Settings, db: Db, rows: seq<QueueRow>, k: nat)
    requires k <= |rows| && DistinctRows(db, rows)
    ensures var db' := ReserveAll(cfg, db, rows, k);
      && db' == db.(pairs := db'.pairs, nextToken := db.nextToken + k)
      && (forall i :: 0 <= i < k ==>
            db'.pairs[rows[i].pair] == RunningRow(cfg, db, db.pairs[rows[i].pair], db.nextToken + i))
      && (forall p :: 0 <= p < |db.pairs| && !Named(rows, k, p) ==> db'.pairs[p] == db.pairs[p])
  {
    if k > 0 {
      ReserveAllChanges(cfg, db, rows, k - 1);
      var before, db' := ReserveAll(cfg, db, rows, k - 1), ReserveAll(cfg, db, rows, k);
      assert !Named(rows, k - 1, rows[k - 1].pair);
      assert db'.pairs == before.pairs[rows[k - 1].pair :=
        RunningRow(cfg, db, db.pairs[rows[k - 1].pair], db.nextToken + k - 1)];
      forall p | 0 <= p < |db.pairs| && !Named(rows, k, p) ensures db'.pairs[p] == db.pairs[p] {
        assert rows[k - 1].pair != p;
        assert !Named(rows, k - 1, p);
      }
    }
  }

  /** The next row of a reservation is still as the query found it. */
  lemma ReserveNext(cfg: Settings, db: Db, c: nat, locked: set<nat>, rows: seq<QueueRow>, k: nat)
    requires Shape(db) && k < |rows| && DistinctRows(db, rows)
    requires Retrievable(db, c, locked, rows[k].pair)
    ensures var before := ReserveAll(cfg, db, rows, k);
      && before.pairs[rows[k].pair] == db.pairs[rows[k].pair]
      && before.campaigns == db.campaigns && before.cvs == db.cvs && before.jds == db.jds
      && before.pairs[rows[k].pair].status.Pending?
      && before.pairs[rows[k].pair].campaign == c
      && before.pairs[rows[k].pair].cv < |db.cvs|
      && before.cvs[before.pairs[rows[k].pair].cv].stage0 == Stage0Succeeded
  {
    ReserveAllChanges(cfg, db, rows, k);
    assert !Named(rows, k, rows[k].pair);
  }

  ghost predicate RetrievalReady(cfg: Settings, db: Db, c: nat, locked: set<nat>, rows: seq<QueueRow>) {
    && Shape(db) && c < |db.campaigns| && db.campaigns[c] == CampaignRunning
    && DistinctRows(db, rows) && (forall i :: 0 <= i < |rows| ==> Retrievable(db, c, locked, rows[i].pair))
    && Count(db.pairs, RunningIn(c)) + |rows| <= cfg.retrievalInflight
    && Count(db.pairs, RunningAnywhere()) + |rows| <= cfg.retrievalGlobalInflight
  }

  ghost predicate RetrievalProgress(cfg: Settings, start: Db, db: Db, c: nat, k: nat) {
    && DbOk(cfg, db) && Evolves(start, db)
    && Count(db.pairs, RunningIn(c)) == Count(start.pairs, RunningIn(c)) + k
    && Count(db.pairs, RunningAnywhere()) == Count(start.pairs, RunningAnywhere()) + k
  }

  lemma ReserveOneMore(cfg: Settings, db: Db, c: nat, locked: set<nat>, rows: seq<QueueRow>, j: nat, k: nat)
    requires RetrievalReady(cfg, db, c, locked, rows) && j < |rows| && k == j + 1
    requires RetrievalProgress(cfg, db, ReserveAll(cfg, db, rows, j), c, j)
    ensures RetrievalProgress(cfg, db, ReserveAll(cfg, db, rows, k), c, k)
  {
    var before, p := ReserveAll(cfg, db, rows, j), rows[j].pair;
    ReserveNext(cfg, db, c, locked, rows, j);
    ReserveRunningOk(cfg, before, c, p);
    ReserveRunningCounts(cfg, before, p);
    EvolvesTransitive(db, before, ReserveRunning(cfg, before, p));
    assert ReserveAll(cfg, db, rows, k) == ReserveRunning(cfg, before, p);
  }

  lemma {:induction false} ReserveAllOk(cfg: Settings, db: Db, c: nat, locked: set<nat>, rows: seq<QueueRow>, k: nat)
    requires RetrievalProgress(cfg, db, db, c, 0) && RetrievalReady(cfg, db, c, locked, rows) && k <= |rows|
    ensures RetrievalProgress(cfg, db, ReserveAll(cfg, db, rows, k), c, k)
    decreases k
  {
    if k > 0 {
      var j: nat := k - 1;
      ReserveAllOk(cfg, db, c, locked, rows, j);
      ReserveOneMore(cfg, db, c, locked, rows, j, k);
    }
  }

  lemma DispatchPairsOk(cfg: Settings, db: Db, c: nat, locked: set<nat>)
    requires ValidSettings(cfg) && DbOk(cfg, db) && c < |db.campaigns|
    ensures DbOk(cfg, DispatchPairs(cfg, db, c, locked)) && Evolves(db, DispatchPairs(cfg, db, c, locked))
  {
    if db.campaigns[c] == CampaignRunning {
      ExpiredRunningOk(cfg, db, c);
      var expired := ExpiredRunning(cfg, db, c);
      var rows := RetrievalRows(cfg, expired, c, locked);
      RetrievalRowsSound(cfg, expired, c, locked);
      EvolvesReflexive(expired);
      ReserveAllOk(cfg, expired, c, locked, rows, |rows|);
      EvolvesTransitive(db, expired, DispatchPairs(cfg, db, c, locked));
    } else {
      EvolvesReflexive(db);
    }
  }

  lemma ReserveEvaluatingCounts(cfg: Settings, db: Db, p: nat)
    requires p < |db.pairs| && db.pairs[p].status == Shortlisted
    ensures var pairs' := ReserveEvaluating(cfg, db, p).pairs;
      && (forall d: nat :: Count(pairs', RunningIn(d)) == Count(db.pairs, RunningIn(d)))
      && Count(pairs', RunningAnywhere()) == Count(db.pairs, RunningAnywhere())
      && Count(pairs', EvaluatingAnywhere()) == Count(db.pairs, EvaluatingAnywhere()) + 1
  {
    var r' := ReserveEvaluating(cfg, db, p).pairs[p];
    forall d: nat ensures Count(db.pairs[p := r'], RunningIn(d)) == Count(db.pairs, RunningIn(d)) {
      CountUpdate(db.pairs, p, r', RunningIn(d));
    }
    CountUpdate(db.pairs, p, r', RunningAnywhere());
    CountUpdate(db.pairs, p, r', EvaluatingAnywhere());
  }

  lemma ReserveEvaluatingOk(cfg: Settings, db: Db, p: nat)
    requires DbOk(cfg, db) && p < |db.pairs|
    requires db.pairs[p].status == Shortlisted
    requires db.jds[db.pairs[p].jd].status == JdShortlisted
    requires Count(db.pairs, EvaluatingAnywhere()) < cfg.stage3GlobalInflight
    ensures DbOk(cfg, ReserveEvaluating(cfg, db, p)) && Evolves(db, ReserveEvaluating(cfg, db, p))
  {
    assert RowOk(cfg, db, db.pairs[p]);
    ReserveEvaluatingCounts(cfg, db, p);
    FreshLease(cfg, db, p, ReserveEvaluating(cfg, db, p).pairs[p]);
    FreshLeaseEvolves(cfg, db, p, ReserveEvaluating(cfg, db, p).pairs[p]);
  }

  lemma {:induction false} ClaimAllChanges(cfg: Settings, db: Db, rows: seq<QueueRow>, k: nat)
    requires k <= |rows| && DistinctRows(db, rows)
    ensures var db' := ClaimAll(cfg, db, rows, k);
      && db' == db.(pairs := db'.pairs, nextToken := db.nextToken + k)
      && (forall i :: 0 <= i < k ==>
            db'.pairs[rows[i].pair] == EvaluatingRow(cfg, db, db.pairs[rows[i].pair], db.nextToken + i))
      && (forall p :: 0 <= p < |db.pairs| && !Named(rows, k, p) ==> db'.pairs[p] == db.pairs[p])
  {
    if k > 0 {
      ClaimAllChanges(cfg, db, rows, k - 1);
      var before, db' := ClaimAll(cfg, db, rows, k - 1), ClaimAll(cfg, db, rows, k);
      assert !Named(rows, k - 1, rows[k - 1].pair);
      forall p | 0 <= p < |db.pairs| && !Named(rows, k, p) ensures db'.pairs[p] == db.pairs[p] {
        assert rows[k - 1].pair != p;
        assert !Named(rows, k - 1, p);
      }
    }
  }

  lemma ClaimNext(cfg: Settings, db: Db, c: nat, locked: set<nat>, rows: seq<QueueRow>, k: nat)
    requires Shape(db) && k < |rows| && DistinctRows(db, rows)
    requires Evaluable(db, c, locked, rows[k].pair)
    ensures var before := ClaimAll(cfg, db, rows, k);
      && before.pairs[rows[k].pair] == db.pairs[rows[k].pair] && before.jds == db.jds
      && before.pairs[rows[k].pair].status.Shortlisted?
      && before.pairs[rows[k].pair].jd < |db.jds|
      && before.jds[before.pairs[rows[k].pair].jd].status == JdShortlisted
  {
    ClaimAllChanges(cfg, db, rows, k);
    assert !Named(rows, k, rows[k].pair);
  }

  ghost predicate EvaluationReady(cfg: Settings, db: Db, c: nat, locked: set<nat>, rows: seq<QueueRow>) {
    && Shape(db)
    && DistinctRows(db, rows) && (forall i :: 0 <= i < |rows| ==> Evaluable(db, c, locked, rows[i].pair))
    && Count(db.pairs, EvaluatingAnywhere()) + |rows| <= cfg.stage3GlobalInflight
  }

  ghost predicate EvaluationProgress(cfg: Settings, start: Db, db: Db, k: nat) {
    && DbOk(cfg, db) && Evolves(start, db)
    && Count(db.pairs, EvaluatingAnywhere()) == Count(start.pairs, EvaluatingAnywhere()) + k
  }

  lemma ClaimOneMore(cfg: Settings, db: Db, c: nat, locked: set<nat>, rows: seq<QueueRow>, j: nat, k: nat)
    requires EvaluationReady(cfg, db, c, locked, rows) && j < |rows| && k == j + 1
    requires EvaluationProgress(cfg, db, ClaimAll(cfg, db, rows, j), j)
    ensures EvaluationProgress(cfg, db, ClaimAll(cfg, db, rows, k), k)
  {
    var before, p := ClaimAll(cfg, db, rows, j), rows[j].pair;
    ClaimNext(cfg, db, c, locked, rows, j);
    ReserveEvaluatingOk(cfg, before, p);
    ReserveEvaluatingCounts(cfg, before, p);
    EvolvesTransitive(db, before, ReserveEvaluating(cfg, before, p));
    assert ClaimAll(cfg, db, rows, k) == ReserveEvaluating(cfg, before, p);
  }

  lemma {:induction false} ClaimAllOk(cfg: Settings, db: Db, c: nat, locked: set<nat>, rows: seq<QueueRow>, k: nat)
    requires EvaluationProgress(cfg, db, db, 0) && EvaluationReady(cfg, db, c, locked, rows) && k <= |rows|
    ensures EvaluationProgress(cfg, db, ClaimAll(cfg, db, rows, k), k)
    decreases k
  {
    if k > 0 {
      var j: nat := k - 1;
      ClaimAllOk(cfg, db, c, locked, rows, j);
      ClaimOneMore(cfg, db, c, locked, rows, j, k);
    }
  }

  lemma DispatchStage3Ok(cfg: Settings, db: Db, c: nat, locked: set<nat>)
    requires ValidSettings(cfg) && DbOk(cfg, db) && c < |db.campaigns|
    ensures DbOk(cfg, DispatchStage3(cfg, db, c, locked)) && Evolves(db, DispatchStage3(cfg, db, c, locked))
  {
    if db.campaigns[c] == CampaignRunning {
      ExpiredEvaluatingOk(cfg, db, c);
      var expired := ExpiredEvaluating(cfg, db, c);
      var rows := EvaluationRows(cfg, expired, c, locked);
      EvaluationRowsSound(cfg, expired, c, locked);
      EvolvesReflexive(expired);
      ClaimAllOk(cfg, expired, c, locked, rows, |rows|);
      EvolvesTransitive(db, expired, DispatchStage3(cfg, db, c, locked));
    } else {
      EvolvesReflexive(db);
    }
  }

  // ----- the barrier

  ghost predicate Ranks(rows: seq<Candidate>, k: nat, p: nat)
    requires k <= |rows|
  {
    exists i :: 0 <= i < k && rows[i].pair == p
  }

  ghost predicate DistinctPool(pairs: seq<PairRow>, rows: seq<Candidate>) {
    && RowsInRange(pairs, rows)
    && (forall a, b :: 0 <= a < b < |rows| ==> rows[a].pair != rows[b].pair)
  }

  /** What the ranking loop has done after `k` rows: row i holds rank i + 1 and its verdict. */
  lemma {:induction false} RankRowsChanges(pairs: seq<PairRow>, rows: seq<Candidate>, verdicts: seq<Verdict>, k: nat)
    requires k <= |rows| == |verdicts| && DistinctPool(pairs, rows)
    ensures forall i :: 0 <= i < k ==>
      RankRows(pairs, rows, verdicts, k)[rows[i].pair] == DecideAt(pairs, rows, verdicts, i)
    ensures forall p :: 0 <= p < |pairs| && !Ranks(rows, k, p) ==>
      RankRows(pairs, rows, verdicts, k)[p] == pairs[p]
  {
    if k > 0 {
      var j: nat := k - 1;
      RankRowsChanges(pairs, rows, verdicts, j);
      assert !Ranks(rows, j, rows[j].pair);
      var before, out := RankRows(pairs, rows, verdicts, j), RankRows(pairs, rows, verdicts, k);
      assert out == before[rows[j].pair := DecideAt(pairs, rows, verdicts, j)];
      forall i | 0 <= i < k ensures out[rows[i].pair] == DecideAt(pairs, rows, verdicts, i) {
        if i < j {
          assert rows[i].pair != rows[j].pair;
        }
      }
      forall p | 0 <= p < |pairs| && !Ranks(rows, k, p) ensures out[p] == pairs[p] {
        assert rows[j].pair != p && !Ranks(rows, j, p);
      }
    }
  }

  lemma DecideSelects(r: PairRow, rank: nat, verdict: Verdict, e: Evidence, j: nat)
    requires r.jd == j && !Selected(r)
    ensures SelectedOf(j)(Decide(r, rank, verdict, e)) <==> verdict == Shortlist
  {
  }

  ghost predicate Unselected(pairs: seq<PairRow>, rows: seq<Candidate>, j: nat) {
    && DistinctPool(pairs, rows)
    && (forall i :: 0 <= i < |rows| ==> pairs[rows[i].pair].jd == j && !Selected(pairs[rows[i].pair]))
  }

  lemma RankOneMore(pairs: seq<PairRow>, rows: seq<Candidate>, verdicts: seq<Verdict>, j: nat, i: nat)
    requires Unselected(pairs, rows, j) && i < |rows| == |verdicts|
    ensures Count(RankRows(pairs, rows, verdicts, i + 1), SelectedOf(j))
         == Count(RankRows(pairs, rows, verdicts, i), SelectedOf(j)) + (if verdicts[i] == Shortlist then 1 else 0)
  {
    var p, before := rows[i].pair, RankRows(pairs, rows, verdicts, i);
    RankRowsChanges(pairs, rows, verdicts, i);
    assert !Ranks(rows, i, p);
    assert !SelectedOf(j)(before[p]);
    DecideSelects(before[p], i + 1, verdicts[i], rows[i].evidence, j);
    CountUpdate(before, p, DecideAt(before, rows, verdicts, i), SelectedOf(j));
  }

  /** The barrier's counter counts the rows of the JD that are selected. */
  lemma {:induction false} RankRowsSelect(pairs: seq<PairRow>, rows: seq<Candidate>, cap: int, j: nat, k: nat)
    requires Unselected(pairs, rows, j) && k <= |rows|
    ensures Count(RankRows(pairs, rows, Verdicts(rows, cap), k), SelectedOf(j))
         == Count(pairs, SelectedOf(j)) + SelectedAfter(rows, cap, k)
  {
    if k > 0 {
      var i: nat := k - 1;
      RankRowsSelect(pairs, rows, cap, j, i);
      RankOneMore(pairs, rows, Verdicts(rows, cap), j, i);
    }
  }

  ghost predicate Finalizes(db: Db, j: nat)
    requires j < |db.jds|
  {
    JdOpen(db.jds[j].status) && !Unresolved(db, j) && !Unscored(db, j)
  }

  /** Every row of a JD that finalizes is either out already or in the ranked pool. */
  lemma BarrierRow(cfg: Settings, db: Db, j: nat, p: nat)
    requires OwnersOk(db) && RowsOk(cfg, db) && j < |db.jds| && Finalizes(db, j) && p < |db.pairs| && j == db.pairs[p].jd
    ensures NeverRanked(db.pairs[p].status) || db.pairs[p].status.Stage2Ready?
    ensures var rows := Ranked(Pool(db, j, |db.pairs|));
      db.pairs[p].status.Stage2Ready? <==> Ranks(rows, |rows|, p)
  {
    assert RowOk(cfg, db, db.pairs[p]);
    RankedPool(db, j);
  }

  lemma DecideRowOk(cfg: Settings, db: Db, db': Db, j: nat, r: PairRow, rank: nat, verdict: Verdict, e: Evidence)
    requires RowOk(cfg, db, r) && j < |db.jds| && r.jd == j && r.status.Stage2Ready? && JdOpen(db.jds[j].status)
    requires db'.campaigns == db.campaigns && db'.cvs == db.cvs && db'.nextToken == db.nextToken
    requires db'.jds == db.jds[j := db.jds[j].(status := JdShortlisted)]
    requires db.campaigns[r.campaign] == CampaignRunning
    ensures var r' := Decide(r, rank, verdict, e);
      RowOk(cfg, db', r') && RowEvolves(r, r', false) && r'.lease == r.lease && !Leased(r'.status)
  {
  }

  ghost function BarrierRows(db: Db, j: nat): seq<Candidate>
    requires Shape(db)
  {
    Ranked(Pool(db, j, |db.pairs|))
  }

  ghost predicate FinalizedRow(cfg: Settings, db: Db, j: nat, r: PairRow, r': PairRow)
    requires Shape(db) && j < |db.jds|
  {
    && RowOk(cfg, FinalizeJd(db, j), r') && RowEvolves(r, r', BarrierDone(db, r))
    && r'.lease == r.lease && (Leased(r'.status) ==> r'.status == r.status)
    && (r.jd != j ==> r' == r)
  }

  /** A row the barrier does not rank: already out, or of another JD. */
  lemma FinalizeUnranked(cfg: Settings, db: Db, j: nat, r: PairRow)
    requires OwnersOk(db) && RowOk(cfg, db, r) && j < |db.jds| && Finalizes(db, j)
    requires r.jd != j || NeverRanked(r.status)
    ensures FinalizedRow(cfg, db, j, r, r)
  {
  }

  /** What the committing barrier writes: the ranked rows and the JD's status. */
  lemma FinalizeWrites(db: Db, j: nat)
    requires Shape(db) && j < |db.jds| && Finalizes(db, j)
    ensures DistinctPool(db.pairs, BarrierRows(db, j))
    ensures var rows, db' := BarrierRows(db, j), FinalizeJd(db, j);
      && db'.campaigns == db.campaigns && db'.cvs == db.cvs && db'.nextToken == db.nextToken
      && db'.jds == db.jds[j := db.jds[j].(status := JdShortlisted)]
      && db'.pairs == RankRows(db.pairs, rows, Verdicts(rows, BarrierCap(db.jds[j].cap)), |rows|)
  {
    RankedPool(db, j);
  }

  lemma FinalizeRanked(cfg: Settings, db: Db, j: nat, p: nat, i: nat)
    requires OwnersOk(db) && RowsOk(cfg, db) && j < |db.jds| && Finalizes(db, j) && p < |db.pairs|
    requires db.campaigns[db.jds[j].campaign] == CampaignRunning
    requires i < |BarrierRows(db, j)| && BarrierRows(db, j)[i].pair == p
    requires db.pairs[p].jd == j && db.pairs[p].status.Stage2Ready?
    ensures |FinalizeJd(db, j).pairs| == |db.pairs|
    ensures FinalizedRow(cfg, db, j, db.pairs[p], FinalizeJd(db, j).pairs[p])
  {
    var rows := BarrierRows(db, j);
    var verdicts := Verdicts(rows, BarrierCap(db.jds[j].cap));
    FinalizeWrites(db, j);
    RankRowsChanges(db.pairs, rows, verdicts, |rows|);
    DecideRowOk(cfg, db, FinalizeJd(db, j), j, db.pairs[p], i + 1, verdicts[i], rows[i].evidence);
  }

  lemma FinalizeRow(cfg: Settings, db: Db, j: nat, p: nat)
    requires OwnersOk(db) && RowsOk(cfg, db) && j < |db.jds| && Finalizes(db, j) && p < |db.pairs|
    requires db.campaigns[db.jds[j].campaign] == CampaignRunning
    ensures |FinalizeJd(db, j).pairs| == |db.pairs|
    ensures FinalizedRow(cfg, db, j, db.pairs[p], FinalizeJd(db, j).pairs[p])
  {
    var rows, r := BarrierRows(db, j), db.pairs[p];
    RankedPool(db, j);
    if r.jd == j {
      BarrierRow(cfg, db, j, p);
    }
    if Ranks(rows, |rows|, p) {
      var i: nat :| i < |rows| && rows[i].pair == p;
      FinalizeRanked(cfg, db, j, p, i);
    } else {
      FinalizeWrites(db, j);
      RankRowsChanges(db.pairs, rows, Verdicts(rows, BarrierCap(db.jds[j].cap)), |rows|);
      FinalizeUnranked(cfg, db, j, r);
    }
  }

  function PairOf(): Candidate -> nat {
    (x: Candidate) => x.pair
  }

  lemma RankedInOrder(pairs: seq<PairRow>, rows: seq<Candidate>, verdicts: seq<Verdict>, j: nat, k: nat)
    requires |rows| == |verdicts| && DistinctPool(pairs, rows) && k < |rows|
    requires pairs[rows[k].pair].jd == j
    ensures var r := RankRows(pairs, rows, verdicts, |rows|)[rows[k].pair]; r.jd == j && r.rank == Some(k + 1)
  {
    RankRowsChanges(pairs, rows, verdicts, |rows|);
    assert RankRows(pairs, rows, verdicts, |rows|)[rows[k].pair] == DecideAt(pairs, rows, verdicts, k);
  }

  /** The ranked pairs in rank order: ranks 1..n, no other pair of the JD ranked. */
  lemma RankRowsOrder(pairs: seq<PairRow>, rows: seq<Candidate>, verdicts: seq<Verdict>, j: nat)
    requires |rows| == |verdicts| && DistinctPool(pairs, rows)
    requires forall i :: 0 <= i < |rows| ==> pairs[rows[i].pair].jd == j
    requires forall p :: 0 <= p < |pairs| && pairs[p].jd == j ==> pairs[p].rank.None?
    ensures RankOrder(RankRows(pairs, rows, verdicts, |rows|), j, Map(rows, PairOf()))
  {
    var out, order := RankRows(pairs, rows, verdicts, |rows|), Map(rows, PairOf());
    forall k | 0 <= k < |rows| ensures out[order[k]].jd == j && out[order[k]].rank == Some(k + 1) {
      RankedInOrder(pairs, rows, verdicts, j, k);
    }
    RankRowsChanges(pairs, rows, verdicts, |rows|);
    forall p | 0 <= p < |out| && out[p].jd == j && out[p].rank.Some? ensures p in order {
      assert Ranks(rows, |rows|, p) by {
        assert pairs[p].rank.Some? ==> pairs[p].jd != j;
      }
      var i :| 0 <= i < |rows| && rows[i].pair == p;
      assert order[i] == p;
    }
  }

  lemma FinalizedRanks(cfg: Settings, db: Db, j: nat)
    requires OwnersOk(db) && RowsOk(cfg, db) && j < |db.jds| && Finalizes(db, j)
    ensures exists order :: RankOrder(FinalizeJd(db, j).pairs, j, order)
  {
    var rows := BarrierRows(db, j);
    RankedPool(db, j);
    forall p | 0 <= p < |db.pairs| && db.pairs[p].jd == j ensures db.pairs[p].rank.None? {
      assert RowOk(cfg, db, db.pairs[p]);
    }
    RankRowsOrder(db.pairs, rows, Verdicts(rows, BarrierCap(db.jds[j].cap)), j);
    assert RankOrder(FinalizeJd(db, j).pairs, j, Map(rows, PairOf()));
  }

  lemma FinalizedSelection(cfg: Settings, db: Db, j: nat)
    requires OwnersOk(db) && RowsOk(cfg, db) && j < |db.jds| && Finalizes(db, j)
    ensures var rows, cap := BarrierRows(db, j), BarrierCap(db.jds[j].cap);
      && Count(FinalizeJd(db, j).pairs, SelectedOf(j)) == |ShortlistedAmong(rows, cap, |rows|)|
      && |ShortlistedAmong(rows, cap, |rows|)| <= cap
  {
    var rows, cap := BarrierRows(db, j), BarrierCap(db.jds[j].cap);
    RankedPool(db, j);
    forall p | 0 <= p < |db.pairs| && db.pairs[p].jd == j ensures !Selected(db.pairs[p]) {
      assert RowOk(cfg, db, db.pairs[p]);
    }
    CountPositive(db.pairs, SelectedOf(j));
    RankRowsSelect(db.pairs, rows, cap, j, |rows|);
    SelectedCounts(rows, cap, |rows|);
  }

  ghost predicate OnlyJdChanges(pairs: seq<PairRow>, pairs': seq<PairRow>, j: nat) {
    && |pairs| == |pairs'|
    && (forall p :: 0 <= p < |pairs| ==>
          pairs'[p].jd == pairs[p].jd && (pairs[p].jd != j ==> pairs'[p] == pairs[p]))
  }

  lemma FinalizeRows(cfg: Settings, db: Db, j: nat)
    requires OwnersOk(db) && RowsOk(cfg, db) && j < |db.jds| && Finalizes(db, j)
    requires db.campaigns[db.jds[j].campaign] == CampaignRunning
    ensures var db' := FinalizeJd(db, j);
      && RowsOk(cfg, db') && PairsEvolve(db, db'.pairs) && NoNewLease(db.pairs, db'.pairs)
      && OnlyJdChanges(db.pairs, db'.pairs, j) && SameKeys(db, db')
      && (forall t: nat :: !Live(db.pairs, t) ==> !Live(db'.pairs, t))
  {
    var db' := FinalizeJd(db, j);
    forall p | 0 <= p < |db.pairs|
      ensures RowOk(cfg, db', db'.pairs[p]) && RowEvolves(db.pairs[p], db'.pairs[p], BarrierDone(db, db.pairs[p]))
      ensures db.pairs[p].jd < |db.jds|
      ensures db'.pairs[p].lease == db.pairs[p].lease
      ensures Leased(db'.pairs[p].status) ==> db'.pairs[p].status == db.pairs[p].status
      ensures db.pairs[p].jd != j ==> db'.pairs[p] == db.pairs[p]
    {
      assert RowShape(db, db.pairs[p]);
      FinalizeRow(cfg, db, j, p);
      assert FinalizedRow(cfg, db, j, db.pairs[p], db'.pairs[p]);
    }
  }

  /** The other JDs do not notice. */
  lemma OtherBarrier(db: Db, db': Db, j: nat, i: nat)
    requires i < |db.jds| && |db'.jds| == |db.jds| && db'.jds[i] == db.jds[i] && i != j && BarrierOk(db, i)
    requires OnlyJdChanges(db.pairs, db'.pairs, j)
    ensures BarrierOk(db', i)
  {
    if !JdOpen(db.jds[i].status) {
      CountMonotone(db'.pairs, db.pairs, SelectedOf(i), SelectedOf(i));
      var order :| RankOrder(db.pairs, i, order);
      assert RankOrder(db'.pairs, i, order);
    }
  }

  lemma FinalizedBarriers(cfg: Settings, db: Db, j: nat, i: nat)
    requires OwnersOk(db) && RowsOk(cfg, db) && j < |db.jds| && Finalizes(db, j)
    requires i < |db.jds| && BarrierOk(db, i)
    requires OnlyJdChanges(db.pairs, FinalizeJd(db, j).pairs, j)
    ensures BarrierOk(FinalizeJd(db, j), i)
  {
    if i == j {
      FinalizedSelection(cfg, db, j);
      FinalizedRanks(cfg, db, j);
    } else {
      OtherBarrier(db, FinalizeJd(db, j), j, i);
    }
  }

  /** The barrier fires: one JD's whole pool is ranked and decided in one transaction. */
  lemma BarrierFires(cfg: Settings, db: Db, j: nat)
    requires DbOk(cfg, db) && j < |db.jds| && Finalizes(db, j)
    requires db.campaigns[db.jds[j].campaign] == CampaignRunning
    ensures DbOk(cfg, FinalizeJd(db, j)) && Evolves(db, FinalizeJd(db, j))
  {
    var db' := FinalizeJd(db, j);
    FinalizeRows(cfg, db, j);
    BarrierFiresTables(cfg, db, j);
    NoNewLeaseDistinct(db.pairs, db'.pairs);
    NoNewLeaseLimits(cfg, db.pairs, db'.pairs);
    KeysOnePairEach(db, db');
    forall i | 0 <= i < |db'.jds| ensures BarrierOk(db', i) {
      FinalizedBarriers(cfg, db, j, i);
    }
  }

  lemma BarrierFiresTables(cfg: Settings, db: Db, j: nat)
    requires DbOk(cfg, db) && j < |db.jds| && Finalizes(db, j)
    requires db.campaigns[db.jds[j].campaign] == CampaignRunning
    requires RowsOk(cfg, FinalizeJd(db, j))
    ensures OwnersOk(FinalizeJd(db, j))
  {
    var db' := FinalizeJd(db, j);
    forall p | 0 <= p < |db'.pairs| ensures RowShape(db', db'.pairs[p]) {
      assert RowOk(cfg, db', db'.pairs[p]);
    }
    forall i | 0 <= i < |db'.jds| ensures JdOk(db', db'.jds[i]) {
      assert JdOk(db, db.jds[i]);
    }
  }

  /** A JD status changes, its pairs do not. */
  lemma JdUpdate(cfg: Settings, db: Db, db': Db)
    requires DbOk(cfg, db) && SameOwners(db, db') && OwnersOk(db')
    requires db'.pairs == db.pairs && db'.cvs == db.cvs && db'.clock == db.clock && db'.nextToken == db.nextToken
    requires forall j :: 0 <= j < |db.jds| ==> JdPhase(db.jds[j].status) <= JdPhase(db'.jds[j].status)
    requires forall c :: 0 <= c < |db.campaigns| ==> CampaignPhase(db.campaigns[c]) <= CampaignPhase(db'.campaigns[c])
    requires RowsOk(cfg, db')
    ensures DbOk(cfg, db') && Evolves(db, db')
  {
    Quiet(cfg, db, db');
    JdsEvolve(db, db');
  }

  lemma JdsEvolve(db: Db, db': Db)
    requires Shape(db) && SameOwners(db, db')
    requires db'.pairs == db.pairs && db'.cvs == db.cvs && db'.clock == db.clock && db'.nextToken == db.nextToken
    requires forall j :: 0 <= j < |db.jds| ==> JdPhase(db.jds[j].status) <= JdPhase(db'.jds[j].status)
    requires forall c :: 0 <= c < |db.campaigns| ==> CampaignPhase(db.campaigns[c]) <= CampaignPhase(db'.campaigns[c])
    ensures Evolves(db, db')
  {
  }

  lemma BarrierWaits(cfg: Settings, db: Db, j: nat, db': Db)
    requires DbOk(cfg, db) && j < |db.jds| && db.jds[j].status == JdPending
    requires db' == db.(jds := db.jds[j := db.jds[j].(status := JdProcessing)])
    requires db.campaigns[db.jds[j].campaign] != Intake
    ensures DbOk(cfg, db') && Evolves(db, db')
  {
    WaitingRows(cfg, db, j, db');
    forall i | 0 <= i < |db'.jds| ensures JdOk(db', db'.jds[i]) {
      assert JdOk(db, db.jds[i]);
    }
    JdUpdate(cfg, db, db');
  }

  lemma WaitingRows(cfg: Settings, db: Db, j: nat, db': Db)
    requires RowsOk(cfg, db) && j < |db.jds| && db.jds[j].status == JdPending
    requires db' == db.(jds := db.jds[j := db.jds[j].(status := JdProcessing)])
    ensures RowsOk(cfg, db')
  {
    forall p | 0 <= p < |db'.pairs| ensures RowOk(cfg, db', db'.pairs[p]) {
      assert RowOk(cfg, db, db.pairs[p]);
    }
  }

  lemma FinalizeJdOk(cfg: Settings, db: Db, j: nat)
    requires DbOk(cfg, db) && j < |db.jds| && db.campaigns[db.jds[j].campaign] != Intake
    ensures DbOk(cfg, FinalizeJd(db, j)) && Evolves(db, FinalizeJd(db, j))
  {
    assert JdOk(db, db.jds[j]);
    if Finalizes(db, j) {
      BarrierFires(cfg, db, j);
    } else if JdOpen(db.jds[j].status) && Unresolved(db, j) && db.jds[j].status == JdPending {
      BarrierWaits(cfg, db, j, db.(jds := db.jds[j := db.jds[j].(status := JdProcessing)]));
    } else {
      EvolvesReflexive(db);
    }
  }

  // ----- completion

  lemma CompletedRows(cfg: Settings, db: Db, c: nat)
    requires DbOk(cfg, db) && c < |db.campaigns| && db.campaigns[c] == CampaignRunning
    ensures RowsOk(cfg, FinalizeCampaign(db, c))
  {
    var db' := FinalizeCampaign(db, c);
    forall p | 0 <= p < |db'.pairs| ensures RowOk(cfg, db', db'.pairs[p]) {
      var r := db.pairs[p];
      assert RowOk(cfg, db, r);
      var jd := CompletedJds(db, c)[r.jd];
      if jd.status == JdCompleted && db.jds[r.jd].status != JdCompleted {
        assert AllTerminal(db, r.jd);
      }
    }
  }

  lemma CompletedOwners(cfg: Settings, db: Db, c: nat)
    requires OwnersOk(db) && c < |db.campaigns| && db.campaigns[c] == CampaignRunning
    requires RowsOk(cfg, FinalizeCampaign(db, c))
    ensures OwnersOk(FinalizeCampaign(db, c)) && SameOwners(db, FinalizeCampaign(db, c))
  {
    var db' := FinalizeCampaign(db, c);
    forall p | 0 <= p < |db'.pairs| ensures RowShape(db', db'.pairs[p]) {
      assert RowOk(cfg, db', db'.pairs[p]);
    }
    forall i | 0 <= i < |db'.jds| ensures JdOk(db', db'.jds[i]) {
      assert JdOk(db, db.jds[i]);
    }
  }

  lemma CompletedPhases(db: Db, c: nat)
    requires c < |db.campaigns| && db.campaigns[c] == CampaignRunning
    ensures var db' := FinalizeCampaign(db, c);
      && |db'.jds| == |db.jds| && |db'.campaigns| == |db.campaigns|
      && db'.pairs == db.pairs && db'.cvs == db.cvs && db'.clock == db.clock && db'.nextToken == db.nextToken
      && (forall j :: 0 <= j < |db.jds| ==> JdPhase(db.jds[j].status) <= JdPhase(db'.jds[j].status))
      && (forall d :: 0 <= d < |db.campaigns| ==> CampaignPhase(db.campaigns[d]) <= CampaignPhase(db'.campaigns[d]))
  {
  }

  lemma FinalizeCampaignOk(cfg: Settings, db: Db, c: nat)
    requires DbOk(cfg, db) && c < |db.campaigns|
    ensures DbOk(cfg, FinalizeCampaign(db, c)) && Evolves(db, FinalizeCampaign(db, c))
  {
    if db.campaigns[c] == CampaignRunning {
      var db' := FinalizeCampaign(db, c);
      CompletedRows(cfg, db, c);
      CompletedOwners(cfg, db, c);
      CompletedPhases(db, c);
      JdUpdate(cfg, db, db');
    } else {
      EvolvesReflexive(db);
    }
  }

  lemma LaunchOk(cfg: Settings, db: Db, c: nat)
    requires DbOk(cfg, db) && c < |db.campaigns|
    ensures DbOk(cfg, Launch(db, c)) && Evolves(db, Launch(db, c))
  {
    if db.campaigns[c] == Intake {
      var db' := Launch(db, c);
      forall p | 0 <= p < |db'.pairs| ensures RowOk(cfg, db', db'.pairs[p]) {
        assert RowOk(cfg, db, db.pairs[p]);
      }
      forall i | 0 <= i < |db'.jds| ensures JdOk(db', db'.jds[i]) {
        assert JdOk(db, db.jds[i]);
      }
      JdUpdate(cfg, db, db');
    } else {
      EvolvesReflexive(db);
    }
  }

  lemma TickOk(cfg: Settings, db: Db, seconds: nat)
    requires DbOk(cfg, db)
    ensures DbOk(cfg, TimePasses(db, seconds)) && Evolves(db, TimePasses(db, seconds))
  {
    var db' := TimePasses(db, seconds);
    forall p | 0 <= p < |db'.pairs| ensures RowOk(cfg, db', db'.pairs[p]) {
      assert RowOk(cfg, db, db.pairs[p]);
    }
    OwnersUnchanged(cfg, db, db');
    Quiet(cfg, db, db');
  }

  // ----- intake

  ghost predicate NewPair(db: Db, c: nat, cv: nat, r: PairRow) {
    && r.campaign == c && r.cv == cv && r.jd < |db.jds| && db.jds[r.jd].campaign == c
    && r == PairRow(c, r.jd, cv, Pending, 0, 0, None, None, None, None, None, None)
  }

  ghost predicate NewPairsUpTo(db: Db, c: nat, cv: nat, j: nat, rows: seq<PairRow>)
    requires j <= |db.jds|
  {
    && |rows| == Count(db.jds[..j], JdsOf(c))
    && (forall i :: 0 <= i < |rows| ==> NewPair(db, c, cv, rows[i]) && rows[i].jd < j)
    && (forall i, k :: 0 <= i < k < |rows| ==> rows[i].jd < rows[k].jd)
    && (forall d: nat :: d < j && db.jds[d].campaign == c ==> HasPair(rows, d, cv))
  }

  /** One PENDING row for each JD of the campaign, and for no other. */
  lemma {:induction false} NewPairsCover(db: Db, c: nat, cv: nat, j: nat)
    requires j <= |db.jds|
    ensures NewPairsUpTo(db, c, cv, j, NewPairs(db, c, cv, j))
  {
    if j > 0 {
      var i: nat := j - 1;
      NewPairsCover(db, c, cv, i);
      assert db.jds[..j][..i] == db.jds[..i];
      var before, rows := NewPairs(db, c, cv, i), NewPairs(db, c, cv, j);
      forall d: nat | d < j && db.jds[d].campaign == c ensures HasPair(rows, d, cv) {
        if d == i {
          assert rows[|rows| - 1].jd == d;
        } else {
          assert HasPair(before, d, cv);
          var k :| 0 <= k < |before| && before[k].jd == d && before[k].cv == cv;
          assert rows[k].jd == d;
        }
      }
    }
  }

  /** Rows appended that satisfy nothing that is counted change no count. */
  lemma CountAppendNone(xs: seq<PairRow>, ys: seq<PairRow>, p: PairRow -> bool)
    requires forall i :: 0 <= i < |ys| ==> !p(ys[i])
    ensures Count(xs + ys, p) == Count(xs, p)
  {
    CountAppend(xs, ys, p);
    CountPositive(ys, p);
  }

  ghost predicate Reserves(db: Db, c: nat, candidate: int) {
    c < |db.campaigns| && db.campaigns[c] == Intake && !KnownCandidate(db, c, candidate)
  }

  lemma ReserveCvRows(cfg: Settings, db: Db, c: nat, candidate: int, hasPdf: bool)
    requires ValidSettings(cfg) && OwnersOk(db) && RowsOk(cfg, db) && Reserves(db, c, candidate)
    ensures RowsOk(cfg, ReserveCv(db, c, candidate, hasPdf))
  {
    var db' := ReserveCv(db, c, candidate, hasPdf);
    NewPairsCover(db, c, |db.cvs|, |db.jds|);
    var rows := NewPairs(db, c, |db.cvs|, |db.jds|);
    forall p | 0 <= p < |db'.pairs| ensures RowOk(cfg, db', db'.pairs[p]) {
      if p < |db.pairs| {
        assert RowOk(cfg, db, db.pairs[p]);
      } else {
        assert NewPair(db, c, |db.cvs|, rows[p - |db.pairs|]);
        assert JdOk(db, db.jds[db'.pairs[p].jd]);
      }
    }
  }

  lemma ReserveCvOwners(cfg: Settings, db: Db, c: nat, candidate: int, hasPdf: bool)
    requires OwnersOk(db) && Reserves(db, c, candidate)
    requires RowsOk(cfg, ReserveCv(db, c, candidate, hasPdf))
    ensures OwnersOk(ReserveCv(db, c, candidate, hasPdf))
  {
    var db' := ReserveCv(db, c, candidate, hasPdf);
    forall p | 0 <= p < |db'.pairs| ensures RowShape(db', db'.pairs[p]) {
      assert RowOk(cfg, db', db'.pairs[p]);
    }
    forall j | 0 <= j < |db'.jds| ensures JdOk(db', db'.jds[j]) {
      assert JdOk(db, db.jds[j]);
    }
  }

  lemma ReserveCvUnique(db: Db, c: nat, candidate: int, hasPdf: bool)
    requires Shape(db) && OnePairEach(db) && Reserves(db, c, candidate)
    ensures var pairs' := ReserveCv(db, c, candidate, hasPdf).pairs;
      forall p, q :: 0 <= p < q < |pairs'| ==> pairs'[p].jd != pairs'[q].jd || pairs'[p].cv != pairs'[q].cv
  {
    var pairs' := ReserveCv(db, c, candidate, hasPdf).pairs;
    var rows := NewPairs(db, c, |db.cvs|, |db.jds|);
    NewPairsCover(db, c, |db.cvs|, |db.jds|);
    forall p, q | 0 <= p < q < |pairs'|
      ensures pairs'[p].jd != pairs'[q].jd || pairs'[p].cv != pairs'[q].cv
    {
      if p >= |db.pairs| {
        assert rows[p - |db.pairs|].jd < rows[q - |db.pairs|].jd;
      } else if q >= |db.pairs| {
        assert NewPair(db, c, |db.cvs|, rows[q - |db.pairs|]) && RowShape(db, db.pairs[p]);
      }
    }
  }

  lemma ReserveCvCovers(db: Db, c: nat, candidate: int, hasPdf: bool, j: nat, v: nat)
    requires Shape(db) && Reserves(db, c, candidate)
    requires var db' := ReserveCv(db, c, candidate, hasPdf);
      j < |db'.jds| && v < |db'.cvs| && db'.jds[j].campaign == db'.cvs[v].campaign
    requires v < |db.cvs| ==> HasPair(db.pairs, j, v)
    ensures HasPair(ReserveCv(db, c, candidate, hasPdf).pairs, j, v)
  {
    var pairs' := ReserveCv(db, c, candidate, hasPdf).pairs;
    if v < |db.cvs| {
      var p :| 0 <= p < |db.pairs| && db.pairs[p].jd == j && db.pairs[p].cv == v;
      assert pairs'[p].jd == j;
    } else {
      var rows := NewPairs(db, c, |db.cvs|, |db.jds|);
      NewPairsCover(db, c, |db.cvs|, |db.jds|);
      var i :| 0 <= i < |rows| && rows[i].jd == j && rows[i].cv == v;
      assert pairs'[|db.pairs| + i].jd == j;
    }
  }

  lemma NewPairsCount(db: Db, c: nat, cv: nat, d: nat)
    ensures Count(NewPairs(db, c, cv, |db.jds|), OfCampaign(d)) == if d == c then Count(db.jds, JdsOf(c)) else 0
  {
    var rows := NewPairs(db, c, cv, |db.jds|);
    NewPairsCover(db, c, cv, |db.jds|);
    assert db.jds[..|db.jds|] == db.jds;
    forall i | 0 <= i < |rows| ensures rows[i].campaign == c {
      assert NewPair(db, c, cv, rows[i]);
    }
    CountWhole(rows, OfCampaign(d));
    CountPositive(rows, OfCampaign(d));
  }

  lemma AddColumn(jds: nat, cvs: nat)
    ensures jds * cvs + jds == jds * (cvs + 1)
  {
  }

  lemma ReserveCvCounts(db: Db, c: nat, candidate: int, hasPdf: bool, d: nat)
    requires Count(db.pairs, OfCampaign(d)) == Count(db.jds, JdsOf(d)) * Count(db.cvs, CvsOf(d))
    requires Reserves(db, c, candidate)
    ensures var db' := ReserveCv(db, c, candidate, hasPdf);
      Count(db'.pairs, OfCampaign(d)) == Count(db'.jds, JdsOf(d)) * Count(db'.cvs, CvsOf(d))
  {
    NewPairsCount(db, c, |db.cvs|, d);
    CountAppend(db.pairs, NewPairs(db, c, |db.cvs|, |db.jds|), OfCampaign(d));
    var row := CvRow(c, candidate, Stage0Pending, hasPdf, None, None, db.clock);
    CountAppend(db.cvs, [row], CvsOf(d));
    assert Count([row], CvsOf(d)) == (if d == c then 1 else 0) by {
      assert [row][..0] == [];
    }
    AddColumn(Count(db.jds, JdsOf(d)), Count(db.cvs, CvsOf(d)));
  }

  lemma ReserveCvLimits(cfg: Settings, db: Db, c: nat, candidate: int, hasPdf: bool)
    requires WithinLimits(cfg, db.pairs) && DistinctLeases(db.pairs) && Reserves(db, c, candidate)
    ensures var pairs' := ReserveCv(db, c, candidate, hasPdf).pairs;
      && WithinLimits(cfg, pairs') && DistinctLeases(pairs')
      && (forall t: nat :: !Live(db.pairs, t) ==> !Live(pairs', t))
  {
    var rows := NewPairs(db, c, |db.cvs|, |db.jds|);
    NewPairsCover(db, c, |db.cvs|, |db.jds|);
    forall i | 0 <= i < |rows| ensures rows[i].status == Pending && rows[i].lease.None? {
      assert NewPair(db, c, |db.cvs|, rows[i]);
    }
    forall d: nat ensures Count(db.pairs + rows, RunningIn(d)) <= cfg.retrievalInflight {
      CountAppendNone(db.pairs, rows, RunningIn(d));
    }
    CountAppendNone(db.pairs, rows, RunningAnywhere());
    CountAppendNone(db.pairs, rows, EvaluatingAnywhere());
  }

  lemma ReserveCvBarrier(db: Db, c: nat, candidate: int, hasPdf: bool, j: nat)
    requires j < |db.jds| && BarrierOk(db, j) && Reserves(db, c, candidate)
    ensures BarrierOk(ReserveCv(db, c, candidate, hasPdf), j)
  {
    var rows := NewPairs(db, c, |db.cvs|, |db.jds|);
    NewPairsCover(db, c, |db.cvs|, |db.jds|);
    forall i | 0 <= i < |rows| ensures !Selected(rows[i]) && rows[i].rank.None? {
      assert NewPair(db, c, |db.cvs|, rows[i]);
    }
    CountAppendNone(db.pairs, rows, SelectedOf(j));
    if !JdOpen(db.jds[j].status) {
      var order :| RankOrder(db.pairs, j, order);
      assert RankOrder(db.pairs + rows, j, order);
    }
  }

  /** A new CV gets exactly one pair per JD of its campaign, and disturbs nothing else. */
  lemma ReserveCvOk(cfg: Settings, db: Db, c: nat, candidate: int, hasPdf: bool)
    requires ValidSettings(cfg) && DbOk(cfg, db) && c < |db.campaigns|
    ensures DbOk(cfg, ReserveCv(db, c, candidate, hasPdf)) && Evolves(db, ReserveCv(db, c, candidate, hasPdf))
  {
    if Reserves(db, c, candidate) {
      var db' := ReserveCv(db, c, candidate, hasPdf);
      ReserveCvRows(cfg, db, c, candidate, hasPdf);
      ReserveCvOwners(cfg, db, c, candidate, hasPdf);
      ReserveCvLimits(cfg, db, c, candidate, hasPdf);
      assert OnePairEach(db') by {
        ReserveCvUnique(db, c, candidate, hasPdf);
        forall j, v | 0 <= j < |db'.jds| && 0 <= v < |db'.cvs| && db'.jds[j].campaign == db'.cvs[v].campaign
          ensures HasPair(db'.pairs, j, v)
        {
          ReserveCvCovers(db, c, candidate, hasPdf, j, v);
        }
        forall d: nat
          ensures Count(db'.pairs, OfCampaign(d)) == Count(db'.jds, JdsOf(d)) * Count(db'.cvs, CvsOf(d))
        {
          ReserveCvCounts(db, c, candidate, hasPdf, d);
        }
      }
      forall j | 0 <= j < |db'.jds| ensures BarrierOk(db', j) {
        ReserveCvBarrier(db, c, candidate, hasPdf, j);
      }
      ReserveCvEvolves(cfg, db, c, candidate, hasPdf);
    } else {
      EvolvesReflexive(db);
    }
  }

  lemma ReserveCvEvolves(cfg: Settings, db: Db, c: nat, candidate: int, hasPdf: bool)
    requires RowsOk(cfg, db) && WithinLimits(cfg, db.pairs) && DistinctLeases(db.pairs) && Reserves(db, c, candidate)
    ensures Evolves(db, ReserveCv(db, c, candidate, hasPdf))
  {
    ReserveCvLimits(cfg, db, c, candidate, hasPdf);
    forall p | 0 <= p < |db.pairs| ensures db.pairs[p].jd < |db.jds| {
      assert RowOk(cfg, db, db.pairs[p]);
    }
  }
}

/**
 * The campaign tables and, one function per database transaction, what each coordinator and
 * worker transaction does to them. A transaction is atomic: the program takes row and advisory
 * locks. Time is an integer clock; a lease token is a number never issued before.
 */
module CampaignState {
  import opened Prelude
  import opened Sorting
  import opened Ranking

  /** The deployment settings the protocol reads. */
  datatype Settings = Settings(
    runMaxAttempts: nat,
    retrievalInflight: nat,
    retrievalGlobalInflight: nat,
    dispatchBatch: nat,
    stage3GlobalInflight: nat,
    stage3MaxAttempts: nat,
    runTimeout: nat,
    queueRecovery: nat)

  ghost predicate ValidSettings(cfg: Settings) {
    && 1 <= cfg.runMaxAttempts
    && 1 <= cfg.retrievalInflight <= 100
    && 1 <= cfg.retrievalGlobalInflight <= 1000
    && 1 <= cfg.dispatchBatch <= 1000
    && 1 <= cfg.stage3GlobalInflight <= 100
    && 1 <= cfg.stage3MaxAttempts
    && 30 <= cfg.runTimeout
    && 30 <= cfg.queueRecovery
  }

  datatype CampaignStatus = Intake | CampaignRunning | CampaignCompleted

  datatype JdStatus = JdPending | JdProcessing | JdShortlisted | JdCompleted

  datatype Stage0Status = Stage0Pending | Stage0Running | Stage0Succeeded | Stage0Failed

  datatype PairStatus =
    | Pending | Running | Stage2Ready
    | ExtractionFailed | FilterRejected | ProcessingFailed | CutoffExcluded
    | Shortlisted | Stage3Running
    | Success | ReviewRequired | EvaluationFailed

  datatype JdRow = JdRow(campaign: nat, key: int, cap: int, status: JdStatus)

  datatype CvRow = CvRow(
    campaign: nat,
    candidate: int,
    stage0: Stage0Status,
    hasPdf: bool,
    text: Option<string>,
    error: Option<string>,
    updatedAt: int)

  /** `sourceText` records the CV text the stored evidence was computed from. */
  datatype PairRow = PairRow(
    campaign: nat,
    jd: nat,
    cv: nat,
    status: PairStatus,
    attempts: int,
    stage3Attempts: int,
    lease: Option<nat>,
    until: Option<int>,
    rank: Option<nat>,
    evidence: Option<Evidence>,
    sourceText: Option<string>,
    failure: Option<string>)

  datatype Db = Db(
    campaigns: seq<CampaignStatus>,
    jds: seq<JdRow>,
    cvs: seq<CvRow>,
    pairs: seq<PairRow>,
    clock: int,
    nextToken: nat)

  /** A pair as a dispatch query returns it; `major` and `minor` are its ORDER BY columns. */
  datatype QueueRow = QueueRow(pair: nat, major: int, minor: int)

  // ----- status groups

  predicate Terminal(s: PairStatus) {
    || s.ExtractionFailed? || s.FilterRejected? || s.ProcessingFailed? || s.CutoffExcluded?
    || s.Success? || s.ReviewRequired? || s.EvaluationFailed?
  }

  predicate DoneBeforeCutoff(s: PairStatus) {
    Terminal(s) || s == Shortlisted
  }

  predicate Leased(s: PairStatus) {
    s == Running || s == Stage3Running
  }

  predicate JdOpen(s: JdStatus) {
    s == JdPending || s == JdProcessing
  }

  /** Rows counted by the selected-pair query. */
  predicate Selected(r: PairRow) {
    r.stage3Attempts > 0 || r.status.Shortlisted? || r.status.Stage3Running? || r.status.Success?
  }

  predicate Stage0Done(s: Stage0Status) {
    s == Stage0Succeeded || s == Stage0Failed
  }

  // ----- row filters, named so that counts over them can be compared

  function RunningIn(c: nat): PairRow -> bool {
    (r: PairRow) => r.campaign == c && r.status == Running
  }

  function RunningAnywhere(): PairRow -> bool {
    (r: PairRow) => r.status == Running
  }

  function EvaluatingAnywhere(): PairRow -> bool {
    (r: PairRow) => r.status == Stage3Running
  }

  function SelectedOf(j: nat): PairRow -> bool {
    (r: PairRow) => r.jd == j && Selected(r)
  }

  function OfCampaign(c: nat): PairRow -> bool {
    (r: PairRow) => r.campaign == c
  }

  function JdsOf(c: nat): JdRow -> bool {
    (j: JdRow) => j.campaign == c
  }

  function CvsOf(c: nat): CvRow -> bool {
    (v: CvRow) => v.campaign == c
  }

  // ----- shape: every reference points at a row of the same campaign

  ghost predicate RowShape(db: Db, r: PairRow) {
    && r.campaign < |db.campaigns|
    && r.jd < |db.jds| && db.jds[r.jd].campaign == r.campaign
    && r.cv < |db.cvs| && db.cvs[r.cv].campaign == r.campaign
  }

  ghost predicate Shape(db: Db) {
    && (forall j :: 0 <= j < |db.jds| ==> db.jds[j].campaign < |db.campaigns| && 1 <= db.jds[j].cap)
    && (forall v :: 0 <= v < |db.cvs| ==> db.cvs[v].campaign < |db.campaigns|)
    && (forall p :: 0 <= p < |db.pairs| ==> RowShape(db, db.pairs[p]))
  }

  function LeaseLength(cfg: Settings): nat {
    cfg.runTimeout + 35
  }

  function QueueOrder(): (QueueRow, QueueRow) -> bool {
    (a: QueueRow, b: QueueRow) => QueueBefore(a, b)
  }

  predicate QueueBefore(a: QueueRow, b: QueueRow) {
    a.major < b.major || (a.major == b.major && a.minor <= b.minor)
  }

  function TimePasses(db: Db, seconds: nat): Db {
    db.(clock := db.clock + seconds)
  }

  // ----- intake

  /** Row `j` of the pairs a new CV gets: one per JD of its campaign, in JD order. */
  function NewPairs(db: Db, c: nat, cv: nat, j: nat): seq<PairRow>
    requires j <= |db.jds|
  {
    if j == 0 then []
    else if db.jds[j - 1].campaign == c then
      NewPairs(db, c, cv, j - 1)
      + [PairRow(c, j - 1, cv, Pending, 0, 0, None, None, None, None, None, None)]
    else NewPairs(db, c, cv, j - 1)
  }

  predicate KnownCandidate(db: Db, c: nat, candidate: int) {
    exists v :: 0 <= v < |db.cvs| && db.cvs[v].campaign == c && db.cvs[v].candidate == candidate
  }

  /** Reserve one named candidate and all its JD pairs; a known candidate is reused unchanged. */
  function ReserveCv(db: Db, c: nat, candidate: int, hasPdf: bool): Db
    requires c < |db.campaigns|
  {
    if db.campaigns[c] != Intake || KnownCandidate(db, c, candidate) then db
    else
      db.(cvs := db.cvs + [CvRow(c, candidate, Stage0Pending, hasPdf, None, None, db.clock)],
          pairs := db.pairs + NewPairs(db, c, |db.cvs|, |db.jds|))
  }

  /** Intake closes: the campaign starts to run. */
  function Launch(db: Db, c: nat): Db
    requires c < |db.campaigns|
  {
    if db.campaigns[c] == Intake then db.(campaigns := db.campaigns[c := CampaignRunning]) else db
  }

  // ----- Stage 0

  datatype ClaimResult = AlreadyComplete | AlreadyRunning | PdfMissing | Claimed

  function ClaimOutcome(cfg: Settings, db: Db, v: nat): ClaimResult
    requires v < |db.cvs|
  {
    var cv := db.cvs[v];
    if Stage0Done(cv.stage0) then AlreadyComplete
    else if cv.stage0 == Stage0Running && cv.updatedAt > db.clock - LeaseLength(cfg) then AlreadyRunning
    else if !cv.hasPdf then PdfMissing
    else Claimed
  }

  /** The rows of CV `v` that `hit` selects become EXTRACTION_FAILED. */
  function FailPairs(pairs: seq<PairRow>, v: nat, code: string, hit: PairStatus -> bool): (out: seq<PairRow>)
    ensures |out| == |pairs|
    ensures forall p :: 0 <= p < |pairs| ==> out[p] == FailPair(pairs[p], v, code, hit)
  {
    seq(|pairs|, p requires 0 <= p < |pairs| => FailPair(pairs[p], v, code, hit))
  }

  function FailPair(r: PairRow, v: nat, code: string, hit: PairStatus -> bool): PairRow {
    if r.cv == v && hit(r.status) then r.(status := ExtractionFailed, failure := Some(code)) else r
  }

  function IsPending(): PairStatus -> bool {
    (s: PairStatus) => s == Pending
  }

  function IsNotTerminal(): PairStatus -> bool {
    (s: PairStatus) => !Terminal(s)
  }

  function ClaimStage0(cfg: Settings, db: Db, v: nat): Db
    requires v < |db.cvs|
  {
    match ClaimOutcome(cfg, db, v)
    case AlreadyComplete => db
    case AlreadyRunning => db
    case PdfMissing =>
      db.(cvs := db.cvs[v := db.cvs[v].(stage0 := Stage0Failed, error := Some("PDF_MISSING"))],
          pairs := FailPairs(db.pairs, v, "PDF_MISSING", IsPending()))
    case Claimed =>
      db.(cvs := db.cvs[v := db.cvs[v].(stage0 := Stage0Running, updatedAt := db.clock)])
  }

  /** What an extraction publishes: text, or an error code. */
  datatype Extraction = Text(text: string) | Error(code: string)

  /**
   * Publish Stage 0 once. The program decides success by the truth of the error code, so an
   * empty code publishes a success that has no text.
   */
  function FinishStage0(db: Db, v: nat, result: Extraction): Db
    requires v < |db.cvs|
  {
    var cv := db.cvs[v];
    if Stage0Done(cv.stage0) then db
    else if result.Error? && result.code != "" then
      db.(cvs := db.cvs[v := cv.(stage0 := Stage0Failed, text := None, error := Some(result.code),
                                 hasPdf := false, updatedAt := db.clock)],
          pairs := FailPairs(db.pairs, v, result.code, IsNotTerminal()))
    else
      db.(cvs := db.cvs[v := cv.(stage0 := Stage0Succeeded,
                                 text := if result.Text? then Some(result.text) else None,
                                 error := if result.Text? then None else Some(result.code),
                                 hasPdf := false, updatedAt := db.clock)])
  }

  predicate NeedsRecovery(cfg: Settings, db: Db, v: nat)
    requires v < |db.cvs| && db.cvs[v].campaign < |db.campaigns|
  {
    var cv := db.cvs[v];
    && db.campaigns[cv.campaign] == CampaignRunning
    && ((cv.stage0 == Stage0Pending && cv.updatedAt < db.clock - cfg.queueRecovery)
        || (cv.stage0 == Stage0Running && cv.updatedAt < db.clock - LeaseLength(cfg)))
  }

  /** Recovery stamps the row, then publishes a message for it. */
  function RecoverStage0(cfg: Settings, db: Db, v: nat): Db
    requires v < |db.cvs| && db.cvs[v].campaign < |db.campaigns|
  {
    if NeedsRecovery(cfg, db, v) then db.(cvs := db.cvs[v := db.cvs[v].(updatedAt := db.clock)])
    else db
  }

  // ----- Stage 2 dispatch

  function ExpireRunning(cfg: Settings, clock: int, c: nat, r: PairRow): PairRow {
    if r.campaign == c && r.status == Running && r.until.Some? && r.until.value < clock then
      var cleared := r.(lease := None, until := None);
      if r.attempts >= cfg.runMaxAttempts then
        cleared.(status := ProcessingFailed, failure := Some("RETRIEVAL_ATTEMPTS_EXHAUSTED"))
      else cleared.(status := Pending)
    else r
  }

  function ExpiredRunning(cfg: Settings, db: Db, c: nat): (out: Db)
    ensures out == db.(pairs := out.pairs) && |out.pairs| == |db.pairs|
    ensures forall p :: 0 <= p < |db.pairs| ==> out.pairs[p] == ExpireRunning(cfg, db.clock, c, db.pairs[p])
  {
    db.(pairs := seq(|db.pairs|, p requires 0 <= p < |db.pairs| =>
                       ExpireRunning(cfg, db.clock, c, db.pairs[p])))
  }

  function RetrievalSlots(cfg: Settings, db: Db, c: nat): int {
    Min(cfg.retrievalInflight - Count(db.pairs, RunningIn(c)),
        Min(cfg.retrievalGlobalInflight - Count(db.pairs, RunningAnywhere()), cfg.dispatchBatch))
  }

  /** `locked` are the rows other transactions hold, which SKIP LOCKED passes over. */
  predicate Retrievable(db: Db, c: nat, locked: set<nat>, p: nat)
    requires Shape(db) && p < |db.pairs|
  {
    var r := db.pairs[p];
    && r.campaign == c && r.status == Pending && p !in locked
    && db.cvs[r.cv].stage0 == Stage0Succeeded && JdOpen(db.jds[r.jd].status)
  }

  function RetrievalQueue(db: Db, c: nat, locked: set<nat>, n: nat): seq<QueueRow>
    requires Shape(db) && n <= |db.pairs|
  {
    if n == 0 then []
    else
      var before := RetrievalQueue(db, c, locked, n - 1);
      var r := db.pairs[n - 1];
      if Retrievable(db, c, locked, n - 1) then
        before + [QueueRow(n - 1, db.jds[r.jd].key, db.cvs[r.cv].candidate)]
      else before
  }

  function RetrievalRows(cfg: Settings, db: Db, c: nat, locked: set<nat>): seq<QueueRow>
    requires Shape(db)
  {
    var slots := RetrievalSlots(cfg, db, c);
    if slots <= 0 then []
    else Take(Sort(RetrievalQueue(db, c, locked, |db.pairs|), QueueOrder()), slots)
  }

  function ReserveRunning(cfg: Settings, db: Db, p: nat): Db
    requires p < |db.pairs|
  {
    var r := db.pairs[p];
    db.(pairs := db.pairs[p := r.(status := Running, lease := Some(db.nextToken),
                                  until := Some(db.clock + LeaseLength(cfg)),
                                  attempts := r.attempts + 1)],
        nextToken := db.nextToken + 1)
  }

  function ReserveAll(cfg: Settings, db: Db, rows: seq<QueueRow>, k: nat): (out: Db)
    requires k <= |rows| && forall i :: 0 <= i < |rows| ==> rows[i].pair < |db.pairs|
    ensures |out.pairs| == |db.pairs|
  {
    if k == 0 then db else ReserveRunning(cfg, ReserveAll(cfg, db, rows, k - 1), rows[k - 1].pair)
  }

  lemma {:induction false} RetrievalQueueRows(db: Db, c: nat, locked: set<nat>, n: nat)
    requires Shape(db) && n <= |db.pairs|
    ensures forall x :: x in RetrievalQueue(db, c, locked, n) ==>
              x.pair < n && Retrievable(db, c, locked, x.pair)
    ensures forall p :: 0 <= p < n && Retrievable(db, c, locked, p) ==>
              QueueRow(p, db.jds[db.pairs[p].jd].key, db.cvs[db.pairs[p].cv].candidate)
              in RetrievalQueue(db, c, locked, n)
    ensures forall i, j :: 0 <= i < j < |RetrievalQueue(db, c, locked, n)| ==>
              RetrievalQueue(db, c, locked, n)[i].pair < RetrievalQueue(db, c, locked, n)[j].pair
  {
    if n > 0 {
      RetrievalQueueRows(db, c, locked, n - 1);
    }
  }

  /** The rows a retrieval dispatch takes: dispatchable, distinct, and no more than the slots. */
  lemma RetrievalRowsSound(cfg: Settings, db: Db, c: nat, locked: set<nat>)
    requires Shape(db)
    ensures var rows := RetrievalRows(cfg, db, c, locked);
      && |rows| <= Max(0, RetrievalSlots(cfg, db, c))
      && (forall i :: 0 <= i < |rows| ==>
            rows[i].pair < |db.pairs| && Retrievable(db, c, locked, rows[i].pair))
      && (forall i, j :: 0 <= i < j < |rows| ==> rows[i].pair != rows[j].pair)
  {
    var queue := RetrievalQueue(db, c, locked, |db.pairs|);
    RetrievalQueueRows(db, c, locked, |db.pairs|);
    SortMembers(queue, QueueOrder());
    SortDistinct(queue, QueueOrder());
    var sorted := Sort(queue, QueueOrder());
    forall i, j | 0 <= i < j < |sorted| ensures sorted[i].pair != sorted[j].pair {
      assert sorted[i] in queue && sorted[j] in queue;
    }
  }

  /** A dispatch leaves a dispatchable row behind only when every slot is used. */
  lemma RetrievalRowsComplete(cfg: Settings, db: Db, c: nat, locked: set<nat>, p: nat)
    requires Shape(db) && p < |db.pairs| && Retrievable(db, c, locked, p)
    requires forall i :: 0 <= i < |RetrievalRows(cfg, db, c, locked)| ==>
               RetrievalRows(cfg, db, c, locked)[i].pair != p
    ensures |RetrievalRows(cfg, db, c, locked)| == Max(0, RetrievalSlots(cfg, db, c))
  {
    var queue := RetrievalQueue(db, c, locked, |db.pairs|);
    RetrievalQueueRows(db, c, locked, |db.pairs|);
    SortMembers(queue, QueueOrder());
    var x := QueueRow(p, db.jds[db.pairs[p].jd].key, db.cvs[db.pairs[p].cv].candidate);
    assert x in Sort(queue, QueueOrder());
  }

  ghost function DispatchPairs(cfg: Settings, db: Db, c: nat, locked: set<nat>): Db
    requires Shape(db) && c < |db.campaigns|
  {
    if db.campaigns[c] != CampaignRunning then db
    else
      var expired := ExpiredRunning(cfg, db, c);
      var rows := RetrievalRows(cfg, expired, c, locked);
      RetrievalRowsSound(cfg, expired, c, locked);
      ReserveAll(cfg, expired, rows, |rows|)
  }

  // ----- fenced Stage 2 writes

  predicate Holds(r: PairRow, s: PairStatus, token: nat) {
    r.status == s && r.lease == Some(token)
  }

  /** The queue failed: give the slot and the attempt back, if the lease is still held. */
  function RefundRunning(db: Db, p: nat, token: nat): Db
    requires p < |db.pairs|
  {
    var r := db.pairs[p];
    if Holds(r, Running, token) then
      db.(pairs := db.pairs[p := r.(status := Pending, lease := None, until := None, attempts := r.attempts - 1)])
    else db
  }

  datatype Retrieval = RetrievalError(code: string) | FilterFailed | Scored(evidence: Evidence)

  /** The fenced write of a retrieval worker that read `text` when it started. */
  function FinishRunning(cfg: Settings, db: Db, p: nat, token: nat, text: Option<string>, result: Retrieval): Db
    requires p < |db.pairs|
  {
    var r := db.pairs[p];
    if !Holds(r, Running, token) then db
    else
      var cleared := r.(lease := None, until := None);
      db.(pairs := db.pairs[p :=
        match result
        case RetrievalError(code) =>
          if r.attempts < cfg.runMaxAttempts then cleared.(status := Pending)
          else cleared.(status := ProcessingFailed, failure := Some(code))
        case FilterFailed => cleared.(status := FilterRejected)
        case Scored(e) => cleared.(status := Stage2Ready, evidence := Some(e), sourceText := text)])
  }

  // ----- the per-JD barrier

  ghost predicate Unresolved(db: Db, j: nat) {
    exists p :: 0 <= p < |db.pairs| && db.pairs[p].jd == j
                && !DoneBeforeCutoff(db.pairs[p].status) && db.pairs[p].status != Stage2Ready
  }

  /** A ready row without a stored score makes the sort raise, which rolls the transaction back. */
  ghost predicate Unscored(db: Db, j: nat) {
    exists p :: 0 <= p < |db.pairs| && db.pairs[p].jd == j
                && db.pairs[p].status == Stage2Ready && db.pairs[p].evidence.None?
  }

  function Pool(db: Db, j: nat, n: nat): seq<Candidate>
    requires Shape(db) && n <= |db.pairs|
  {
    if n == 0 then []
    else
      var before := Pool(db, j, n - 1);
      var r := db.pairs[n - 1];
      if r.jd == j && r.status == Stage2Ready && r.evidence.Some? then
        before + [Candidate(n - 1, db.cvs[r.cv].candidate, r.evidence.value)]
      else before
  }

  function Decide(r: PairRow, rank: nat, verdict: Verdict, e: Evidence): PairRow {
    var ranked := r.(rank := Some(rank));
    match verdict
    case Shortlist => ranked.(status := Shortlisted)
    case Review => ranked.(status := ReviewRequired,
                           failure := if e.reason.Some? && e.reason.value != "" then e.reason
                                      else Some("STAGE2_SCORING_REPLAY_REQUIRED"))
    case Exclude => ranked.(status := CutoffExcluded)
  }

  ghost predicate RowsInRange(pairs: seq<PairRow>, rows: seq<Candidate>) {
    forall i :: 0 <= i < |rows| ==> rows[i].pair < |pairs|
  }

  function DecideAt(pairs: seq<PairRow>, rows: seq<Candidate>, verdicts: seq<Verdict>, i: nat): PairRow
    requires i < |rows| == |verdicts| && rows[i].pair < |pairs|
  {
    Decide(pairs[rows[i].pair], i + 1, verdicts[i], rows[i].evidence)
  }

  /** The ranking loop after `k` rows. */
  function RankRows(pairs: seq<PairRow>, rows: seq<Candidate>, verdicts: seq<Verdict>, k: nat): (out: seq<PairRow>)
    requires k <= |rows| == |verdicts| && RowsInRange(pairs, rows)
    ensures |out| == |pairs|
  {
    if k == 0 then pairs
    else
      var before := RankRows(pairs, rows, verdicts, k - 1);
      before[rows[k - 1].pair := DecideAt(before, rows, verdicts, k - 1)]
  }

  lemma {:induction false} PoolRows(db: Db, j: nat, n: nat)
    requires Shape(db) && n <= |db.pairs|
    ensures forall x :: x in Pool(db, j, n) ==>
              && x.pair < n && db.pairs[x.pair].jd == j && db.pairs[x.pair].status == Stage2Ready
              && db.pairs[x.pair].evidence == Some(x.evidence)
              && x.id == db.cvs[db.pairs[x.pair].cv].candidate
    ensures forall p :: 0 <= p < n && db.pairs[p].jd == j && db.pairs[p].status == Stage2Ready
                        && db.pairs[p].evidence.Some? ==>
              Candidate(p, db.cvs[db.pairs[p].cv].candidate, db.pairs[p].evidence.value) in Pool(db, j, n)
    ensures forall a, b :: 0 <= a < b < |Pool(db, j, n)| ==> Pool(db, j, n)[a].pair < Pool(db, j, n)[b].pair
  {
    if n > 0 {
      PoolRows(db, j, n - 1);
    }
  }

  /** The ranked pool: every ready row of the JD once, in key order. */
  lemma RankedPool(db: Db, j: nat)
    requires Shape(db)
    ensures var rows := Ranked(Pool(db, j, |db.pairs|));
      && RowsInRange(db.pairs, rows)
      && (forall i :: 0 <= i < |rows| ==>
            && db.pairs[rows[i].pair].jd == j && db.pairs[rows[i].pair].status == Stage2Ready
            && db.pairs[rows[i].pair].evidence == Some(rows[i].evidence)
            && rows[i].id == db.cvs[db.pairs[rows[i].pair].cv].candidate)
      && (forall a, b :: 0 <= a < b < |rows| ==> rows[a].pair != rows[b].pair)
      && (forall p :: 0 <= p < |db.pairs| && db.pairs[p].jd == j && db.pairs[p].status == Stage2Ready
                      && db.pairs[p].evidence.Some? ==>
            exists i :: 0 <= i < |rows| && rows[i].pair == p)
  {
    var pool := Pool(db, j, |db.pairs|);
    PoolRows(db, j, |db.pairs|);
    SortMembers(pool, RanksBefore);
    SortDistinct(pool, RanksBefore);
    var rows := Ranked(pool);
    forall i | 0 <= i < |rows| ensures rows[i] in pool {
      assert rows[i] in rows;
    }
    forall a, b | 0 <= a < b < |rows| ensures rows[a].pair != rows[b].pair {
      assert rows[a] in pool && rows[b] in pool;
    }
    forall p | 0 <= p < |db.pairs| && db.pairs[p].jd == j && db.pairs[p].status == Stage2Ready
               && db.pairs[p].evidence.Some?
      ensures exists i :: 0 <= i < |rows| && rows[i].pair == p
    {
      var x := Candidate(p, db.cvs[db.pairs[p].cv].candidate, db.pairs[p].evidence.value);
      assert x in rows;
      var i :| 0 <= i < |rows| && rows[i] == x;
    }
  }

  ghost function FinalizeJd(db: Db, j: nat): Db
    requires Shape(db) && j < |db.jds|
  {
    var jd := db.jds[j];
    if !JdOpen(jd.status) then db
    else if Unresolved(db, j) then
      if jd.status == JdPending then db.(jds := db.jds[j := jd.(status := JdProcessing)]) else db
    else if Unscored(db, j) then db
    else
      var rows := Ranked(Pool(db, j, |db.pairs|));
      RankedPool(db, j);
      db.(pairs := RankRows(db.pairs, rows, Verdicts(rows, BarrierCap(jd.cap)), |rows|),
          jds := db.jds[j := jd.(status := JdShortlisted)])
  }

  // ----- Stage 3 dispatch

  function ExpireEvaluating(cfg: Settings, clock: int, c: nat, r: PairRow): PairRow {
    if r.campaign == c && r.status == Stage3Running && r.until.Some? && r.until.value < clock then
      var cleared := r.(lease := None, until := None);
      if r.stage3Attempts >= cfg.stage3MaxAttempts then
        cleared.(status := EvaluationFailed, failure := Some("STAGE3_ATTEMPTS_EXHAUSTED"))
      else cleared.(status := Shortlisted)
    else r
  }

  function ExpiredEvaluating(cfg: Settings, db: Db, c: nat): (out: Db)
    ensures out == db.(pairs := out.pairs) && |out.pairs| == |db.pairs|
    ensures forall p :: 0 <= p < |db.pairs| ==> out.pairs[p] == ExpireEvaluating(cfg, db.clock, c, db.pairs[p])
  {
    db.(pairs := seq(|db.pairs|, p requires 0 <= p < |db.pairs| =>
                       ExpireEvaluating(cfg, db.clock, c, db.pairs[p])))
  }

  function EvaluationSlots(cfg: Settings, db: Db): int {
    Min(cfg.stage3GlobalInflight - Count(db.pairs, EvaluatingAnywhere()), cfg.dispatchBatch)
  }

  predicate Evaluable(db: Db, c: nat, locked: set<nat>, p: nat)
    requires Shape(db) && p < |db.pairs|
  {
    var r := db.pairs[p];
    && r.campaign == c && r.status == Shortlisted && p !in locked
    && (r.until.None? || r.until.value <= db.clock)
    && db.jds[r.jd].status == JdShortlisted
  }

  function EvaluationQueue(db: Db, c: nat, locked: set<nat>, n: nat): seq<QueueRow>
    requires Shape(db) && n <= |db.pairs|
  {
    if n == 0 then []
    else
      var before := EvaluationQueue(db, c, locked, n - 1);
      var r := db.pairs[n - 1];
      if Evaluable(db, c, locked, n - 1) then
        before + [QueueRow(n - 1, db.jds[r.jd].key, if r.rank.Some? then r.rank.value else 0)]
      else before
  }

  function EvaluationRows(cfg: Settings, db: Db, c: nat, locked: set<nat>): seq<QueueRow>
    requires Shape(db)
  {
    var slots := EvaluationSlots(cfg, db);
    if slots <= 0 then []
    else Take(Sort(EvaluationQueue(db, c, locked, |db.pairs|), QueueOrder()), slots)
  }

  function ReserveEvaluating(cfg: Settings, db: Db, p: nat): Db
    requires p < |db.pairs|
  {
    db.(pairs := db.pairs[p := db.pairs[p].(status := Stage3Running, lease := Some(db.nextToken),
                                            until := Some(db.clock + LeaseLength(cfg)))],
        nextToken := db.nextToken + 1)
  }

  function ClaimAll(cfg: Settings, db: Db, rows: seq<QueueRow>, k: nat): (out: Db)
    requires k <= |rows| && forall i :: 0 <= i < |rows| ==> rows[i].pair < |db.pairs|
    ensures |out.pairs| == |db.pairs|
  {
    if k == 0 then db else ReserveEvaluating(cfg, ClaimAll(cfg, db, rows, k - 1), rows[k - 1].pair)
  }

  lemma {:induction false} EvaluationQueueRows(db: Db, c: nat, locked: set<nat>, n: nat)
    requires Shape(db) && n <= |db.pairs|
    ensures forall x :: x in EvaluationQueue(db, c, locked, n) ==>
              x.pair < n && Evaluable(db, c, locked, x.pair)
    ensures forall p :: 0 <= p < n && Evaluable(db, c, locked, p) ==>
              exists x :: x in EvaluationQueue(db, c, locked, n) && x.pair == p
    ensures forall i, j :: 0 <= i < j < |EvaluationQueue(db, c, locked, n)| ==>
              EvaluationQueue(db, c, locked, n)[i].pair < EvaluationQueue(db, c, locked, n)[j].pair
  {
    if n > 0 {
      EvaluationQueueRows(db, c, locked, n - 1);
      var before, now := EvaluationQueue(db, c, locked, n - 1), EvaluationQueue(db, c, locked, n);
      forall p | 0 <= p < n && Evaluable(db, c, locked, p)
        ensures exists x :: x in now && x.pair == p
      {
        if p == n - 1 {
          assert now[|now| - 1].pair == p;
        } else {
          var x :| x in before && x.pair == p;
          assert x in now;
        }
      }
    }
  }

  /** The rows a Stage 3 dispatch claims: claimable, distinct, and no more than the slots. */
  lemma EvaluationRowsSound(cfg: Settings, db: Db, c: nat, locked: set<nat>)
    requires Shape(db)
    ensures var rows := EvaluationRows(cfg, db, c, locked);
      && |rows| <= Max(0, EvaluationSlots(cfg, db))
      && (forall i :: 0 <= i < |rows| ==>
            rows[i].pair < |db.pairs| && Evaluable(db, c, locked, rows[i].pair))
      && (forall i, j :: 0 <= i < j < |rows| ==> rows[i].pair != rows[j].pair)
  {
    var queue := EvaluationQueue(db, c, locked, |db.pairs|);
    EvaluationQueueRows(db, c, locked, |db.pairs|);
    SortMembers(queue, QueueOrder());
    SortDistinct(queue, QueueOrder());
    var sorted := Sort(queue, QueueOrder());
    forall i, j | 0 <= i < j < |sorted| ensures sorted[i].pair != sorted[j].pair {
      assert sorted[i] in queue && sorted[j] in queue;
    }
  }

  /** A Stage 3 dispatch leaves a claimable row behind only when every slot is used. */
  lemma EvaluationRowsComplete(cfg: Settings, db: Db, c: nat, locked: set<nat>, p: nat)
    requires Shape(db) && p < |db.pairs| && Evaluable(db, c, locked, p)
    requires forall i :: 0 <= i < |EvaluationRows(cfg, db, c, locked)| ==>
               EvaluationRows(cfg, db, c, locked)[i].pair != p
    ensures |EvaluationRows(cfg, db, c, locked)| == Max(0, EvaluationSlots(cfg, db))
  {
    var queue := EvaluationQueue(db, c, locked, |db.pairs|);
    EvaluationQueueRows(db, c, locked, |db.pairs|);
    SortMembers(queue, QueueOrder());
    var x :| x in queue && x.pair == p;
    assert x in Sort(queue, QueueOrder());
  }

  ghost function DispatchStage3(cfg: Settings, db: Db, c: nat, locked: set<nat>): Db
    requires Shape(db) && c < |db.campaigns|
  {
    if db.campaigns[c] != CampaignRunning then db
    else
      var expired := ExpiredEvaluating(cfg, db, c);
      var rows := EvaluationRows(cfg, expired, c, locked);
      EvaluationRowsSound(cfg, expired, c, locked);
      ClaimAll(cfg, expired, rows, |rows|)
  }

  function RefundEvaluating(db: Db, p: nat, token: nat): Db
    requires p < |db.pairs|
  {
    if Holds(db.pairs[p], Stage3Running, token) then
      db.(pairs := db.pairs[p := db.pairs[p].(status := Shortlisted, lease := None, until := None)])
    else db
  }

  // ----- Stage 3 worker

  /** Provider admission was denied: park the pair for `wait` seconds. */
  function ParkEvaluating(db: Db, p: nat, token: nat, wait: int): Db
    requires p < |db.pairs|
  {
    if Holds(db.pairs[p], Stage3Running, token) then
      db.(pairs := db.pairs[p := db.pairs[p].(status := Shortlisted, lease := None,
                                              until := Some(db.clock + wait))])
    else db
  }

  /** Admission was granted: count the attempt. */
  function CountAttempt(db: Db, p: nat, token: nat): Db
    requires p < |db.pairs|
  {
    if Holds(db.pairs[p], Stage3Running, token) then
      db.(pairs := db.pairs[p := db.pairs[p].(stage3Attempts := db.pairs[p].stage3Attempts + 1)])
    else db
  }

  /** A rate limit or transient failure; `attempt` is the count this worker read when it started. */
  function RetryEvaluating(cfg: Settings, db: Db, p: nat, token: nat, attempt: int, delay: int,
                           exhausted: string, code: string): Db
    requires p < |db.pairs|
  {
    if !Holds(db.pairs[p], Stage3Running, token) then db
    else if attempt >= cfg.stage3MaxAttempts then
      db.(pairs := db.pairs[p := db.pairs[p].(status := EvaluationFailed, lease := None, until := None,
                                              failure := Some(exhausted))])
    else
      db.(pairs := db.pairs[p := db.pairs[p].(status := Shortlisted, lease := None,
                                              until := Some(db.clock + delay), failure := Some(code))])
  }

  datatype Evaluation = Succeeded | NeedsReview | Failed(code: string)

  function EvaluationStatus(e: Evaluation): PairStatus {
    match e
    case Succeeded => Success
    case NeedsReview => ReviewRequired
    case Failed(_) => EvaluationFailed
  }

  function FinishEvaluating(db: Db, p: nat, token: nat, result: Evaluation): Db
    requires p < |db.pairs|
  {
    if Holds(db.pairs[p], Stage3Running, token) then
      db.(pairs := db.pairs[p := db.pairs[p].(
        status := EvaluationStatus(result), lease := None, until := None,
        failure := if result.Failed? then Some(result.code) else None)])
    else db
  }

  // ----- campaign completion

  ghost predicate AllTerminal(db: Db, j: nat) {
    forall p :: 0 <= p < |db.pairs| && db.pairs[p].jd == j ==> Terminal(db.pairs[p].status)
  }

  ghost function CompletedJds(db: Db, c: nat): (jds: seq<JdRow>)
    ensures |jds| == |db.jds|
    ensures forall j :: 0 <= j < |db.jds| ==> jds[j] == CompleteJd(db, c, j)
  {
    seq(|db.jds|, j requires 0 <= j < |db.jds| => CompleteJd(db, c, j))
  }

  ghost function CompleteJd(db: Db, c: nat, j: nat): JdRow
    requires j < |db.jds|
  {
    if db.jds[j].campaign == c && db.jds[j].status == JdShortlisted && AllTerminal(db, j)
    then db.jds[j].(status := JdCompleted) else db.jds[j]
  }

  ghost predicate HasJd(jds: seq<JdRow>, c: nat) {
    exists j :: 0 <= j < |jds| && jds[j].campaign == c
  }

  ghost predicate EveryJdCompleted(jds: seq<JdRow>, c: nat) {
    && (forall j :: 0 <= j < |jds| && jds[j].campaign == c ==> jds[j].status == JdCompleted)
    && HasJd(jds, c)
  }

  ghost function FinalizeCampaign(db: Db, c: nat): Db
    requires c < |db.campaigns|
  {
    if db.campaigns[c] != CampaignRunning then db
    else
      var jds := CompletedJds(db, c);
      if EveryJdCompleted(jds, c) then
        db.(jds := jds, campaigns := db.campaigns[c := CampaignCompleted])
      else db.(jds := jds)
  }
}

/**
 * The campaign protocol as a state machine: the tables, the messages a coordinator has reserved,
 * sent or failed to send, and the workers that are between their first read and their last write.
 * Messages stay deliverable after they are sent, so a delivery may come late or twice; workers may
 * stop at any point; steps of different actors interleave freely.
 */
module CampaignProtocol {
  import opened Prelude
  import opened CampaignState
  import opened CampaignInvariant

  datatype Task = RetrieveTask | EvaluateTask

  /** A reserved lease waiting to be published, or the message that carries it. */
  datatype Ticket = Ticket(task: Task, pair: nat, token: nat)

  /** A published Stage 0 message, with the stamp its document carried when it was published. */
  datatype Notice = Notice(cv: nat, stamp: int)

  /** What a worker remembers: the CV text it read, or the attempt number it was given. */
  datatype Worker =
    | Extractor(cv: nat)
    | Retriever(pair: nat, token: nat, text: Option<string>)
    | Evaluator(pair: nat, token: nat, attempt: Option<int>)

  /** `delivered` and `counted` are histories: evaluation tokens delivered, and tokens charged an attempt. */
  datatype World = World(
    db: Db,
    reserved: set<Ticket>,
    sent: set<Ticket>,
    notices: set<Notice>,
    delivered: set<nat>,
    counted: set<nat>,
    workers: map<nat, Worker>,
    nextWorker: nat)

  datatype Step =
    | Tick(seconds: nat)
    | IntakeCv(campaign: nat, candidate: int, hasPdf: bool)
    | Start(campaign: nat)
    | Stage0Claim(cv: nat, stamp: int)
    | Stage0Finish(worker: nat, extraction: Extraction)
    | Stage0Recover(cv: nat)
    | Retrieve(campaign: nat, locked: set<nat>)
    | RetrieveSend(pair: nat, token: nat)
    | RetrieveRefund(pair: nat, token: nat)
    | RetrieveDeliver(pair: nat, token: nat)
    | RetrieveFinish(worker: nat, retrieval: Retrieval)
    | Barrier(jd: nat)
    | Evaluate(campaign: nat, locked: set<nat>)
    | EvaluateSend(pair: nat, token: nat)
    | EvaluateRefund(pair: nat, token: nat)
    | EvaluateDeliver(pair: nat, token: nat)
    | EvaluatePark(worker: nat, wait: nat)
    | EvaluateCount(worker: nat)
    | EvaluateRetry(worker: nat, delay: nat, exhausted: string, code: string)
    | EvaluateFinish(worker: nat, evaluation: Evaluation)
    | Complete(campaign: nat)
    | Crash(worker: nat)

  // ----- which steps can happen

  /** Rows this dispatch expires are its own; only other rows can be locked by someone else. */
  ghost predicate RetrieveLocks(cfg: Settings, db: Db, c: nat, locked: set<nat>) {
    forall p :: p in locked && p < |db.pairs| ==> ExpireRunning(cfg, db.clock, c, db.pairs[p]) == db.pairs[p]
  }

  ghost predicate EvaluateLocks(cfg: Settings, db: Db, c: nat, locked: set<nat>) {
    forall p :: p in locked && p < |db.pairs| ==> ExpireEvaluating(cfg, db.clock, c, db.pairs[p]) == db.pairs[p]
  }

  ghost predicate Enabled(cfg: Settings, w: World, st: Step) {
    var db := w.db;
    Shape(db) &&
    match st
    case Tick(_) => true
    case IntakeCv(c, _, _) => c < |db.campaigns|
    case Start(c) => c < |db.campaigns|
    case Stage0Claim(v, at) => v < |db.cvs| && Notice(v, at) in w.notices
    case Stage0Finish(id, result) => Extracting(w, id) && result != Error("")
    case Stage0Recover(v) => v < |db.cvs|
    case Retrieve(c, locked) => c < |db.campaigns| && RetrieveLocks(cfg, db, c, locked)
    case RetrieveSend(p, t) => Ticket(RetrieveTask, p, t) in w.reserved
    case RetrieveRefund(p, t) => Ticket(RetrieveTask, p, t) in w.reserved && p < |db.pairs|
    case RetrieveDeliver(p, t) => Ticket(RetrieveTask, p, t) in w.sent && p < |db.pairs|
    case RetrieveFinish(id, _) => id in w.workers && w.workers[id].Retriever? && w.workers[id].pair < |db.pairs|
    case Barrier(j) => j < |db.jds| && db.campaigns[db.jds[j].campaign] != Intake
    case Evaluate(c, locked) => c < |db.campaigns| && EvaluateLocks(cfg, db, c, locked)
    case EvaluateSend(p, t) => Ticket(EvaluateTask, p, t) in w.reserved
    case EvaluateRefund(p, t) => Ticket(EvaluateTask, p, t) in w.reserved && p < |db.pairs|
    case EvaluateDeliver(p, t) => Ticket(EvaluateTask, p, t) in w.sent && p < |db.pairs|
    case EvaluatePark(id, _) => Evaluating(w, id) && w.workers[id].attempt.None?
    case EvaluateCount(id) => Evaluating(w, id) && w.workers[id].attempt.None?
    case EvaluateRetry(id, _, _, _) => Evaluating(w, id) && w.workers[id].attempt.Some?
    case EvaluateFinish(id, _) => Evaluating(w, id) && w.workers[id].attempt.Some?
    case Complete(c) => c < |db.campaigns|
    case Crash(id) => id in w.workers && (w.workers[id].Extractor? ==> w.workers[id].cv < |db.cvs|)
  }

  ghost predicate Extracting(w: World, id: nat) {
    id in w.workers && w.workers[id].Extractor? && w.workers[id].cv < |w.db.cvs|
  }

  ghost predicate Evaluating(w: World, id: nat) {
    id in w.workers && w.workers[id].Evaluator? && w.workers[id].pair < |w.db.pairs|
  }

  // ----- what they do to the tables

  ghost function DbAfter(cfg: Settings, w: World, st: Step): Db
    requires Enabled(cfg, w, st)
  {
    var db := w.db;
    match st
    case Tick(n) => TimePasses(db, n)
    case IntakeCv(c, candidate, hasPdf) => ReserveCv(db, c, candidate, hasPdf)
    case Start(c) => Launch(db, c)
    case Stage0Claim(v, _) => ClaimStage0(cfg, db, v)
    case Stage0Finish(id, result) => FinishStage0(db, w.workers[id].cv, result)
    case Stage0Recover(v) => RecoverStage0(cfg, db, v)
    case Retrieve(c, locked) => DispatchPairs(cfg, db, c, locked)
    case RetrieveSend(_, _) => db
    case RetrieveRefund(p, t) => RefundRunning(db, p, t)
    case RetrieveDeliver(_, _) => db
    case RetrieveFinish(id, result) =>
      var k := w.workers[id];
      FinishRunning(cfg, db, k.pair, k.token, k.text, result)
    case Barrier(j) => FinalizeJd(db, j)
    case Evaluate(c, locked) => DispatchStage3(cfg, db, c, locked)
    case EvaluateSend(_, _) => db
    case EvaluateRefund(p, t) => RefundEvaluating(db, p, t)
    case EvaluateDeliver(_, _) => db
    case EvaluatePark(id, wait) => ParkEvaluating(db, w.workers[id].pair, w.workers[id].token, wait)
    case EvaluateCount(id) => CountAttempt(db, w.workers[id].pair, w.workers[id].token)
    case EvaluateRetry(id, delay, exhausted, code) =>
      var k := w.workers[id];
      RetryEvaluating(cfg, db, k.pair, k.token, k.attempt.value, delay, exhausted, code)
    case EvaluateFinish(id, result) => FinishEvaluating(db, w.workers[id].pair, w.workers[id].token, result)
    case Complete(c) => FinalizeCampaign(db, c)
    case Crash(_) => db
  }

  // ----- what they do to messages and workers

  ghost function RetrievedRows(cfg: Settings, db: Db, c: nat, locked: set<nat>): seq<QueueRow>
    requires Shape(db) && c < |db.campaigns|
  {
    if db.campaigns[c] == CampaignRunning then RetrievalRows(cfg, ExpiredRunning(cfg, db, c), c, locked) else []
  }

  ghost function EvaluatedRows(cfg: Settings, db: Db, c: nat, locked: set<nat>): seq<QueueRow>
    requires Shape(db) && c < |db.campaigns|
  {
    if db.campaigns[c] == CampaignRunning then EvaluationRows(cfg, ExpiredEvaluating(cfg, db, c), c, locked) else []
  }

  function Tickets(task: Task, rows: seq<QueueRow>, first: nat): set<Ticket> {
    set i | 0 <= i < |rows| :: Ticket(task, rows[i].pair, first + i)
  }

  function Hire(w: World, k: Worker): World {
    w.(workers := w.workers[w.nextWorker := k], nextWorker := w.nextWorker + 1)
  }

  function Leave(w: World, id: nat): World {
    w.(workers := w.workers - {id})
  }

  function Publish(w: World, notices: set<Notice>): World {
    w.(notices := w.notices + notices)
  }

  /** A message for every document of a campaign. */
  function Announced(db: Db, c: nat): set<Notice> {
    set v | 0 <= v < |db.cvs| && db.cvs[v].campaign == c :: Notice(v, db.cvs[v].updatedAt)
  }

  /** The retry a lost extraction leaves behind; other workers leave nothing. */
  function Retried(db: Db, k: Worker): set<Notice>
    requires k.Extractor? ==> k.cv < |db.cvs|
  {
    if k.Extractor? then {Notice(k.cv, db.cvs[k.cv].updatedAt)} else {}
  }

  ghost function Messages(cfg: Settings, w: World, st: Step): World
    requires Enabled(cfg, w, st)
  {
    var db := w.db;
    match st
    case Start(c) => if db.campaigns[c] == Intake then Publish(w, Announced(db, c)) else w
    case Stage0Claim(v, _) => if ClaimOutcome(cfg, db, v) == Claimed then Hire(w, Extractor(v)) else w
    case Stage0Recover(v) => if NeedsRecovery(cfg, db, v) then Publish(w, {Notice(v, db.clock)}) else w
    case Stage0Finish(id, _) => Leave(w, id)
    case Retrieve(c, locked) =>
      w.(reserved := w.reserved + Tickets(RetrieveTask, RetrievedRows(cfg, db, c, locked), db.nextToken))
    case RetrieveSend(p, t) =>
      w.(reserved := w.reserved - {Ticket(RetrieveTask, p, t)}, sent := w.sent + {Ticket(RetrieveTask, p, t)})
    case RetrieveRefund(p, t) => w.(reserved := w.reserved - {Ticket(RetrieveTask, p, t)})
    case RetrieveDeliver(p, t) =>
      if Holds(db.pairs[p], Running, t) then Hire(w, Retriever(p, t, db.cvs[db.pairs[p].cv].text)) else w
    case RetrieveFinish(id, _) => Leave(w, id)
    case Evaluate(c, locked) =>
      w.(reserved := w.reserved + Tickets(EvaluateTask, EvaluatedRows(cfg, db, c, locked), db.nextToken))
    case EvaluateSend(p, t) =>
      w.(reserved := w.reserved - {Ticket(EvaluateTask, p, t)}, sent := w.sent + {Ticket(EvaluateTask, p, t)})
    case EvaluateRefund(p, t) => w.(reserved := w.reserved - {Ticket(EvaluateTask, p, t)})
    case EvaluateDeliver(p, t) =>
      var seen := w.(delivered := w.delivered + {t});
      if Holds(db.pairs[p], Stage3Running, t) then Hire(seen, Evaluator(p, t, None)) else seen
    case EvaluatePark(id, _) => Leave(w, id)
    case EvaluateCount(id) =>
      var k := w.workers[id];
      if Holds(db.pairs[k.pair], Stage3Running, k.token) then
        w.(workers := w.workers[id := k.(attempt := Some(db.pairs[k.pair].stage3Attempts + 1))],
           counted := w.counted + {k.token})
      else Leave(w, id)
    case EvaluateRetry(id, _, _, _) => Leave(w, id)
    case EvaluateFinish(id, _) => Leave(w, id)
    case Crash(id) => Publish(Leave(w, id), Retried(db, w.workers[id]))
    case _ => w
  }

  ghost function Apply(cfg: Settings, w: World, st: Step): World
    requires Enabled(cfg, w, st)
  {
    Messages(cfg, w, st).(db := DbAfter(cfg, w, st))
  }

  // ----- runs

  ghost predicate Legal(cfg: Settings, w: World, run: seq<Step>)
    decreases |run|
  {
    run == [] || (Enabled(cfg, w, run[0]) && Legal(cfg, Apply(cfg, w, run[0]), run[1..]))
  }

  ghost function After(cfg: Settings, w: World, run: seq<Step>): World
    requires Legal(cfg, w, run)
    decreases |run|
  {
    if run == [] then w else After(cfg, Apply(cfg, w, run[0]), run[1..])
  }

  /** Campaigns that have a JD, no CV yet, nothing issued, no message, no worker. */
  ghost predicate Initial(w: World) {
    && Shape(w.db) && w.db.cvs == [] && w.db.pairs == []
    && (forall c :: 0 <= c < |w.db.campaigns| ==> w.db.campaigns[c] == Intake && HasJd(w.db.jds, c))
    && (forall j :: 0 <= j < |w.db.jds| ==> w.db.jds[j].status == JdPending)
    && w.reserved == {} && w.sent == {} && w.notices == {} && w.delivered == {} && w.counted == {} && w.workers == map[]
  }

  ghost predicate Reachable(cfg: Settings, w: World) {
    exists start, run :: Initial(start) && Legal(cfg, start, run) && After(cfg, start, run) == w
  }

  // ----- the invariant

  ghost predicate TicketOk(db: Db, t: Ticket) {
    t.pair < |db.pairs| && t.token < db.nextToken
  }

  ghost predicate NoticeOk(db: Db, n: Notice) {
    n.cv < |db.cvs| && n.stamp <= db.cvs[n.cv].updatedAt
  }

  ghost predicate WorkerOk(db: Db, k: Worker) {
    match k
    case Extractor(v) => v < |db.cvs|
    case Retriever(p, t, text) =>
      && p < |db.pairs| && t < db.nextToken && db.pairs[p].cv < |db.cvs|
      && db.cvs[db.pairs[p].cv].stage0 == Stage0Succeeded && text == db.cvs[db.pairs[p].cv].text
    case Evaluator(p, t, attempt) =>
      && p < |db.pairs| && t < db.nextToken
      && (attempt.Some? ==> 1 <= attempt.value <= db.pairs[p].stage3Attempts)
  }

  ghost predicate WorkersOk(db: Db, w: World) {
    && (forall t :: t in w.reserved || t in w.sent ==> TicketOk(db, t))
    && (forall n :: n in w.notices ==> NoticeOk(db, n))
    && (forall id :: id in w.workers ==> id < w.nextWorker && WorkerOk(db, w.workers[id]))
  }

  ghost predicate WorldOk(cfg: Settings, w: World) {
    DbOk(cfg, w.db) && WorkersOk(w.db, w)
  }

  lemma InitialOk(cfg: Settings, w: World)
    requires ValidSettings(cfg) && Initial(w)
    ensures WorldOk(cfg, w)
  {
    forall c: nat ensures Count(w.db.pairs, OfCampaign(c)) == Count(w.db.jds, JdsOf(c)) * Count(w.db.cvs, CvsOf(c)) {
    }
  }

  /** What workers and messages rely on survives any evolution of the tables. */
  lemma WorkersSurvive(db: Db, db': Db, w: World)
    requires WorkersOk(db, w) && Evolves(db, db')
    ensures WorkersOk(db', w)
  {
    forall n | n in w.notices ensures NoticeOk(db', n) {
      assert NoticeOk(db, n) && CvEvolves(db.cvs[n.cv], db'.cvs[n.cv]);
    }
    forall id | id in w.workers ensures WorkerOk(db', w.workers[id]) {
      var k := w.workers[id];
      if k.Retriever? {
        assert RowEvolves(db.pairs[k.pair], db'.pairs[k.pair], BarrierDone(db, db.pairs[k.pair]));
        assert CvEvolves(db.cvs[db.pairs[k.pair].cv], db'.cvs[db.pairs[k.pair].cv]);
      } else if k.Evaluator? {
        assert RowEvolves(db.pairs[k.pair], db'.pairs[k.pair], BarrierDone(db, db.pairs[k.pair]));
      }
    }
  }

  ghost predicate Sound(cfg: Settings, db: Db, db': Db) {
    DbOk(cfg, db') && Evolves(db, db')
  }

  predicate IntakeStep(st: Step) {
    st.Tick? || st.IntakeCv? || st.Start? || st.Stage0Claim? || st.Stage0Finish? || st.Stage0Recover?
  }

  predicate CoordinatorStep(st: Step) {
    st.Retrieve? || st.Evaluate? || st.Barrier? || st.Complete? || st.RetrieveRefund? || st.EvaluateRefund?
  }

  predicate EvaluatorStep(st: Step) {
    st.EvaluatePark? || st.EvaluateCount? || st.EvaluateRetry? || st.EvaluateFinish?
  }

  lemma IntakeStepOk(cfg: Settings, w: World, st: Step)
    requires ValidSettings(cfg) && DbOk(cfg, w.db) && Enabled(cfg, w, st) && IntakeStep(st)
    ensures Sound(cfg, w.db, DbAfter(cfg, w, st))
  {
    if st.Tick? {
      TickOk(cfg, w.db, st.seconds);
    } else if st.IntakeCv? {
      ReserveCvOk(cfg, w.db, st.campaign, st.candidate, st.hasPdf);
    } else if st.Start? {
      LaunchOk(cfg, w.db, st.campaign);
    } else {
      Stage0StepOk(cfg, w, st);
    }
  }

  lemma Stage0StepOk(cfg: Settings, w: World, st: Step)
    requires DbOk(cfg, w.db) && Enabled(cfg, w, st) && (st.Stage0Claim? || st.Stage0Finish? || st.Stage0Recover?)
    ensures Sound(cfg, w.db, DbAfter(cfg, w, st))
  {
    match st
    case Stage0Claim(v, _) => ClaimStage0Ok(cfg, w.db, v);
    case Stage0Finish(id, result) => FinishStage0Ok(cfg, w.db, w.workers[id].cv, result);
    case Stage0Recover(v) => RecoverStage0Ok(cfg, w.db, v);
  }

  lemma CoordinatorStepOk(cfg: Settings, w: World, st: Step)
    requires ValidSettings(cfg) && DbOk(cfg, w.db) && Enabled(cfg, w, st) && CoordinatorStep(st)
    ensures Sound(cfg, w.db, DbAfter(cfg, w, st))
  {
    var db := w.db;
    match st
    case Retrieve(c, locked) => DispatchPairsOk(cfg, db, c, locked);
    case RetrieveRefund(p, t) => RefundRunningOk(cfg, db, p, t);
    case Barrier(j) => FinalizeJdOk(cfg, db, j);
    case Evaluate(c, locked) => DispatchStage3Ok(cfg, db, c, locked);
    case EvaluateRefund(p, t) => RefundEvaluatingOk(cfg, db, p, t);
    case Complete(c) => FinalizeCampaignOk(cfg, db, c);
  }

  lemma RetrieverStepOk(cfg: Settings, w: World, id: nat, result: Retrieval)
    requires DbOk(cfg, w.db) && Enabled(cfg, w, RetrieveFinish(id, result)) && WorkerOk(w.db, w.workers[id])
    ensures Sound(cfg, w.db, DbAfter(cfg, w, RetrieveFinish(id, result)))
  {
    var k := w.workers[id];
    FinishRunningOk(cfg, w.db, k.pair, k.token, k.text, result);
  }

  /** The writes of a worker that has counted its attempt. */
  lemma ResultStepOk(cfg: Settings, w: World, st: Step)
    requires DbOk(cfg, w.db) && Enabled(cfg, w, st) && (st.EvaluateRetry? || st.EvaluateFinish?)
    requires WorkerOk(w.db, w.workers[st.worker])
    ensures Sound(cfg, w.db, DbAfter(cfg, w, st))
  {
    var db, k := w.db, w.workers[st.worker];
    if st.EvaluateRetry? {
      RetryEvaluatingOk(cfg, db, k.pair, k.token, k.attempt.value, st.delay, st.exhausted, st.code);
    } else {
      FinishEvaluatingOk(cfg, db, k.pair, k.token, st.evaluation);
    }
  }

  lemma EvaluatorStepOk(cfg: Settings, w: World, st: Step)
    requires DbOk(cfg, w.db) && Enabled(cfg, w, st) && EvaluatorStep(st) && WorkerOk(w.db, w.workers[st.worker])
    ensures Sound(cfg, w.db, DbAfter(cfg, w, st))
  {
    var db, k := w.db, w.workers[st.worker];
    if st.EvaluatePark? {
      ParkEvaluatingOk(cfg, db, k.pair, k.token, st.wait);
    } else if st.EvaluateCount? {
      CountAttemptOk(cfg, db, k.pair, k.token);
    } else {
      ResultStepOk(cfg, w, st);
    }
  }

  lemma DbStepOk(cfg: Settings, w: World, st: Step)
    requires ValidSettings(cfg) && WorldOk(cfg, w) && Enabled(cfg, w, st)
    ensures Sound(cfg, w.db, DbAfter(cfg, w, st))
  {
    if IntakeStep(st) {
      IntakeStepOk(cfg, w, st);
    } else if CoordinatorStep(st) {
      CoordinatorStepOk(cfg, w, st);
    } else if st.RetrieveFinish? {
      RetrieverStepOk(cfg, w, st.worker, st.retrieval);
    } else if EvaluatorStep(st) {
      EvaluatorStepOk(cfg, w, st);
    } else {
      EvolvesReflexive(w.db);
    }
  }

  /** Tokens handed out by a dispatch, and how many. */
  lemma RetrieveIssues(cfg: Settings, db: Db, c: nat, locked: set<nat>)
    requires Shape(db) && c < |db.campaigns|
    ensures var rows, db' := RetrievedRows(cfg, db, c, locked), DispatchPairs(cfg, db, c, locked);
      db'.nextToken == db.nextToken + |rows| && |db'.pairs| == |db.pairs|
      && forall i :: 0 <= i < |rows| ==> rows[i].pair < |db.pairs|
  {
    if db.campaigns[c] == CampaignRunning {
      var expired := ExpiredRunning(cfg, db, c);
      RetrievalRowsSound(cfg, expired, c, locked);
      ReserveAllChanges(cfg, expired, RetrievedRows(cfg, db, c, locked), |RetrievedRows(cfg, db, c, locked)|);
    }
  }

  lemma EvaluateIssues(cfg: Settings, db: Db, c: nat, locked: set<nat>)
    requires Shape(db) && c < |db.campaigns|
    ensures var rows, db' := EvaluatedRows(cfg, db, c, locked), DispatchStage3(cfg, db, c, locked);
      db'.nextToken == db.nextToken + |rows| && |db'.pairs| == |db.pairs|
      && forall i :: 0 <= i < |rows| ==> rows[i].pair < |db.pairs|
  {
    if db.campaigns[c] == CampaignRunning {
      var expired := ExpiredEvaluating(cfg, db, c);
      EvaluationRowsSound(cfg, expired, c, locked);
      ClaimAllChanges(cfg, expired, EvaluatedRows(cfg, db, c, locked), |EvaluatedRows(cfg, db, c, locked)|);
    }
  }

  /** A dispatch writes pairs only. */
  lemma RetrieveSameOwners(cfg: Settings, db: Db, c: nat, locked: set<nat>)
    requires Shape(db) && c < |db.campaigns|
    ensures DispatchPairs(cfg, db, c, locked).cvs == db.cvs && DispatchPairs(cfg, db, c, locked).jds == db.jds
    ensures DispatchPairs(cfg, db, c, locked).campaigns == db.campaigns
  {
    if db.campaigns[c] == CampaignRunning {
      var expired := ExpiredRunning(cfg, db, c);
      RetrievalRowsSound(cfg, expired, c, locked);
      ReserveAllChanges(cfg, expired, RetrievalRows(cfg, expired, c, locked), |RetrievalRows(cfg, expired, c, locked)|);
    }
  }

  lemma EvaluateSameOwners(cfg: Settings, db: Db, c: nat, locked: set<nat>)
    requires Shape(db) && c < |db.campaigns|
    ensures DispatchStage3(cfg, db, c, locked).cvs == db.cvs && DispatchStage3(cfg, db, c, locked).jds == db.jds
    ensures DispatchStage3(cfg, db, c, locked).campaigns == db.campaigns
  {
    if db.campaigns[c] == CampaignRunning {
      var expired := ExpiredEvaluating(cfg, db, c);
      EvaluationRowsSound(cfg, expired, c, locked);
      ClaimAllChanges(cfg, expired, EvaluationRows(cfg, expired, c, locked), |EvaluationRows(cfg, expired, c, locked)|);
    }
  }

  /** Every step keeps the invariant and stays within the evolution relation. */
  lemma StepOk(cfg: Settings, w: World, st: Step)
    requires ValidSettings(cfg) && WorldOk(cfg, w) && Enabled(cfg, w, st)
    ensures WorldOk(cfg, Apply(cfg, w, st)) && Evolves(w.db, Apply(cfg, w, st).db)
  {
    DbStepOk(cfg, w, st);
    WorkersSurvive(w.db, DbAfter(cfg, w, st), w);
    MessagesOk(cfg, w, st);
  }

  lemma TicketsOk(db: Db, rows: seq<QueueRow>, task: Task, first: nat)
    requires first + |rows| <= db.nextToken && forall i :: 0 <= i < |rows| ==> rows[i].pair < |db.pairs|
    ensures forall t :: t in Tickets(task, rows, first) ==> TicketOk(db, t)
  {
  }

  lemma EvaluateCountMessagesOk(cfg: Settings, w: World, id: nat)
    requires WorldOk(cfg, w) && Enabled(cfg, w, EvaluateCount(id))
    requires WorkersOk(DbAfter(cfg, w, EvaluateCount(id)), w)
    ensures WorkersOk(DbAfter(cfg, w, EvaluateCount(id)), Messages(cfg, w, EvaluateCount(id)))
  {
    var k := w.workers[id];
    assert WorkerOk(w.db, k);
    assert RowOk(cfg, w.db, w.db.pairs[k.pair]);
  }

  lemma DeliverMessagesOk(cfg: Settings, w: World, st: Step)
    requires WorldOk(cfg, w) && Enabled(cfg, w, st) && (st.RetrieveDeliver? || st.EvaluateDeliver?)
    ensures WorkersOk(w.db, Messages(cfg, w, st))
  {
    var r := w.db.pairs[st.pair];
    assert RowOk(cfg, w.db, r);
    if st.RetrieveDeliver? && Holds(r, Running, st.token) {
      HireOk(w.db, w, Retriever(st.pair, st.token, w.db.cvs[r.cv].text));
    } else if st.EvaluateDeliver? && Holds(r, Stage3Running, st.token) {
      HireOk(w.db, w.(delivered := w.delivered + {st.token}), Evaluator(st.pair, st.token, None));
    }
  }

  lemma HireOk(db: Db, w: World, k: Worker)
    requires WorkersOk(db, w) && WorkerOk(db, k)
    ensures WorkersOk(db, Hire(w, k))
  {
  }

  /** The other steps leave, keep or move messages, and hire nobody but an extractor. */
  lemma OtherMessagesOk(cfg: Settings, db': Db, w: World, st: Step)
    requires Enabled(cfg, w, st) && WorkersOk(db', w) && |w.db.cvs| <= |db'.cvs|
    requires !st.Retrieve? && !st.Evaluate? && !st.RetrieveDeliver? && !st.EvaluateDeliver? && !st.EvaluateCount?
    requires !st.Start? && !st.Stage0Recover? && !st.Crash?
    ensures WorkersOk(db', Messages(cfg, w, st))
  {
  }

  lemma IssuedTicketsOk(cfg: Settings, w: World, st: Step)
    requires WorldOk(cfg, w) && Enabled(cfg, w, st) && (st.Retrieve? || st.Evaluate?)
    requires WorkersOk(DbAfter(cfg, w, st), w)
    ensures WorkersOk(DbAfter(cfg, w, st), Messages(cfg, w, st))
  {
    var db, db' := w.db, DbAfter(cfg, w, st);
    if st.Retrieve? {
      RetrieveIssues(cfg, db, st.campaign, st.locked);
      TicketsOk(db', RetrievedRows(cfg, db, st.campaign, st.locked), RetrieveTask, db.nextToken);
    } else {
      EvaluateIssues(cfg, db, st.campaign, st.locked);
      TicketsOk(db', EvaluatedRows(cfg, db, st.campaign, st.locked), EvaluateTask, db.nextToken);
    }
  }

  /** Messages published for documents carry the stamp the row has then. */
  lemma NoticesOk(cfg: Settings, w: World, st: Step)
    requires WorldOk(cfg, w) && Enabled(cfg, w, st) && (st.Start? || st.Stage0Recover? || st.Crash?)
    requires WorkersOk(DbAfter(cfg, w, st), w)
    ensures WorkersOk(DbAfter(cfg, w, st), Messages(cfg, w, st))
  {
    if st.Start? {
      assert forall v :: 0 <= v < |w.db.cvs| ==> NoticeOk(w.db, Notice(v, w.db.cvs[v].updatedAt));
    }
  }

  lemma MessagesOk(cfg: Settings, w: World, st: Step)
    requires WorldOk(cfg, w) && Enabled(cfg, w, st)
    requires WorkersOk(DbAfter(cfg, w, st), w) && |w.db.cvs| <= |DbAfter(cfg, w, st).cvs|
    ensures WorkersOk(DbAfter(cfg, w, st), Messages(cfg, w, st))
  {
    if st.Retrieve? || st.Evaluate? {
      IssuedTicketsOk(cfg, w, st);
    } else if st.RetrieveDeliver? || st.EvaluateDeliver? {
      DeliverMessagesOk(cfg, w, st);
    } else if st.EvaluateCount? {
      EvaluateCountMessagesOk(cfg, w, st.worker);
    } else if st.Start? || st.Stage0Recover? || st.Crash? {
      NoticesOk(cfg, w, st);
    } else {
      OtherMessagesOk(cfg, DbAfter(cfg, w, st), w, st);
    }
  }

  lemma {:induction false} RunOk(cfg: Settings, w: World, run: seq<Step>)
    requires ValidSettings(cfg) && WorldOk(cfg, w) && Legal(cfg, w, run)
    ensures WorldOk(cfg, After(cfg, w, run)) && Evolves(w.db, After(cfg, w, run).db)
    decreases |run|
  {
    if run == [] {
      EvolvesReflexive(w.db);
    } else {
      var next := Apply(cfg, w, run[0]);
      StepOk(cfg, w, run[0]);
      RunOk(cfg, next, run[1..]);
      EvolvesTransitive(w.db, next.db, After(cfg, w, run).db);
    }
  }

  lemma ReachableOk(cfg: Settings, w: World)
    requires ValidSettings(cfg) && Reachable(cfg, w)
    ensures WorldOk(cfg, w)
  {
    var start, run :| Initial(start) && Legal(cfg, start, run) && After(cfg, start, run) == w;
    InitialOk(cfg, start);
    RunOk(cfg, start, run);
  }
}

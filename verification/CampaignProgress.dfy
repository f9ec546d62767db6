/**
 * No stuck state: from every reachable state in which a campaign is running, some legal
 * continuation completes it. And what duplicate deliveries do to the Stage 3 attempt limit.
 */
module CampaignProgress {
  import opened Prelude
  import opened CampaignState
  import opened CampaignInvariant
  import opened CampaignProtocol
  import opened CampaignBudget

  // ----- continuations

  ghost predicate Leads(cfg: Settings, w: World, w': World) {
    exists run :: Legal(cfg, w, run) && After(cfg, w, run) == w'
  }

  lemma LeadsNowhere(cfg: Settings, w: World)
    ensures Leads(cfg, w, w)
  {
    assert Legal(cfg, w, []) && After(cfg, w, []) == w;
  }

  lemma RunHead(cfg: Settings, w: World, run: seq<Step>)
    requires Legal(cfg, w, run) && run != []
    ensures Enabled(cfg, w, run[0])
    ensures Legal(cfg, Apply(cfg, w, run[0]), run[1..])
    ensures After(cfg, w, run) == After(cfg, Apply(cfg, w, run[0]), run[1..])
  {
  }

  lemma RunCons(cfg: Settings, w: World, st: Step, run: seq<Step>, whole: seq<Step>)
    requires Enabled(cfg, w, st) && Legal(cfg, Apply(cfg, w, st), run) && whole == [st] + run
    ensures Legal(cfg, w, whole) && After(cfg, w, whole) == After(cfg, Apply(cfg, w, st), run)
  {
    assert whole[1..] == run;
  }

  lemma {:induction false} RunsCompose(cfg: Settings, w: World, a: seq<Step>, b: seq<Step>)
    requires Legal(cfg, w, a) && Legal(cfg, After(cfg, w, a), b)
    ensures Legal(cfg, w, a + b) && After(cfg, w, a + b) == After(cfg, After(cfg, w, a), b)
    decreases |a|
  {
    if a == [] {
      assert a + b == b;
    } else {
      RunHead(cfg, w, a);
      var next := Apply(cfg, w, a[0]);
      RunsCompose(cfg, next, a[1..], b);
      assert a + b == [a[0]] + (a[1..] + b);
      RunCons(cfg, w, a[0], a[1..] + b, a + b);
    }
  }

  lemma LeadsOn(cfg: Settings, w: World, u: World, v: World)
    requires Leads(cfg, w, u) && Leads(cfg, u, v)
    ensures Leads(cfg, w, v)
  {
    var a :| Legal(cfg, w, a) && After(cfg, w, a) == u;
    var b :| Legal(cfg, u, b) && After(cfg, u, b) == v;
    RunsCompose(cfg, w, a, b);
  }

  lemma LeadsByStep(cfg: Settings, w: World, st: Step)
    requires Enabled(cfg, w, st)
    ensures Leads(cfg, w, Apply(cfg, w, st))
  {
    LeadsNowhere(cfg, Apply(cfg, w, st));
    RunCons(cfg, w, st, [], [st]);
  }

  /** One more step after a continuation; the invariant comes along. */
  lemma LeadsFurther(cfg: Settings, w: World, u: World, st: Step) returns (v: World)
    requires ValidSettings(cfg) && WorldOk(cfg, u) && Leads(cfg, w, u) && Enabled(cfg, u, st)
    ensures v == Apply(cfg, u, st) && WorldOk(cfg, v) && Leads(cfg, w, v) && Evolves(u.db, v.db)
  {
    v := Apply(cfg, u, st);
    LeadsByStep(cfg, u, st);
    LeadsOn(cfg, w, u, v);
    StepOk(cfg, u, st);
  }

  // ----- the work left

  function PairWork(cfg: Settings): PairRow -> int {
    (r: PairRow) =>
      match r.status
      case Pending => 4 + 2 * (cfg.runMaxAttempts - r.attempts)
      case Running => 5 + 2 * (cfg.runMaxAttempts - r.attempts)
      case Stage2Ready => 3
      case Shortlisted => 1
      case Stage3Running => 1
      case _ => 0
  }

  function CvWork(): CvRow -> int {
    (v: CvRow) => if Stage0Done(v.stage0) then 0 else 1
  }

  function JdWork(): JdRow -> int {
    (j: JdRow) => if JdOpen(j.status) then 1 else 0
  }

  function Work(cfg: Settings, db: Db): int {
    Sum(db.pairs, PairWork(cfg)) + Sum(db.cvs, CvWork()) + Sum(db.jds, JdWork())
  }

  ghost predicate NoMoreWork(cfg: Settings, db: Db, db': Db) {
    && |db.pairs| == |db'.pairs| && |db.cvs| == |db'.cvs| && |db.jds| == |db'.jds|
    && (forall p :: 0 <= p < |db.pairs| ==> PairWork(cfg)(db'.pairs[p]) <= PairWork(cfg)(db.pairs[p]))
    && (forall v :: 0 <= v < |db.cvs| ==> CvWork()(db'.cvs[v]) <= CvWork()(db.cvs[v]))
    && (forall j :: 0 <= j < |db.jds| ==> JdWork()(db'.jds[j]) <= JdWork()(db.jds[j]))
  }

  ghost predicate LessSomewhere(cfg: Settings, db: Db, db': Db)
    requires NoMoreWork(cfg, db, db')
  {
    || (exists p :: 0 <= p < |db.pairs| && PairWork(cfg)(db'.pairs[p]) < PairWork(cfg)(db.pairs[p]))
    || (exists v :: 0 <= v < |db.cvs| && CvWork()(db'.cvs[v]) < CvWork()(db.cvs[v]))
    || (exists j :: 0 <= j < |db.jds| && JdWork()(db'.jds[j]) < JdWork()(db.jds[j]))
  }

  lemma WorkFalls(cfg: Settings, db: Db, db': Db)
    requires NoMoreWork(cfg, db, db')
    ensures Work(cfg, db') <= Work(cfg, db)
    ensures LessSomewhere(cfg, db, db') ==> Work(cfg, db') < Work(cfg, db)
  {
    SumMonotone(db'.pairs, db.pairs, PairWork(cfg), PairWork(cfg));
    SumMonotone(db'.cvs, db.cvs, CvWork(), CvWork());
    SumMonotone(db'.jds, db.jds, JdWork(), JdWork());
  }

  lemma WorkIsNonNegative(cfg: Settings, db: Db)
    requires RowsOk(cfg, db)
    ensures 0 <= Work(cfg, db)
  {
    forall p | 0 <= p < |db.pairs| ensures 0 <= PairWork(cfg)(db.pairs[p]) {
      assert RowOk(cfg, db, db.pairs[p]);
    }
    SumNonNegative(db.pairs, PairWork(cfg));
    SumNonNegative(db.cvs, CvWork());
    SumNonNegative(db.jds, JdWork());
  }

  // ----- a retrieval lease that is held can be given up

  /** A reserved row is worth less than it was. */
  lemma ReservedWork(cfg: Settings, db: Db, c: nat, r: PairRow, r': PairRow)
    requires AttemptsOk(cfg, r)
    requires Reserved(cfg, ExpiredRunning(cfg, db, c), ExpireRunning(cfg, db.clock, c, r), r')
    ensures r' == r || PairWork(cfg)(r') < PairWork(cfg)(r)
  {
  }

  lemma RetrieveWork(cfg: Settings, db: Db, c: nat, locked: set<nat>)
    requires Shape(db) && RowsOk(cfg, db) && c < |db.campaigns|
    ensures var db' := DispatchPairs(cfg, db, c, locked);
      && NoMoreWork(cfg, db, db')
      && (forall p :: 0 <= p < |db.pairs| && db'.pairs[p] != db.pairs[p] ==>
            PairWork(cfg)(db'.pairs[p]) < PairWork(cfg)(db.pairs[p]))
  {
    RetrieveIssues(cfg, db, c, locked);
    RetrieveSameOwners(cfg, db, c, locked);
    forall p | 0 <= p < |db.pairs|
      ensures DispatchPairs(cfg, db, c, locked).pairs[p] == db.pairs[p]
              || PairWork(cfg)(DispatchPairs(cfg, db, c, locked).pairs[p]) < PairWork(cfg)(db.pairs[p])
    {
      assert RowOk(cfg, db, db.pairs[p]);
      RetrievedRow(cfg, db, c, locked, p);
      if db.campaigns[c] == CampaignRunning {
        ReservedWork(cfg, db, c, db.pairs[p], DispatchPairs(cfg, db, c, locked).pairs[p]);
      }
    }
  }

  /** A retrieval dispatch changes a row it must expire. */
  lemma ExpiredChanges(cfg: Settings, db: Db, locked: set<nat>, p: nat)
    requires DbOk(cfg, db) && p < |db.pairs| && db.pairs[p].status == Running && db.pairs[p].until.value < db.clock
    requires db.pairs[p].until.Some?
    ensures DispatchPairs(cfg, db, db.pairs[p].campaign, locked).pairs[p] != db.pairs[p]
  {
    assert RowOk(cfg, db, db.pairs[p]);
    var c := db.pairs[p].campaign;
    RetrievedRow(cfg, db, c, locked, p);
    var expired := ExpireRunning(cfg, db.clock, c, db.pairs[p]);
    assert expired != db.pairs[p];
  }

  /** Let time pass until every lease of a given row is over. */
  lemma Wait(cfg: Settings, w: World, until: int) returns (v: World)
    requires ValidSettings(cfg) && WorldOk(cfg, w)
    ensures WorldOk(cfg, v) && Leads(cfg, w, v)
    ensures v == w.(db := w.db.(clock := v.db.clock)) && until < v.db.clock
  {
    var seconds: nat := Max(0, until + 1 - w.db.clock);
    LeadsNowhere(cfg, w);
    v := LeadsFurther(cfg, w, w, Tick(seconds));
  }

  lemma RunningProgress(cfg: Settings, w: World, p: nat) returns (v: World)
    requires ValidSettings(cfg) && WorldOk(cfg, w) && p < |w.db.pairs| && w.db.pairs[p].status == Running
    ensures WorldOk(cfg, v) && Leads(cfg, w, v) && Work(cfg, v.db) < Work(cfg, w.db)
  {
    assert RowOk(cfg, w.db, w.db.pairs[p]);
    var u := Wait(cfg, w, w.db.pairs[p].until.value);
    v := LeadsFurther(cfg, w, u, Retrieve(u.db.pairs[p].campaign, {}));
    RetrieveWork(cfg, u.db, u.db.pairs[p].campaign, {});
    ExpiredChanges(cfg, u.db, {}, p);
    WorkFalls(cfg, u.db, v.db);
  }

  // ----- a waiting pair can move

  /** With nothing in flight, a retrieval dispatch reserves something when something is dispatchable. */
  lemma SlotsFree(cfg: Settings, db: Db, c: nat)
    requires ValidSettings(cfg)
    requires forall p :: 0 <= p < |db.pairs| ==> db.pairs[p].status != Running
    ensures RetrievalSlots(cfg, db, c) >= 1
  {
    CountPositive(db.pairs, RunningIn(c));
    CountPositive(db.pairs, RunningAnywhere());
  }

  lemma DispatchChanges(cfg: Settings, db: Db, c: nat, p: nat)
    requires ValidSettings(cfg) && DbOk(cfg, db) && c < |db.campaigns| && db.campaigns[c] == CampaignRunning
    requires p < |db.pairs| && Retrievable(db, c, {}, p)
    requires forall q :: 0 <= q < |db.pairs| ==> db.pairs[q].status != Running
    ensures exists q :: 0 <= q < |db.pairs| && q < |DispatchPairs(cfg, db, c, {}).pairs|
                        && DispatchPairs(cfg, db, c, {}).pairs[q] != db.pairs[q]
  {
    var expired := ExpiredRunning(cfg, db, c);
    assert expired.pairs == db.pairs;
    assert expired == db;
    var rows := RetrievalRows(cfg, db, c, {});
    SlotsFree(cfg, db, c);
    RetrievalRowsSound(cfg, db, c, {});
    if rows == [] {
      RetrievalRowsComplete(cfg, db, c, {}, p);
    }
    ReserveAllChanges(cfg, db, rows, |rows|);
    var q := rows[0].pair;
    assert DispatchPairs(cfg, db, c, {}).pairs[q] == RunningRow(cfg, db, db.pairs[q], db.nextToken);
  }

  lemma DispatchWork(cfg: Settings, db: Db, c: nat, p: nat)
    requires ValidSettings(cfg) && DbOk(cfg, db) && c < |db.campaigns| && db.campaigns[c] == CampaignRunning
    requires p < |db.pairs| && Retrievable(db, c, {}, p)
    requires forall q :: 0 <= q < |db.pairs| ==> db.pairs[q].status != Running
    ensures Work(cfg, DispatchPairs(cfg, db, c, {})) < Work(cfg, db)
  {
    RetrieveWork(cfg, db, c, {});
    DispatchChanges(cfg, db, c, p);
    WorkFalls(cfg, db, DispatchPairs(cfg, db, c, {}));
  }

  lemma DispatchProgress(cfg: Settings, w: World, p: nat) returns (v: World)
    requires ValidSettings(cfg) && WorldOk(cfg, w) && p < |w.db.pairs|
    requires Retrievable(w.db, w.db.pairs[p].campaign, {}, p)
    requires w.db.campaigns[w.db.pairs[p].campaign] == CampaignRunning
    requires forall q :: 0 <= q < |w.db.pairs| ==> w.db.pairs[q].status != Running
    ensures WorldOk(cfg, v) && Leads(cfg, w, v) && Work(cfg, v.db) < Work(cfg, w.db)
  {
    var c := w.db.pairs[p].campaign;
    LeadsNowhere(cfg, w);
    v := LeadsFurther(cfg, w, w, Retrieve(c, {}));
    DispatchWork(cfg, w.db, c, p);
  }

  // ----- a CV that has not been read can be

  /** A CV that is decided takes its waiting pairs along; nothing gains work. */
  lemma CvWorkFalls(cfg: Settings, db: Db, db': Db, v: nat, code: string, hit: PairStatus -> bool)
    requires RowsOk(cfg, db) && v < |db.cvs| && !Stage0Done(db.cvs[v].stage0)
    requires |db'.cvs| == |db.cvs| && db'.cvs == db.cvs[v := db'.cvs[v]] && db'.jds == db.jds
    requires db'.pairs == db.pairs || db'.pairs == FailPairs(db.pairs, v, code, hit)
    ensures NoMoreWork(cfg, db, db')
    ensures Stage0Done(db'.cvs[v].stage0) ==> LessSomewhere(cfg, db, db')
  {
    forall p | 0 <= p < |db.pairs| ensures PairWork(cfg)(db'.pairs[p]) <= PairWork(cfg)(db.pairs[p]) {
      assert RowOk(cfg, db, db.pairs[p]);
    }
    if Stage0Done(db'.cvs[v].stage0) {
      assert CvWork()(db'.cvs[v]) < CvWork()(db.cvs[v]);
    }
  }

  lemma ClaimWork(cfg: Settings, db: Db, v: nat)
    requires RowsOk(cfg, db) && v < |db.cvs| && !Stage0Done(db.cvs[v].stage0)
    ensures NoMoreWork(cfg, db, ClaimStage0(cfg, db, v))
    ensures ClaimOutcome(cfg, db, v) == PdfMissing ==> LessSomewhere(cfg, db, ClaimStage0(cfg, db, v))
    ensures ClaimOutcome(cfg, db, v) != PdfMissing ==> !Stage0Done(ClaimStage0(cfg, db, v).cvs[v].stage0)
  {
    CvWorkFalls(cfg, db, ClaimStage0(cfg, db, v), v, "PDF_MISSING", IsPending());
  }

  lemma FinishWork(cfg: Settings, db: Db, v: nat, text: string)
    requires RowsOk(cfg, db) && v < |db.cvs| && !Stage0Done(db.cvs[v].stage0)
    ensures NoMoreWork(cfg, db, FinishStage0(db, v, Text(text)))
    ensures LessSomewhere(cfg, db, FinishStage0(db, v, Text(text)))
  {
    CvWorkFalls(cfg, db, FinishStage0(db, v, Text(text)), v, "", IsPending());
  }

  ghost predicate Waiting(db: Db, cv: nat) {
    && cv < |db.cvs| && !Stage0Done(db.cvs[cv].stage0)
    && db.cvs[cv].campaign < |db.campaigns| && db.campaigns[db.cvs[cv].campaign] == CampaignRunning
  }

  /** A message for the document is out, and the row's stamp is older than a lease. */
  ghost predicate Overdue(cfg: Settings, w: World, cv: nat, at: int) {
    && Waiting(w.db, cv) && Notice(cv, at) in w.notices
    && w.db.cvs[cv].updatedAt < w.db.clock - LeaseLength(cfg)
  }

  function Stamped(db: Db, cv: nat): Db
    requires cv < |db.cvs|
  {
    db.(cvs := db.cvs[cv := db.cvs[cv].(updatedAt := db.clock)])
  }

  lemma StampedWork(cfg: Settings, db: Db, cv: nat)
    requires cv < |db.cvs|
    ensures Work(cfg, Stamped(db, cv)) <= Work(cfg, db)
  {
    WorkFalls(cfg, db, Stamped(db, cv));
  }

  lemma RecoverEffect(cfg: Settings, w: World, cv: nat)
    requires Enabled(cfg, w, Stage0Recover(cv)) && cv < |w.db.cvs| && w.db.cvs[cv].campaign < |w.db.campaigns|
    requires NeedsRecovery(cfg, w.db, cv)
    ensures var v := Apply(cfg, w, Stage0Recover(cv));
      v.db == Stamped(w.db, cv) && Notice(cv, w.db.clock) in v.notices
  {
  }

  lemma Recovered(cfg: Settings, w: World, cv: nat) returns (v: World)
    requires ValidSettings(cfg) && WorldOk(cfg, w) && Waiting(w.db, cv) && NeedsRecovery(cfg, w.db, cv)
    ensures WorldOk(cfg, v) && Leads(cfg, w, v)
    ensures v.db == Stamped(w.db, cv) && Notice(cv, w.db.clock) in v.notices
  {
    RecoverEffect(cfg, w, cv);
    LeadsNowhere(cfg, w);
    v := LeadsFurther(cfg, w, w, Stage0Recover(cv));
  }

  /** Recovery publishes a message once the row's stamp is old enough; the message then arrives late. */
  lemma LateMessage(cfg: Settings, w: World, cv: nat) returns (v: World, at: int)
    requires ValidSettings(cfg) && WorldOk(cfg, w) && Waiting(w.db, cv)
    ensures WorldOk(cfg, v) && Leads(cfg, w, v) && Overdue(cfg, v, cv, at) && Work(cfg, v.db) <= Work(cfg, w.db)
  {
    var u := Wait(cfg, w, w.db.cvs[cv].updatedAt + LeaseLength(cfg) + cfg.queueRecovery);
    at := u.db.clock;
    var recovered := Recovered(cfg, u, cv);
    LeadsOn(cfg, w, u, recovered);
    v := Wait(cfg, recovered, at + LeaseLength(cfg));
    LeadsOn(cfg, w, recovered, v);
    StampedWork(cfg, u.db, cv);
  }

  lemma ClaimEffect(cfg: Settings, w: World, cv: nat, at: int)
    requires Enabled(cfg, w, Stage0Claim(cv, at)) && ClaimOutcome(cfg, w.db, cv).Claimed?
    ensures var v := Apply(cfg, w, Stage0Claim(cv, at));
      && v.db == ClaimStage0(cfg, w.db, cv)
      && w.nextWorker in v.workers && v.workers[w.nextWorker] == Extractor(cv)
  {
  }

  lemma FinishExtraction(cfg: Settings, w: World, u: World, id: nat, cv: nat) returns (v: World)
    requires ValidSettings(cfg) && WorldOk(cfg, u) && Leads(cfg, w, u)
    requires id in u.workers && u.workers[id] == Extractor(cv) && cv < |u.db.cvs| && !Stage0Done(u.db.cvs[cv].stage0)
    ensures WorldOk(cfg, v) && Leads(cfg, w, v) && Work(cfg, v.db) < Work(cfg, u.db)
  {
    v := LeadsFurther(cfg, w, u, Stage0Finish(id, Text("")));
    FinishWork(cfg, u.db, cv, "");
    WorkFalls(cfg, u.db, v.db);
  }

  lemma ClaimOverdue(cfg: Settings, w: World, u: World, cv: nat, at: int) returns (v: World)
    requires ValidSettings(cfg) && WorldOk(cfg, u) && Leads(cfg, w, u) && Overdue(cfg, u, cv, at)
    ensures WorldOk(cfg, v) && Leads(cfg, w, v) && Work(cfg, v.db) < Work(cfg, u.db)
  {
    var outcome := ClaimOutcome(cfg, u.db, cv);
    v := LeadsFurther(cfg, w, u, Stage0Claim(cv, at));
    ClaimWork(cfg, u.db, cv);
    WorkFalls(cfg, u.db, v.db);
    if outcome.Claimed? {
      ClaimEffect(cfg, u, cv, at);
      v := FinishExtraction(cfg, w, v, u.nextWorker, cv);
    }
  }

  lemma Stage0Progress(cfg: Settings, w: World, cv: nat) returns (v: World)
    requires ValidSettings(cfg) && WorldOk(cfg, w) && Waiting(w.db, cv)
    ensures WorldOk(cfg, v) && Leads(cfg, w, v) && Work(cfg, v.db) < Work(cfg, w.db)
  {
    var u, at := LateMessage(cfg, w, cv);
    v := ClaimOverdue(cfg, w, u, cv, at);
  }

  // ----- a JD whose pairs are all out or ready can be finalized

  lemma BarrierWork(cfg: Settings, db: Db, j: nat)
    requires DbOk(cfg, db) && j < |db.jds| && Finalizes(db, j)
    ensures NoMoreWork(cfg, db, FinalizeJd(db, j)) && LessSomewhere(cfg, db, FinalizeJd(db, j))
  {
    var db' := FinalizeJd(db, j);
    FinalizeWrites(db, j);
    forall p | 0 <= p < |db.pairs| ensures PairWork(cfg)(db'.pairs[p]) <= PairWork(cfg)(db.pairs[p]) {
      BarrierRowChanges(cfg, db, j, p);
    }
    assert JdWork()(db'.jds[j]) < JdWork()(db.jds[j]);
  }

  lemma BarrierProgress(cfg: Settings, w: World, j: nat) returns (v: World)
    requires ValidSettings(cfg) && WorldOk(cfg, w) && j < |w.db.jds| && JdOpen(w.db.jds[j].status)
    requires w.db.campaigns[w.db.jds[j].campaign] == CampaignRunning
    requires forall p :: 0 <= p < |w.db.pairs| && w.db.pairs[p].jd == j ==>
               w.db.pairs[p].status != Pending && w.db.pairs[p].status != Running
    ensures WorldOk(cfg, v) && Leads(cfg, w, v) && Work(cfg, v.db) < Work(cfg, w.db)
  {
    ReadyToFinalize(cfg, w.db, j);
    LeadsNowhere(cfg, w);
    v := LeadsFurther(cfg, w, w, Barrier(j));
    BarrierWork(cfg, w.db, j);
    WorkFalls(cfg, w.db, v.db);
  }

  lemma ReadyToFinalize(cfg: Settings, db: Db, j: nat)
    requires DbOk(cfg, db) && j < |db.jds| && JdOpen(db.jds[j].status)
    requires forall p :: 0 <= p < |db.pairs| && db.pairs[p].jd == j ==>
               db.pairs[p].status != Pending && db.pairs[p].status != Running
    ensures Finalizes(db, j)
  {
    forall p | 0 <= p < |db.pairs| && db.pairs[p].jd == j
      ensures DoneBeforeCutoff(db.pairs[p].status) || db.pairs[p].status == Stage2Ready
      ensures db.pairs[p].status == Stage2Ready ==> db.pairs[p].evidence.Some?
    {
      assert RowOk(cfg, db, db.pairs[p]);
    }
  }

  // ----- a shortlisted pair can be evaluated

  lemma EvaluateWork(cfg: Settings, db: Db, c: nat, locked: set<nat>)
    requires Shape(db) && c < |db.campaigns|
    ensures var db' := DispatchStage3(cfg, db, c, locked);
      && NoMoreWork(cfg, db, db')
      && (forall p | 0 <= p < |db.pairs| && db.pairs[p].status == Stage3Running ::
            db'.pairs[p].status == EvaluationFailed ==> LessSomewhere(cfg, db, db'))
  {
    EvaluateIssues(cfg, db, c, locked);
    EvaluateSameOwners(cfg, db, c, locked);
    var db' := DispatchStage3(cfg, db, c, locked);
    forall p | 0 <= p < |db.pairs| ensures PairWork(cfg)(db'.pairs[p]) <= PairWork(cfg)(db.pairs[p]) {
      EvaluateRows(cfg, db, c, locked, p);
      if db.campaigns[c] == CampaignRunning {
        ClaimedWork(cfg, db, c, db.pairs[p], db'.pairs[p]);
      }
    }
    forall p | 0 <= p < |db.pairs| && db'.pairs[p].status == EvaluationFailed && db.pairs[p].status == Stage3Running
      ensures LessSomewhere(cfg, db, db')
    {
      assert PairWork(cfg)(db'.pairs[p]) < PairWork(cfg)(db.pairs[p]);
    }
  }

  lemma ClaimedWork(cfg: Settings, db: Db, c: nat, r: PairRow, r': PairRow)
    requires CampaignBudget.Claimed(cfg, db, ExpireEvaluating(cfg, db.clock, c, r), r')
    ensures PairWork(cfg)(r') <= PairWork(cfg)(r)
  {
  }

  lemma OneRowWork(cfg: Settings, db: Db, p: nat, r': PairRow)
    requires p < |db.pairs| && PairWork(cfg)(r') <= PairWork(cfg)(db.pairs[p])
    ensures NoMoreWork(cfg, db, db.(pairs := db.pairs[p := r']))
    ensures PairWork(cfg)(r') < PairWork(cfg)(db.pairs[p]) ==> LessSomewhere(cfg, db, db.(pairs := db.pairs[p := r']))
  {
    if PairWork(cfg)(r') < PairWork(cfg)(db.pairs[p]) {
      assert PairWork(cfg)(db.pairs[p := r'][p]) < PairWork(cfg)(db.pairs[p]);
    }
  }

  function CountedRow(r: PairRow): PairRow {
    r.(stage3Attempts := r.stage3Attempts + 1)
  }

  function ParkedRow(r: PairRow, clock: int): PairRow {
    r.(status := Shortlisted, lease := None, until := Some(clock))
  }

  lemma DeliverEffect(cfg: Settings, w: World, p: nat, t: nat)
    requires Enabled(cfg, w, EvaluateDeliver(p, t)) && Holds(w.db.pairs[p], Stage3Running, t)
    ensures var v := Apply(cfg, w, EvaluateDeliver(p, t));
      && v.db == w.db && v.sent == w.sent && v.nextWorker == w.nextWorker + 1
      && v.workers == w.workers[w.nextWorker := Evaluator(p, t, None)]
  {
  }

  lemma CountEffect(cfg: Settings, w: World, id: nat, p: nat, t: nat)
    requires Enabled(cfg, w, EvaluateCount(id)) && w.workers[id] == Evaluator(p, t, None)
    requires Holds(w.db.pairs[p], Stage3Running, t)
    ensures var v, r := Apply(cfg, w, EvaluateCount(id)), w.db.pairs[p];
      && v.db == w.db.(pairs := w.db.pairs[p := CountedRow(r)])
      && v.workers == w.workers[id := Evaluator(p, t, Some(r.stage3Attempts + 1))]
  {
  }

  lemma ParkEffect(cfg: Settings, w: World, id: nat, p: nat, t: nat)
    requires Enabled(cfg, w, EvaluatePark(id, 0)) && w.workers[id] == Evaluator(p, t, None)
    requires Holds(w.db.pairs[p], Stage3Running, t)
    ensures Apply(cfg, w, EvaluatePark(id, 0)).db
         == w.db.(pairs := w.db.pairs[p := ParkedRow(w.db.pairs[p], w.db.clock)])
  {
  }

  lemma ReviewedWork(cfg: Settings, db: Db, p: nat, t: nat)
    requires p < |db.pairs| && Holds(db.pairs[p], Stage3Running, t)
    ensures Work(cfg, FinishEvaluating(db, p, t, NeedsReview)) < Work(cfg, db)
  {
    var db' := FinishEvaluating(db, p, t, NeedsReview);
    OneRowWork(cfg, db, p, db'.pairs[p]);
    WorkFalls(cfg, db, db');
  }

  /** A worker that holds the lease and has counted its attempt stores a result. */
  lemma StoreResult(cfg: Settings, w: World, u: World, id: nat) returns (v: World)
    requires ValidSettings(cfg) && WorldOk(cfg, u) && Leads(cfg, w, u)
    requires Evaluating(u, id) && u.workers[id].attempt.Some?
    requires Holds(u.db.pairs[u.workers[id].pair], Stage3Running, u.workers[id].token)
    ensures WorldOk(cfg, v) && Leads(cfg, w, v) && Work(cfg, v.db) < Work(cfg, u.db)
  {
    ReviewedWork(cfg, u.db, u.workers[id].pair, u.workers[id].token);
    v := LeadsFurther(cfg, w, u, EvaluateFinish(id, NeedsReview));
  }

  lemma SendOne(cfg: Settings, w: World, u: World, p: nat, t: nat) returns (v: World)
    requires ValidSettings(cfg) && WorldOk(cfg, u) && Leads(cfg, w, u) && Ticket(EvaluateTask, p, t) in u.reserved
    ensures WorldOk(cfg, v) && Leads(cfg, w, v) && v.db == u.db && Ticket(EvaluateTask, p, t) in v.sent
  {
    v := LeadsFurther(cfg, w, u, EvaluateSend(p, t));
  }

  lemma DeliverOne(cfg: Settings, w: World, u: World, p: nat, t: nat) returns (v: World)
    requires ValidSettings(cfg) && WorldOk(cfg, u) && Leads(cfg, w, u) && Ticket(EvaluateTask, p, t) in u.sent
    requires p < |u.db.pairs| && Holds(u.db.pairs[p], Stage3Running, t)
    ensures WorldOk(cfg, v) && Leads(cfg, w, v) && v.db == u.db && v.sent == u.sent
    ensures v.nextWorker == u.nextWorker + 1 && v.workers == u.workers[u.nextWorker := Evaluator(p, t, None)]
  {
    assert Enabled(cfg, u, EvaluateDeliver(p, t));
    DeliverEffect(cfg, u, p, t);
    v := LeadsFurther(cfg, w, u, EvaluateDeliver(p, t));
  }

  lemma CountOne(cfg: Settings, w: World, u: World, p: nat, t: nat, id: nat) returns (v: World)
    requires ValidSettings(cfg) && WorldOk(cfg, u) && Leads(cfg, w, u)
    requires id in u.workers && u.workers[id] == Evaluator(p, t, None)
    requires p < |u.db.pairs| && Holds(u.db.pairs[p], Stage3Running, t)
    ensures WorldOk(cfg, v) && Leads(cfg, w, v)
    ensures v.db == u.db.(pairs := u.db.pairs[p := CountedRow(u.db.pairs[p])])
    ensures v.workers == u.workers[id := Evaluator(p, t, Some(u.db.pairs[p].stage3Attempts + 1))]
  {
    assert Enabled(cfg, u, EvaluateCount(id));
    CountEffect(cfg, u, id, p, t);
    v := LeadsFurther(cfg, w, u, EvaluateCount(id));
  }

  lemma CountedWork(cfg: Settings, u: Db, v: Db, p: nat)
    requires p < |u.pairs| && u.pairs[p].status == Stage3Running
    requires v == u.(pairs := u.pairs[p := CountedRow(u.pairs[p])])
    ensures Work(cfg, v) <= Work(cfg, u)
  {
    OneRowWork(cfg, u, p, CountedRow(u.pairs[p]));
    WorkFalls(cfg, u, v);
  }

  lemma EvaluateOne(cfg: Settings, w: World, u: World, p: nat, t: nat) returns (v: World)
    requires ValidSettings(cfg) && WorldOk(cfg, u) && Leads(cfg, w, u)
    requires Ticket(EvaluateTask, p, t) in u.reserved && p < |u.db.pairs| && Holds(u.db.pairs[p], Stage3Running, t)
    ensures WorldOk(cfg, v) && Leads(cfg, w, v) && Work(cfg, v.db) < Work(cfg, u.db)
  {
    var sent := SendOne(cfg, w, u, p, t);
    var held := DeliverOne(cfg, w, sent, p, t);
    var counted := CountOne(cfg, w, held, p, t, sent.nextWorker);
    CountedWork(cfg, held.db, counted.db, p);
    v := StoreResult(cfg, w, counted, sent.nextWorker);
  }

  lemma FirstRow(cfg: Settings, db: Db, c: nat, locked: set<nat>, p: nat)
    requires ValidSettings(cfg) && Shape(db) && p < |db.pairs| && Evaluable(db, c, locked, p)
    requires Count(db.pairs, EvaluatingAnywhere()) < cfg.stage3GlobalInflight
    ensures var rows := EvaluationRows(cfg, db, c, locked);
      && rows != [] && DistinctRows(db, rows) && rows[0].pair < |db.pairs| && rows[0].pair !in locked
      && |ClaimAll(cfg, db, rows, |rows|).pairs| == |db.pairs|
      && ClaimAll(cfg, db, rows, |rows|).pairs[rows[0].pair]
         == EvaluatingRow(cfg, db, db.pairs[rows[0].pair], db.nextToken)
  {
    var rows := EvaluationRows(cfg, db, c, locked);
    EvaluationRowsSound(cfg, db, c, locked);
    if rows == [] {
      EvaluationRowsComplete(cfg, db, c, locked, p);
    }
    FirstClaimed(cfg, db, rows);
  }

  lemma FirstClaimed(cfg: Settings, db: Db, rows: seq<QueueRow>)
    requires DistinctRows(db, rows) && rows != []
    ensures |ClaimAll(cfg, db, rows, |rows|).pairs| == |db.pairs|
    ensures ClaimAll(cfg, db, rows, |rows|).pairs[rows[0].pair]
         == EvaluatingRow(cfg, db, db.pairs[rows[0].pair], db.nextToken)
  {
    ClaimAllChanges(cfg, db, rows, |rows|);
    assert db.nextToken + 0 == db.nextToken;
  }

  /** Once its expired leases are taken back, a dispatch of the campaign has a slot and can claim `p`. */
  ghost predicate Offered(cfg: Settings, db: Db, c: nat, locked: set<nat>, p: nat) {
    var expired := ExpiredEvaluating(cfg, db, c);
    && Shape(db) && c < |db.campaigns| && db.campaigns[c] == CampaignRunning && p < |db.pairs|
    && Shape(expired) && Evaluable(expired, c, locked, p)
    && Count(expired.pairs, EvaluatingAnywhere()) < cfg.stage3GlobalInflight
  }

  lemma ExpiredShape(cfg: Settings, db: Db, c: nat)
    requires Shape(db)
    ensures Shape(ExpiredEvaluating(cfg, db, c))
  {
    var expired := ExpiredEvaluating(cfg, db, c);
    forall p | 0 <= p < |expired.pairs| ensures RowShape(expired, expired.pairs[p]) {
      assert RowShape(db, db.pairs[p]);
    }
  }

  /** After the leases of a campaign are over, a dispatch claims a pair if one is claimable. */
  lemma FirstClaim(cfg: Settings, db: Db, c: nat, locked: set<nat>, p: nat) returns (q: nat)
    requires ValidSettings(cfg) && Offered(cfg, db, c, locked, p)
    ensures var rows, db' := EvaluatedRows(cfg, db, c, locked), DispatchStage3(cfg, db, c, locked);
      && rows != [] && rows[0].pair == q < |db'.pairs| == |db.pairs| && q !in locked
      && db'.pairs[q] == EvaluatingRow(cfg, db, ExpireEvaluating(cfg, db.clock, c, db.pairs[q]), db.nextToken)
  {
    FirstRow(cfg, ExpiredEvaluating(cfg, db, c), c, locked, p);
    q := EvaluatedRows(cfg, db, c, locked)[0].pair;
  }

  lemma ClaimAndEvaluate(cfg: Settings, w: World, u: World, c: nat, p: nat) returns (v: World)
    requires ValidSettings(cfg) && WorldOk(cfg, u) && Leads(cfg, w, u) && Offered(cfg, u.db, c, {}, p)
    ensures WorldOk(cfg, v) && Leads(cfg, w, v) && Work(cfg, v.db) < Work(cfg, u.db)
  {
    var claimed := LeadsFurther(cfg, w, u, Evaluate(c, {}));
    EvaluateWork(cfg, u.db, c, {});
    WorkFalls(cfg, u.db, claimed.db);
    var q := FirstClaim(cfg, u.db, c, {}, p);
    var rows := EvaluatedRows(cfg, u.db, c, {});
    assert Ticket(EvaluateTask, q, u.db.nextToken + 0) in Tickets(EvaluateTask, rows, u.db.nextToken);
    v := EvaluateOne(cfg, w, claimed, q, u.db.nextToken);
  }

  lemma ShortlistedProgress(cfg: Settings, w: World, p: nat) returns (v: World)
    requires ValidSettings(cfg) && WorldOk(cfg, w) && p < |w.db.pairs| && w.db.pairs[p].status == Shortlisted
    requires forall q :: 0 <= q < |w.db.pairs| ==> w.db.pairs[q].status != Stage3Running
    ensures WorldOk(cfg, v) && Leads(cfg, w, v) && Work(cfg, v.db) < Work(cfg, w.db)
  {
    var r := w.db.pairs[p];
    assert RowOk(cfg, w.db, r);
    var u := Wait(cfg, w, if r.until.Some? then r.until.value else 0);
    ShortlistedOffered(cfg, u.db, p);
    v := ClaimAndEvaluate(cfg, w, u, r.campaign, p);
  }

  lemma ShortlistedOffered(cfg: Settings, db: Db, p: nat)
    requires ValidSettings(cfg) && Shape(db) && p < |db.pairs| && RowOk(cfg, db, db.pairs[p])
    requires db.pairs[p].status == Shortlisted && (db.pairs[p].until.Some? ==> db.pairs[p].until.value <= db.clock)
    requires forall q :: 0 <= q < |db.pairs| ==> db.pairs[q].status != Stage3Running
    ensures Offered(cfg, db, db.pairs[p].campaign, {}, p)
  {
    var expired := ExpiredEvaluating(cfg, db, db.pairs[p].campaign);
    assert expired.pairs == db.pairs;
    CountPositive(expired.pairs, EvaluatingAnywhere());
  }

  lemma ExpiredOffered(cfg: Settings, db: Db, p: nat)
    requires ValidSettings(cfg) && Shape(db) && p < |db.pairs| && RowOk(cfg, db, db.pairs[p])
    requires WithinLimits(cfg, db.pairs)
    requires var r := db.pairs[p];
      r.status == Stage3Running && r.until.value < db.clock && r.stage3Attempts < cfg.stage3MaxAttempts
    ensures Offered(cfg, db, db.pairs[p].campaign, {}, p)
  {
    var c := db.pairs[p].campaign;
    ExpiredShape(cfg, db, c);
    CountStrict(ExpiredEvaluating(cfg, db, c).pairs, db.pairs, EvaluatingAnywhere(), EvaluatingAnywhere(), p);
  }

  /** The dispatch fails a pair whose lease is over and whose attempts are used up. */
  lemma ExhaustedWork(cfg: Settings, db: Db, p: nat)
    requires Shape(db) && p < |db.pairs| && RowOk(cfg, db, db.pairs[p])
    requires var r := db.pairs[p];
      r.status == Stage3Running && r.until.value < db.clock && r.stage3Attempts >= cfg.stage3MaxAttempts
    ensures Work(cfg, DispatchStage3(cfg, db, db.pairs[p].campaign, {})) < Work(cfg, db)
  {
    var c := db.pairs[p].campaign;
    EvaluateRows(cfg, db, c, {}, p);
    EvaluateWork(cfg, db, c, {});
    WorkFalls(cfg, db, DispatchStage3(cfg, db, c, {}));
  }

  lemma EvaluatingProgress(cfg: Settings, w: World, p: nat) returns (v: World)
    requires ValidSettings(cfg) && WorldOk(cfg, w) && p < |w.db.pairs| && w.db.pairs[p].status == Stage3Running
    ensures WorldOk(cfg, v) && Leads(cfg, w, v) && Work(cfg, v.db) < Work(cfg, w.db)
  {
    var r := w.db.pairs[p];
    assert RowOk(cfg, w.db, r);
    var u := Wait(cfg, w, r.until.value);
    assert RowOk(cfg, u.db, u.db.pairs[p]);
    if r.stage3Attempts >= cfg.stage3MaxAttempts {
      ExhaustedWork(cfg, u.db, p);
      v := LeadsFurther(cfg, w, u, Evaluate(r.campaign, {}));
    } else {
      ExpiredOffered(cfg, u.db, p);
      v := ClaimAndEvaluate(cfg, w, u, r.campaign, p);
    }
  }

  // ----- every running campaign can complete

  ghost predicate Started(db: Db, c: nat) {
    c < |db.campaigns| && db.campaigns[c] == CampaignRunning && HasJd(db.jds, c)
  }

  lemma LeadsOk(cfg: Settings, w: World, v: World, c: nat)
    requires ValidSettings(cfg) && WorldOk(cfg, w) && Leads(cfg, w, v) && Started(w.db, c)
    ensures WorldOk(cfg, v) && c < |v.db.campaigns|
    ensures Started(v.db, c) || v.db.campaigns[c] == CampaignCompleted
  {
    var run :| Legal(cfg, w, run) && After(cfg, w, run) == v;
    RunOk(cfg, w, run);
    assert CampaignPhase(w.db.campaigns[c]) <= CampaignPhase(v.db.campaigns[c]);
    var j :| 0 <= j < |w.db.jds| && w.db.jds[j].campaign == c;
    assert v.db.jds[j] == w.db.jds[j].(status := v.db.jds[j].status);
  }

  lemma CompletionFires(cfg: Settings, w: World, c: nat) returns (v: World)
    requires ValidSettings(cfg) && WorldOk(cfg, w) && Started(w.db, c)
    requires forall j :: 0 <= j < |w.db.jds| && w.db.jds[j].campaign == c ==> !JdOpen(w.db.jds[j].status)
    requires forall p :: 0 <= p < |w.db.pairs| && w.db.pairs[p].campaign == c ==> Terminal(w.db.pairs[p].status)
    ensures Leads(cfg, w, v) && c < |v.db.campaigns| && v.db.campaigns[c] == CampaignCompleted
  {
    LeadsNowhere(cfg, w);
    v := LeadsFurther(cfg, w, w, Complete(c));
    EveryJdDone(w.db, c);
  }

  lemma EveryJdDone(db: Db, c: nat)
    requires Shape(db) && Started(db, c)
    requires forall j :: 0 <= j < |db.jds| && db.jds[j].campaign == c ==> !JdOpen(db.jds[j].status)
    requires forall p :: 0 <= p < |db.pairs| && db.pairs[p].campaign == c ==> Terminal(db.pairs[p].status)
    ensures EveryJdCompleted(CompletedJds(db, c), c)
  {
    var jds := CompletedJds(db, c);
    forall j | 0 <= j < |jds| && jds[j].campaign == c ensures jds[j].status == JdCompleted {
      assert jds[j] == CompleteJd(db, c, j);
      assert forall p :: 0 <= p < |db.pairs| && db.pairs[p].jd == j ==> RowShape(db, db.pairs[p]);
    }
    var j :| 0 <= j < |db.jds| && db.jds[j].campaign == c;
    assert jds[j] == CompleteJd(db, c, j);
  }

  /** Work left below the barrier: a pending pair of the campaign, with nothing in flight, can move. */
  lemma PendingProgress(cfg: Settings, w: World, p: nat) returns (v: World)
    requires ValidSettings(cfg) && WorldOk(cfg, w) && p < |w.db.pairs| && w.db.pairs[p].status == Pending
    requires w.db.pairs[p].campaign < |w.db.campaigns| && w.db.campaigns[w.db.pairs[p].campaign] == CampaignRunning
    requires forall q :: 0 <= q < |w.db.pairs| ==> w.db.pairs[q].status != Running
    ensures WorldOk(cfg, v) && Leads(cfg, w, v) && Work(cfg, v.db) < Work(cfg, w.db)
  {
    var r := w.db.pairs[p];
    assert RowOk(cfg, w.db, r);
    if Stage0Done(w.db.cvs[r.cv].stage0) {
      v := DispatchProgress(cfg, w, p);
    } else {
      v := Stage0Progress(cfg, w, r.cv);
    }
  }

  lemma Progress(cfg: Settings, w: World, c: nat) returns (v: World)
    requires ValidSettings(cfg) && WorldOk(cfg, w) && Started(w.db, c)
    ensures Leads(cfg, w, v) && c < |v.db.campaigns|
    ensures v.db.campaigns[c] == CampaignCompleted || Work(cfg, v.db) < Work(cfg, w.db)
  {
    var db := w.db;
    if p :| 0 <= p < |db.pairs| && db.pairs[p].status == Running {
      v := RunningProgress(cfg, w, p);
      LeadsOk(cfg, w, v, c);
    } else if p :| 0 <= p < |db.pairs| && db.pairs[p].campaign == c && db.pairs[p].status == Pending {
      v := PendingProgress(cfg, w, p);
      LeadsOk(cfg, w, v, c);
    } else if j :| 0 <= j < |db.jds| && db.jds[j].campaign == c && JdOpen(db.jds[j].status) {
      assert forall p :: 0 <= p < |db.pairs| && db.pairs[p].jd == j ==> RowShape(db, db.pairs[p]);
      v := BarrierProgress(cfg, w, j);
      LeadsOk(cfg, w, v, c);
    } else if p :| 0 <= p < |db.pairs| && db.pairs[p].status == Stage3Running {
      v := EvaluatingProgress(cfg, w, p);
      LeadsOk(cfg, w, v, c);
    } else if p :| 0 <= p < |db.pairs| && db.pairs[p].campaign == c && db.pairs[p].status == Shortlisted {
      v := ShortlistedProgress(cfg, w, p);
      LeadsOk(cfg, w, v, c);
    } else {
      OthersTerminal(cfg, db, c);
      v := CompletionFires(cfg, w, c);
    }
  }

  lemma OthersTerminal(cfg: Settings, db: Db, c: nat)
    requires DbOk(cfg, db)
    requires forall p :: 0 <= p < |db.pairs| ==> !Leased(db.pairs[p].status)
    requires forall p :: 0 <= p < |db.pairs| && db.pairs[p].campaign == c ==>
               db.pairs[p].status != Pending && db.pairs[p].status != Shortlisted
    requires forall j :: 0 <= j < |db.jds| && db.jds[j].campaign == c ==> !JdOpen(db.jds[j].status)
    ensures forall p :: 0 <= p < |db.pairs| && db.pairs[p].campaign == c ==> Terminal(db.pairs[p].status)
  {
    forall p | 0 <= p < |db.pairs| && db.pairs[p].campaign == c ensures Terminal(db.pairs[p].status) {
      assert RowOk(cfg, db, db.pairs[p]);
    }
  }

  lemma {:induction false} Completes(cfg: Settings, w: World, c: nat) returns (v: World)
    requires ValidSettings(cfg) && WorldOk(cfg, w) && Started(w.db, c)
    ensures Leads(cfg, w, v) && c < |v.db.campaigns| && v.db.campaigns[c] == CampaignCompleted
    decreases Work(cfg, w.db)
  {
    v := Progress(cfg, w, c);
    LeadsOk(cfg, w, v, c);
    if v.db.campaigns[c] != CampaignCompleted {
      var u := v;
      WorkIsNonNegative(cfg, u.db);
      WorkIsNonNegative(cfg, w.db);
      v := Completes(cfg, u, c);
      LeadsOn(cfg, w, u, v);
    }
  }

  /** A campaign is created with a JD and keeps it. */
  lemma ReachableHasJd(cfg: Settings, w: World, c: nat)
    requires ValidSettings(cfg) && Reachable(cfg, w) && c < |w.db.campaigns|
    ensures HasJd(w.db.jds, c)
  {
    var start, run :| Initial(start) && Legal(cfg, start, run) && After(cfg, start, run) == w;
    InitialOk(cfg, start);
    RunOk(cfg, start, run);
    assert HasJd(start.db.jds, c);
    var j :| 0 <= j < |start.db.jds| && start.db.jds[j].campaign == c;
    assert w.db.jds[j] == start.db.jds[j].(status := w.db.jds[j].status);
  }

  /** No stuck state: whatever has happened so far, a running campaign can still complete. */
  lemma NeverStuck(cfg: Settings, w: World, c: nat)
    requires ValidSettings(cfg) && Reachable(cfg, w)
    requires c < |w.db.campaigns| && w.db.campaigns[c] == CampaignRunning
    ensures exists v :: Leads(cfg, w, v) && c < |v.db.campaigns| && v.db.campaigns[c] == CampaignCompleted
  {
    ReachableOk(cfg, w);
    ReachableHasJd(cfg, w, c);
    var v := Completes(cfg, w, c);
  }

  /** A JD the completion step counts as done: completed before, or past its barrier with every pair terminal. */
  ghost predicate JdDone(db: Db, j: nat)
    requires j < |db.jds|
  {
    db.jds[j].status == JdCompleted || (db.jds[j].status == JdShortlisted && AllTerminal(db, j))
  }

  /** The completion step fires exactly when the campaign has a JD and every JD of it is done. */
  lemma CompletionIsExact(db: Db, c: nat)
    requires c < |db.campaigns| && db.campaigns[c] == CampaignRunning
    ensures FinalizeCampaign(db, c).campaigns[c] == CampaignCompleted
      <==> HasJd(db.jds, c) && forall j :: 0 <= j < |db.jds| && db.jds[j].campaign == c ==> JdDone(db, j)
  {
    var jds := CompletedJds(db, c);
    forall j | 0 <= j < |db.jds|
      ensures jds[j].campaign == db.jds[j].campaign
      ensures jds[j].campaign == c ==> (jds[j].status == JdCompleted <==> JdDone(db, j))
    {
      assert jds[j] == CompleteJd(db, c, j);
    }
    assert HasJd(jds, c) <==> HasJd(db.jds, c);
  }

  // ----- duplicates

  ghost predicate NoneExpired(cfg: Settings, db: Db, c: nat) {
    forall q :: 0 <= q < |db.pairs| ==> ExpireEvaluating(cfg, db.clock, c, db.pairs[q]) == db.pairs[q]
  }

  /** The pair is being evaluated under `t`, whose message is out. */
  ghost predicate InEvaluation(cfg: Settings, w: World, p: nat, t: nat) {
    && WorldOk(cfg, w) && p < |w.db.pairs| && Holds(w.db.pairs[p], Stage3Running, t)
    && Ticket(EvaluateTask, p, t) in w.sent
    && NoneExpired(cfg, w.db, w.db.pairs[p].campaign)
  }

  ghost predicate Claimable(cfg: Settings, w: World, p: nat) {
    && WorldOk(cfg, w) && p < |w.db.pairs| && w.db.pairs[p].status == Shortlisted
    && (w.db.pairs[p].until.None? || w.db.pairs[p].until.value <= w.db.clock)
    && NoneExpired(cfg, w.db, w.db.pairs[p].campaign)
    && Count(w.db.pairs, EvaluatingAnywhere()) < cfg.stage3GlobalInflight
  }

  lemma DispatchLeavesNoneExpired(cfg: Settings, db: Db, c: nat, locked: set<nat>)
    requires Shape(db) && c < |db.campaigns| && NoneExpired(cfg, db, c)
    ensures NoneExpired(cfg, DispatchStage3(cfg, db, c, locked), c)
  {
    EvaluateIssues(cfg, db, c, locked);
    var db' := DispatchStage3(cfg, db, c, locked);
    EvaluateClock(cfg, db, c, locked);
    forall q | 0 <= q < |db'.pairs| ensures ExpireEvaluating(cfg, db'.clock, c, db'.pairs[q]) == db'.pairs[q] {
      EvaluateRows(cfg, db, c, locked, q);
    }
  }

  lemma EvaluateClock(cfg: Settings, db: Db, c: nat, locked: set<nat>)
    requires Shape(db) && c < |db.campaigns|
    ensures DispatchStage3(cfg, db, c, locked).clock == db.clock
  {
    if db.campaigns[c] == CampaignRunning {
      var expired := ExpiredEvaluating(cfg, db, c);
      EvaluationRowsSound(cfg, expired, c, locked);
      ClaimAllChanges(cfg, expired, EvaluationRows(cfg, expired, c, locked), |EvaluationRows(cfg, expired, c, locked)|);
    }
  }

  predicate Other(p: nat, q: nat) {
    p != q
  }

  function OtherRows(pairs: seq<PairRow>, p: nat): set<nat> {
    set q: nat | q < |pairs| && Other(p, q)
  }

  lemma ChosenClaim(cfg: Settings, db: Db, p: nat)
    requires ValidSettings(cfg) && RowsOk(cfg, db) && Shape(db) && p < |db.pairs| && db.pairs[p].status == Shortlisted
    requires db.pairs[p].until.None? || db.pairs[p].until.value <= db.clock
    requires db.pairs[p].campaign < |db.campaigns| && NoneExpired(cfg, db, db.pairs[p].campaign)
    requires Count(db.pairs, EvaluatingAnywhere()) < cfg.stage3GlobalInflight
    ensures var c, others := db.pairs[p].campaign, OtherRows(db.pairs, p);
      && EvaluateLocks(cfg, db, c, others)
      && var rows, db' := EvaluatedRows(cfg, db, c, others), DispatchStage3(cfg, db, c, others);
      && rows != [] && rows[0].pair == p < |db'.pairs| == |db.pairs|
      && db'.pairs[p] == EvaluatingRow(cfg, db, db.pairs[p], db.nextToken)
  {
    var c, others := db.pairs[p].campaign, OtherRows(db.pairs, p);
    assert RowOk(cfg, db, db.pairs[p]);
    assert ExpiredEvaluating(cfg, db, c).pairs == db.pairs;
    var q := FirstClaim(cfg, db, c, others, p);
    assert !Other(p, q);
  }

  /** Claim one chosen pair, the others being locked by somebody else, and publish its message. */
  lemma ClaimChosen(cfg: Settings, w: World, u: World, p: nat) returns (v: World)
    requires ValidSettings(cfg) && Leads(cfg, w, u) && Claimable(cfg, u, p)
    ensures Leads(cfg, w, v) && InEvaluation(cfg, v, p, u.db.nextToken)
    ensures v.db.pairs[p].stage3Attempts == u.db.pairs[p].stage3Attempts
  {
    var r := u.db.pairs[p];
    assert RowOk(cfg, u.db, r);
    var c := r.campaign;
    var others := OtherRows(u.db.pairs, p);
    ChosenClaim(cfg, u.db, p);
    var claimed := LeadsFurther(cfg, w, u, Evaluate(c, others));
    var rows := EvaluatedRows(cfg, u.db, c, others);
    assert Ticket(EvaluateTask, p, u.db.nextToken + 0) in Tickets(EvaluateTask, rows, u.db.nextToken);
    DispatchLeavesNoneExpired(cfg, u.db, c, others);
    v := LeadsFurther(cfg, w, claimed, EvaluateSend(p, u.db.nextToken));
  }

  /** Both workers the message was delivered to are under way. */
  ghost predicate TwoWorkers(cfg: Settings, w: World, p: nat, t: nat, first: nat, second: nat) {
    && WorldOk(cfg, w) && p < |w.db.pairs| && Holds(w.db.pairs[p], Stage3Running, t)
    && first != second && first in w.workers && second in w.workers
    && w.workers[first] == Evaluator(p, t, None) && w.workers[second] == Evaluator(p, t, None)
    && NoneExpired(cfg, w.db, w.db.pairs[p].campaign)
  }

  lemma DeliverTwice(cfg: Settings, w: World, u: World, p: nat, t: nat) returns (v: World)
    requires ValidSettings(cfg) && Leads(cfg, w, u) && InEvaluation(cfg, u, p, t)
    ensures Leads(cfg, w, v) && v.db == u.db && TwoWorkers(cfg, v, p, t, u.nextWorker, u.nextWorker + 1)
  {
    var one := DeliverOne(cfg, w, u, p, t);
    v := DeliverOne(cfg, w, one, p, t);
  }

  lemma ParkedIsClaimable(cfg: Settings, w: World, v: World, p: nat, t: nat)
    requires ValidSettings(cfg) && WorldOk(cfg, w) && WorldOk(cfg, v) && p < |w.db.pairs|
    requires Holds(w.db.pairs[p], Stage3Running, t) && NoneExpired(cfg, w.db, w.db.pairs[p].campaign)
    requires v.db == w.db.(pairs := w.db.pairs[p := ParkedRow(CountedRow(w.db.pairs[p]), w.db.clock)])
    ensures Claimable(cfg, v, p)
    ensures v.db.pairs[p].stage3Attempts == w.db.pairs[p].stage3Attempts + 1
  {
    CountStrict(v.db.pairs, w.db.pairs, EvaluatingAnywhere(), EvaluatingAnywhere(), p);
  }

  lemma ParkSecond(cfg: Settings, w: World, u: World, p: nat, t: nat, id: nat) returns (v: World)
    requires ValidSettings(cfg) && Leads(cfg, w, u) && WorldOk(cfg, u)
    requires id in u.workers && u.workers[id] == Evaluator(p, t, None)
    requires p < |u.db.pairs| && Holds(u.db.pairs[p], Stage3Running, t)
    ensures Leads(cfg, w, v) && WorldOk(cfg, v)
    ensures v.db == u.db.(pairs := u.db.pairs[p := ParkedRow(u.db.pairs[p], u.db.clock)])
  {
    assert Enabled(cfg, u, EvaluatePark(id, 0));
    ParkEffect(cfg, u, id, p, t);
    v := LeadsFurther(cfg, w, u, EvaluatePark(id, 0));
  }

  lemma UpdatedTwice(pairs: seq<PairRow>, p: nat, a: PairRow, b: PairRow)
    requires p < |pairs|
    ensures pairs[p := a][p := b] == pairs[p := b]
  {
  }

  lemma CountThenPark(cfg: Settings, w: World, u: World, p: nat, t: nat, first: nat, second: nat) returns (v: World)
    requires ValidSettings(cfg) && Leads(cfg, w, u) && TwoWorkers(cfg, u, p, t, first, second)
    ensures Leads(cfg, w, v) && Claimable(cfg, v, p)
    ensures v.db.pairs[p].stage3Attempts == u.db.pairs[p].stage3Attempts + 1
  {
    var counted := CountOne(cfg, w, u, p, t, first);
    v := ParkSecond(cfg, w, counted, p, t, second);
    UpdatedTwice(u.db.pairs, p, CountedRow(u.db.pairs[p]), ParkedRow(CountedRow(u.db.pairs[p]), u.db.clock));
    ParkedIsClaimable(cfg, u, v, p, t);
  }

  /** One message delivered twice: the first worker counts an attempt, the second is denied and parks the pair. */
  lemma DuplicateRound(cfg: Settings, w: World, u: World, p: nat, t: nat) returns (v: World)
    requires ValidSettings(cfg) && Leads(cfg, w, u) && InEvaluation(cfg, u, p, t)
    ensures Leads(cfg, w, v) && Claimable(cfg, v, p)
    ensures v.db.pairs[p].stage3Attempts == u.db.pairs[p].stage3Attempts + 1
  {
    var two := DeliverTwice(cfg, w, u, p, t);
    v := CountThenPark(cfg, w, two, p, t, u.nextWorker, u.nextWorker + 1);
  }

  lemma {:induction false} DuplicateRounds(cfg: Settings, w: World, u: World, p: nat, n: nat) returns (v: World)
    requires ValidSettings(cfg) && Leads(cfg, w, u) && Claimable(cfg, u, p)
    ensures Leads(cfg, w, v) && p < |v.db.pairs|
    ensures v.db.pairs[p].stage3Attempts == u.db.pairs[p].stage3Attempts + n
    decreases n
  {
    if n == 0 {
      v := u;
    } else {
      var out := ClaimChosen(cfg, w, u, p);
      var back := DuplicateRound(cfg, w, out, p, u.db.nextToken);
      var m: nat := n - 1;
      v := DuplicateRounds(cfg, w, back, p, m);
    }
  }

  /**
   * The limit on counted attempts needs single delivery: from every reachable state with a claimable
   * pair, duplicate deliveries of its messages drive the count past any number.
   */
  lemma DuplicatesBreakTheLimit(cfg: Settings, w: World, p: nat, n: nat)
    requires ValidSettings(cfg) && Reachable(cfg, w)
    requires p < |w.db.pairs| && w.db.pairs[p].status == Shortlisted
    requires forall q :: 0 <= q < |w.db.pairs| ==> w.db.pairs[q].status != Stage3Running
    ensures exists v :: Leads(cfg, w, v) && p < |v.db.pairs| && v.db.pairs[p].stage3Attempts >= n
  {
    ReachableOk(cfg, w);
    var r := w.db.pairs[p];
    assert RowOk(cfg, w.db, r);
    var u := Wait(cfg, w, if r.until.Some? then r.until.value else 0);
    CountPositive(u.db.pairs, EvaluatingAnywhere());
    var v := DuplicateRounds(cfg, w, u, p, n);
  }
}

/**
 * The synchronous screening pipeline: four stages that move candidates between counters, public
 * lists and an outcome map. Filtering, extraction, ranking and evaluation are arbitrary results or
 * exceptions; what is modelled is the accounting.
 */
module Pipeline {
  import opened Prelude

  datatype Check = Check(rule: int, review: bool)

  datatype Details = Details(checks: seq<Check>)

  datatype FilterStatus = Pass | Review | Fail

  datatype Filtering = RulesRaised | Rules(status: FilterStatus, details: Details)

  datatype Extraction = ExtractorRaised | Extracted(owner: int, relevanceReview: bool, currentVersion: bool)

  datatype Ranking = RankingRaised | Shortlist(ids: seq<int>)

  datatype Verdict = Success | ReviewRequired | EvaluationFailed

  datatype Evaluation = Evaluation(id: int, verdict: Verdict, score: int)

  datatype Batch = BatchRaised | Returned(results: seq<Evaluation>)

  /** One run: the candidates, the settings, and what every external call returns or raises. */
  datatype Inputs = Inputs(
    ids: seq<int>,
    hasProfile: bool,
    cutoff: int,
    production: bool,
    postgres: bool,
    filters: seq<Filtering>,
    extractions: seq<Extraction>,
    ranking: Ranking,
    batch: Batch)

  ghost predicate Shaped(inp: Inputs) {
    |inp.filters| == |inp.ids| && |inp.extractions| == |inp.ids|
  }

  // ----- what a run publishes

  datatype Stage = Stage0 | Stage1 | Stage2 | Stage3

  datatype Outcome =
    | OutSuccess | OutReview | OutEvaluationFailed | OutFilterRejected
    | OutCutoffExcluded | OutExtractionFailed | OutProcessingFailed

  datatype Status = Processed | Ruled(status: FilterStatus) | Failed | WithEvidence | Became(outcome: Outcome)

  datatype Event = Event(stage: Stage, status: Status, details: Option<Details>)

  datatype Snapshot = Snapshot(
    details: Option<Details>,
    reasons: Option<seq<Check>>,
    required: Option<bool>,
    provisional: Option<bool>)

  datatype Record = Record(
    id: int, history: seq<Event>, outcome: Option<Outcome>, stage: Option<Stage>, snapshot: Snapshot)

  datatype Item = Item(id: int, snapshot: Snapshot)

  datatype Metrics = Metrics(
    totalInput: nat,
    stage0Processed: nat, stage0Failed: nat, stage0Review: nat,
    stage1Passed: nat, stage1Rejected: nat, stage1Review: nat, stage1Failed: nat,
    stage2Shortlisted: nat, stage2Failed: nat, stage2Review: nat, stage2Excluded: nat,
    stage3Evaluated: nat, stage3Succeeded: nat, stage3Review: nat, stage3Failed: nat,
    accounted: nat)

  datatype RunResult = RunResult(
    metrics: Metrics,
    leaderboard: seq<Item>, rejected: seq<Item>, review: seq<Item>, failed: seq<Item>,
    outcomes: seq<Record>)

  datatype Run = Completed(result: RunResult) | Raised(message: string)

  const BLANK := Snapshot(None, None, None, None)

  function NoMetrics(n: nat): Metrics {
    Metrics(n, 0, 0, 0, 0, 0, 0, 0, 0, 0, 0, 0, 0, 0, 0, 0, 0)
  }

  function IsReview(): Check -> bool {
    (c: Check) => c.review
  }

  function Reasons(d: Details): seq<Check> {
    Filter(d.checks, IsReview())
  }

  /** The rule uncertainty every Stage 2 and Stage 3 decision carries along. */
  function Verification(d: Details): Snapshot {
    Snapshot(Some(d), Some(Reasons(d)), Some(Reasons(d) != []), None)
  }

  // ----- who goes where

  predicate Survives(inp: Inputs, i: nat) {
    i < |inp.filters| && inp.filters[i].Rules? && inp.filters[i].status != Fail
  }

  predicate HasEvidence(inp: Inputs, i: nat) {
    && i < |inp.extractions| && i < |inp.ids|
    && inp.extractions[i].Extracted? && inp.extractions[i].owner == inp.ids[i]
  }

  function SurvivesAt(inp: Inputs): nat -> bool {
    (i: nat) => Survives(inp, i)
  }

  function EvidenceAt(inp: Inputs): nat -> bool {
    (i: nat) => HasEvidence(inp, i)
  }

  function NoEvidenceAt(inp: Inputs): nat -> bool {
    (i: nat) => !HasEvidence(inp, i)
  }

  function Positions(n: nat): (ps: seq<nat>)
    ensures |ps| == n && forall i :: 0 <= i < n ==> ps[i] == i
  {
    seq(n, i requires 0 <= i < n => i)
  }

  function Survivors(inp: Inputs): seq<nat> {
    Filter(Positions(|inp.ids|), SurvivesAt(inp))
  }

  function Payloads(inp: Inputs): seq<nat> {
    Filter(Survivors(inp), EvidenceAt(inp))
  }

  function IdAt(inp: Inputs): nat -> int {
    (i: nat) => if i < |inp.ids| then inp.ids[i] else 0
  }

  function PayloadIds(inp: Inputs): seq<int> {
    Map(Payloads(inp), IdAt(inp))
  }

  /** A shortlist with a repeated or unknown candidate is refused like an exception. */
  ghost predicate RankingOk(inp: Inputs) {
    && inp.ranking.Shortlist?
    && Distinct(inp.ranking.ids)
    && forall id :: id in inp.ranking.ids ==> id in PayloadIds(inp)
  }

  ghost function Chosen(inp: Inputs): seq<int> {
    if RankingOk(inp) then inp.ranking.ids else []
  }

  /** The last result returned for `id`, or a failed evaluation. */
  function EvaluationFor(results: seq<Evaluation>, id: int): Evaluation {
    if results == [] then Evaluation(id, EvaluationFailed, 0)
    else if results[|results| - 1].id == id then results[|results| - 1]
    else EvaluationFor(results[..|results| - 1], id)
  }

  function Results(inp: Inputs): seq<Evaluation> {
    if inp.batch.Returned? then inp.batch.results else []
  }

  datatype Fate =
    | RuleRaised | RuleRejected | ExtractionRaised | RankingFailed | Stage2Review | CutOff
    | Evaluated(verdict: Verdict)

  ghost function FateOf(inp: Inputs, i: nat): Fate
    requires Shaped(inp) && i < |inp.ids|
  {
    var id := inp.ids[i];
    if inp.filters[i].RulesRaised? then RuleRaised
    else if inp.filters[i].status == Fail then RuleRejected
    else if !HasEvidence(inp, i) then ExtractionRaised
    else if !RankingOk(inp) then RankingFailed
    else if id in inp.ranking.ids then Evaluated(EvaluationFor(Results(inp), id).verdict)
    else if inp.extractions[i].relevanceReview || !inp.extractions[i].currentVersion then Stage2Review
    else CutOff
  }

  function OutcomeOf(f: Fate): Outcome {
    match f
    case RuleRaised => OutProcessingFailed
    case RuleRejected => OutFilterRejected
    case ExtractionRaised => OutExtractionFailed
    case RankingFailed => OutProcessingFailed
    case Stage2Review => OutReview
    case CutOff => OutCutoffExcluded
    case Evaluated(Success) => OutSuccess
    case Evaluated(ReviewRequired) => OutReview
    case Evaluated(EvaluationFailed) => OutEvaluationFailed
  }

  function StageOf(f: Fate): Stage {
    match f
    case RuleRaised => Stage1
    case RuleRejected => Stage1
    case Evaluated(_) => Stage3
    case _ => Stage2
  }

  function SnapshotOf(f: Fate, filtering: Filtering): Snapshot {
    if filtering.RulesRaised? || f.RuleRejected? || f.RuleRaised? then BLANK
    else
      var v := Verification(filtering.details);
      if f.Evaluated? then v.(provisional := Some(f.verdict == Success && v.required == Some(true))) else v
  }

  function OpeningHistory(filtering: Filtering): seq<Event> {
    [Event(Stage0, Processed, None)]
    + (if filtering.RulesRaised? then [Event(Stage1, Failed, None)]
       else [Event(Stage1, Ruled(filtering.status), Some(filtering.details))])
  }

  function ClosingHistory(f: Fate): seq<Event> {
    match f
    case RuleRaised => []
    case RuleRejected => []
    case ExtractionRaised => [Event(Stage2, Failed, None)]
    case RankingFailed => [Event(Stage2, WithEvidence, None), Event(Stage2, Failed, None)]
    case Stage2Review => [Event(Stage2, WithEvidence, None), Event(Stage2, Became(OutReview), None)]
    case CutOff => [Event(Stage2, WithEvidence, None), Event(Stage2, Became(OutCutoffExcluded), None)]
    case Evaluated(_) => [Event(Stage2, WithEvidence, None), Event(Stage3, Became(OutcomeOf(f)), None)]
  }

  /** The outcome record a candidate ends with. */
  ghost function RecordOf(inp: Inputs, i: nat): Record
    requires Shaped(inp) && i < |inp.ids|
  {
    var f := FateOf(inp, i);
    Record(inp.ids[i], OpeningHistory(inp.filters[i]) + ClosingHistory(f),
           Some(OutcomeOf(f)), Some(StageOf(f)), SnapshotOf(f, inp.filters[i]))
  }

  /** The public entry of a candidate. */
  ghost function ItemOf(inp: Inputs, i: nat): Item
    requires Shaped(inp) && i < |inp.ids|
  {
    Item(inp.ids[i], SnapshotOf(FateOf(inp, i), inp.filters[i]))
  }

  // ----- the specification of a completed run

  ghost function Fates(inp: Inputs): (fs: seq<Fate>)
    requires Shaped(inp)
    ensures |fs| == |inp.ids| && forall i :: 0 <= i < |fs| ==> fs[i] == FateOf(inp, i)
  {
    seq(|inp.ids|, i requires 0 <= i < |inp.ids| => FateOf(inp, i))
  }

  function Is(f: Fate): Fate -> bool {
    (g: Fate) => g == f
  }

  function InFailed(): Fate -> bool {
    (f: Fate) => f.RuleRaised? || f.ExtractionRaised? || f.RankingFailed? || f == Evaluated(EvaluationFailed)
  }

  function InRejected(): Fate -> bool {
    (f: Fate) => f.RuleRejected? || f.CutOff?
  }

  function InReview(): Fate -> bool {
    (f: Fate) => f.Stage2Review? || f == Evaluated(ReviewRequired)
  }

  function InLeaderboard(): Fate -> bool {
    (f: Fate) => f == Evaluated(Success)
  }

  function WasEvaluated(): Fate -> bool {
    (f: Fate) => f.Evaluated?
  }

  function Stage2Lost(): Fate -> bool {
    (f: Fate) => f.ExtractionRaised? || f.RankingFailed?
  }

  function HasStatus(s: FilterStatus): Filtering -> bool {
    (f: Filtering) => f.Rules? && f.status == s
  }

  ghost function MetricsOf(inp: Inputs): Metrics
    requires Shaped(inp)
  {
    var fs := Fates(inp);
    Metrics(
      |fs|,
      |fs|, 0, 0,
      Count(inp.filters, HasStatus(Pass)), Count(inp.filters, HasStatus(Fail)), Count(inp.filters, HasStatus(Review)),
      Count(fs, Is(RuleRaised)),
      Count(fs, WasEvaluated()), Count(fs, Stage2Lost()), Count(fs, Is(Stage2Review)), Count(fs, Is(CutOff)),
      Count(fs, WasEvaluated()), Count(fs, Is(Evaluated(Success))), Count(fs, Is(Evaluated(ReviewRequired))),
      Count(fs, Is(Evaluated(EvaluationFailed))),
      |fs|)
  }

  /** The list holds exactly the public entries of the candidates with such a fate. */
  ghost predicate Holds(list: seq<Item>, inp: Inputs, p: Fate -> bool)
    requires Shaped(inp)
  {
    && |list| == Count(Fates(inp), p)
    && (forall i :: 0 <= i < |inp.ids| && p(FateOf(inp, i)) ==> ItemOf(inp, i) in list)
    && (forall x :: x in list ==> exists i :: 0 <= i < |inp.ids| && p(FateOf(inp, i)) && x == ItemOf(inp, i))
  }

  ghost predicate Accounted(inp: Inputs, r: RunResult)
    requires Shaped(inp)
  {
    && |r.outcomes| == |inp.ids|
    && (forall i :: 0 <= i < |inp.ids| ==> r.outcomes[i] == RecordOf(inp, i))
    && r.metrics == MetricsOf(inp)
    && Holds(r.leaderboard, inp, InLeaderboard())
    && Holds(r.rejected, inp, InRejected())
    && Holds(r.review, inp, InReview())
    && Holds(r.failed, inp, InFailed())
  }
}

/**
 * The pipeline as it runs: successive loops that bump counters, append to the public lists and
 * rewrite entries of the outcome map, proved to leave exactly what Pipeline says of each fate.
 */
module Screening {
  import opened Prelude
  import opened Sorting
  import opened Pipeline

  /** Public entries of the candidates at these positions, in this order. */
  ghost function Items(inp: Inputs, at: seq<nat>): (items: seq<Item>)
    requires Shaped(inp) && forall k :: 0 <= k < |at| ==> at[k] < |inp.ids|
    ensures |items| == |at| && forall k :: 0 <= k < |at| ==> items[k] == ItemOf(inp, at[k])
  {
    seq(|at|, k requires 0 <= k < |at| => ItemOf(inp, at[k]))
  }

  function RaisedAt(inp: Inputs): nat -> bool {
    (i: nat) => i < |inp.filters| && inp.filters[i].RulesRaised?
  }

  function RefusedAt(inp: Inputs): nat -> bool {
    (i: nat) => i < |inp.filters| && inp.filters[i].Rules? && inp.filters[i].status == Fail
  }

  function Logged(r: Record, e: Event): Record {
    r.(history := r.history + [e])
  }

  function Closed(r: Record, o: Outcome, s: Stage, snapshot: Snapshot): Record {
    r.(outcome := Some(o), stage := Some(s), snapshot := snapshot)
  }

  ghost predicate InRange(inp: Inputs, at: seq<nat>) {
    forall k :: 0 <= k < |at| ==> at[k] < |inp.ids|
  }

  function RaisedIn(inp: Inputs, k: nat): seq<nat>
    requires k <= |inp.ids|
  {
    Filter(Positions(|inp.ids|)[..k], RaisedAt(inp))
  }

  function RefusedIn(inp: Inputs, k: nat): seq<nat>
    requires k <= |inp.ids|
  {
    Filter(Positions(|inp.ids|)[..k], RefusedAt(inp))
  }

  function SurvivorsIn(inp: Inputs, k: nat): seq<nat>
    requires k <= |inp.ids|
  {
    Filter(Positions(|inp.ids|)[..k], SurvivesAt(inp))
  }

  /** Exactly one of the three lists takes position `k`. */
  lemma NextRuled(inp: Inputs, k: nat)
    requires Shaped(inp) && k < |inp.ids|
    ensures RaisedIn(inp, k + 1) == RaisedIn(inp, k) + (if inp.filters[k].RulesRaised? then [k] else [])
    ensures RefusedIn(inp, k + 1) == RefusedIn(inp, k) + (if RefusedAt(inp)(k) then [k] else [])
    ensures SurvivorsIn(inp, k + 1) == SurvivorsIn(inp, k) + (if Survives(inp, k) then [k] else [])
  {
    assert Positions(|inp.ids|)[..k + 1][..k] == Positions(|inp.ids|)[..k];
  }

  lemma {:induction false} FilteredInRange(inp: Inputs, xs: seq<nat>, p: nat -> bool)
    requires InRange(inp, xs)
    ensures InRange(inp, Filter(xs, p))
  {
    if xs != [] {
      FilteredInRange(inp, xs[..|xs| - 1], p);
    }
  }

  lemma RuledInRange(inp: Inputs, k: nat)
    requires k <= |inp.ids|
    ensures InRange(inp, RaisedIn(inp, k)) && InRange(inp, RefusedIn(inp, k)) && InRange(inp, SurvivorsIn(inp, k))
  {
    FilteredInRange(inp, Positions(|inp.ids|)[..k], RaisedAt(inp));
    FilteredInRange(inp, Positions(|inp.ids|)[..k], RefusedAt(inp));
    FilteredInRange(inp, Positions(|inp.ids|)[..k], SurvivesAt(inp));
  }

  /** The counters after `k` candidates. */
  function RuledMetrics(inp: Inputs, k: nat): Metrics
    requires Shaped(inp) && k <= |inp.ids|
  {
    NoMetrics(|inp.ids|).(
      stage0Processed := k,
      stage1Passed := Count(inp.filters[..k], HasStatus(Pass)),
      stage1Rejected := Count(inp.filters[..k], HasStatus(Fail)),
      stage1Review := Count(inp.filters[..k], HasStatus(Review)),
      stage1Failed := |RaisedIn(inp, k)|)
  }

  function RuledMetricsStep(m: Metrics, f: Filtering): Metrics {
    var seen := m.(stage0Processed := m.stage0Processed + 1);
    match f
    case RulesRaised => seen.(stage1Failed := seen.stage1Failed + 1)
    case Rules(Pass, _) => seen.(stage1Passed := seen.stage1Passed + 1)
    case Rules(Review, _) => seen.(stage1Review := seen.stage1Review + 1)
    case Rules(Fail, _) => seen.(stage1Rejected := seen.stage1Rejected + 1)
  }

  lemma NextRuledMetrics(inp: Inputs, k: nat)
    requires Shaped(inp) && k < |inp.ids|
    ensures RuledMetrics(inp, k + 1) == RuledMetricsStep(RuledMetrics(inp, k), inp.filters[k])
  {
    assert inp.filters[..k + 1][..k] == inp.filters[..k];
    NextRuled(inp, k);
  }

  // ----- the outcome map between the stages

  predicate Settled(f: Fate, phase: nat) {
    match phase
    case 0 => false
    case 1 => StageOf(f) == Stage1
    case 2 => StageOf(f) == Stage1 || f.ExtractionRaised?
    case 3 => !f.Evaluated?
    case _ => true
  }

  function Unread(id: int): Record {
    Record(id, [], None, None, BLANK)
  }

  /** The entry of a candidate after a phase: rules, extraction, ranking, evaluation. */
  ghost function RecordAt(inp: Inputs, i: nat, phase: nat): Record
    requires Shaped(inp) && i < |inp.ids|
  {
    if Settled(FateOf(inp, i), phase) then RecordOf(inp, i)
    else if phase == 0 then Unread(inp.ids[i])
    else
      var ruled := Unread(inp.ids[i]).(history := OpeningHistory(inp.filters[i]));
      if phase == 1 then ruled else Logged(ruled, Event(Stage2, WithEvidence, None))
  }

  /** The positions in `done` have moved on to the next phase. */
  ghost predicate RecordsAre(inp: Inputs, outcomes: map<int, Record>, phase: nat, done: seq<nat>)
    requires Shaped(inp)
  {
    && outcomes.Keys == (set id | id in inp.ids)
    && (Distinct(inp.ids) ==> forall i: nat :: i < |inp.ids| ==>
          outcomes[inp.ids[i]] == RecordAt(inp, i, if i in done then phase + 1 else phase))
  }

  lemma MoveRecord(inp: Inputs, outcomes: map<int, Record>, phase: nat, done: seq<nat>, i: nat, r: Record)
    requires Shaped(inp) && RecordsAre(inp, outcomes, phase, done) && i < |inp.ids|
    requires Distinct(inp.ids) ==> r == RecordAt(inp, i, phase + 1)
    ensures RecordsAre(inp, outcomes[inp.ids[i] := r], phase, done + [i])
  {
    assert inp.ids[i] in outcomes.Keys;
    assert outcomes[inp.ids[i] := r].Keys == outcomes.Keys;
  }

  /** A phase is over when every candidate it could still move has moved. */
  lemma PhaseOver(inp: Inputs, outcomes: map<int, Record>, phase: nat, done: seq<nat>)
    requires Shaped(inp) && RecordsAre(inp, outcomes, phase, done)
    requires forall i: nat :: i < |inp.ids| && i !in done ==> RecordAt(inp, i, phase + 1) == RecordAt(inp, i, phase)
    ensures RecordsAre(inp, outcomes, phase + 1, [])
  {
  }

  function RuledRecord(r: Record, f: Filtering): Record {
    var read := Logged(r, Event(Stage0, Processed, None));
    match f
    case RulesRaised => Logged(Closed(read, OutProcessingFailed, Stage1, BLANK), Event(Stage1, Failed, None))
    case Rules(status, details) =>
      var ruled := Logged(read, Event(Stage1, Ruled(status), Some(details)));
      if status == Fail then Closed(ruled, OutFilterRejected, Stage1, BLANK) else ruled
  }

  lemma RuledRecordIs(inp: Inputs, i: nat)
    requires Shaped(inp) && i < |inp.ids|
    ensures RuledRecord(RecordAt(inp, i, 0), inp.filters[i]) == RecordAt(inp, i, 1)
  {
    assert OpeningHistory(inp.filters[i]) + [] == OpeningHistory(inp.filters[i]);
  }

  lemma NextRuledRecords(inp: Inputs, outcomes: map<int, Record>, i: nat)
    requires Shaped(inp) && i < |inp.ids| && RecordsAre(inp, outcomes, 0, Positions(|inp.ids|)[..i])
    ensures inp.ids[i] in outcomes
    ensures RecordsAre(inp, outcomes[inp.ids[i] := RuledRecord(outcomes[inp.ids[i]], inp.filters[i])], 0,
                       Positions(|inp.ids|)[..i + 1])
  {
    RuledRecordIs(inp, i);
    assert inp.ids[i] in outcomes.Keys;
    MoveRecord(inp, outcomes, 0, Positions(|inp.ids|)[..i], i, RuledRecord(outcomes[inp.ids[i]], inp.filters[i]));
    assert Positions(|inp.ids|)[..i + 1] == Positions(|inp.ids|)[..i] + [i];
  }

  lemma RulesOver(inp: Inputs, outcomes: map<int, Record>)
    requires Shaped(inp) && RecordsAre(inp, outcomes, 0, Positions(|inp.ids|))
    ensures RecordsAre(inp, outcomes, 1, [])
  {
    forall k: nat | k < |inp.ids| ensures k in Positions(|inp.ids|) {
      assert Positions(|inp.ids|)[k] == k;
    }
    PhaseOver(inp, outcomes, 0, Positions(|inp.ids|));
  }

  /** Both lists grow by the public entry of the candidate, or not at all. */
  lemma NextRuledItems(inp: Inputs, i: nat)
    requires Shaped(inp) && i < |inp.ids|
    ensures InRange(inp, RaisedIn(inp, i)) && InRange(inp, RaisedIn(inp, i + 1))
    ensures InRange(inp, RefusedIn(inp, i)) && InRange(inp, RefusedIn(inp, i + 1))
    ensures Items(inp, RaisedIn(inp, i + 1))
         == Items(inp, RaisedIn(inp, i)) + (if inp.filters[i].RulesRaised? then [Item(inp.ids[i], BLANK)] else [])
    ensures Items(inp, RefusedIn(inp, i + 1))
         == Items(inp, RefusedIn(inp, i)) + (if RefusedAt(inp)(i) then [Item(inp.ids[i], BLANK)] else [])
  {
    RuledInRange(inp, i);
    RuledInRange(inp, i + 1);
    NextRuled(inp, i);
  }

  // ----- extraction

  lemma PositionsDistinct(n: nat)
    ensures Distinct(Positions(n)) && forall i: nat :: i in Positions(n) <==> i < n
  {
    forall i: nat | i < n ensures i in Positions(n) {
      assert Positions(n)[i] == i;
    }
  }

  lemma SurvivorsAre(inp: Inputs)
    ensures Distinct(Survivors(inp))
    ensures forall i: nat :: i in Survivors(inp) <==> i < |inp.ids| && Survives(inp, i)
  {
    PositionsDistinct(|inp.ids|);
    FilterDistinct(Positions(|inp.ids|), SurvivesAt(inp));
    FilterMembers(Positions(|inp.ids|), SurvivesAt(inp));
  }

  lemma PayloadsAre(inp: Inputs)
    ensures Distinct(Payloads(inp))
    ensures forall i: nat :: i in Payloads(inp) <==> i < |inp.ids| && Survives(inp, i) && HasEvidence(inp, i)
  {
    SurvivorsAre(inp);
    FilterDistinct(Survivors(inp), EvidenceAt(inp));
    FilterMembers(Survivors(inp), EvidenceAt(inp));
  }

  /** The survivors among the first `k` whose extraction failed. */
  function LostIn(inp: Inputs, k: nat): seq<nat>
    requires k <= |Survivors(inp)|
  {
    Filter(Survivors(inp)[..k], NoEvidenceAt(inp))
  }

  function PayloadsIn(inp: Inputs, k: nat): seq<nat>
    requires k <= |Survivors(inp)|
  {
    Filter(Survivors(inp)[..k], EvidenceAt(inp))
  }

  lemma NextExtracted(inp: Inputs, k: nat)
    requires Shaped(inp) && k < |Survivors(inp)|
    ensures var p := Survivors(inp)[k];
      && p < |inp.ids| && Survives(inp, p) && p !in Survivors(inp)[..k]
      && LostIn(inp, k + 1) == LostIn(inp, k) + (if HasEvidence(inp, p) then [] else [p])
      && PayloadsIn(inp, k + 1) == PayloadsIn(inp, k) + (if HasEvidence(inp, p) then [p] else [])
  {
    SurvivorsAre(inp);
    assert Survivors(inp)[k] in Survivors(inp);
    assert Survivors(inp)[..k + 1][..k] == Survivors(inp)[..k];
  }

  lemma LostInRange(inp: Inputs, k: nat)
    requires k <= |Survivors(inp)|
    ensures InRange(inp, LostIn(inp, k))
  {
    SurvivorsAre(inp);
    assert forall i :: 0 <= i < k ==> Survivors(inp)[..k][i] in Survivors(inp);
    FilteredInRange(inp, Survivors(inp)[..k], NoEvidenceAt(inp));
  }

  lemma NextLostItems(inp: Inputs, k: nat)
    requires Shaped(inp) && k < |Survivors(inp)|
    ensures var p := Survivors(inp)[k];
      && p < |inp.ids| && Survives(inp, p)
      && InRange(inp, LostIn(inp, k)) && InRange(inp, LostIn(inp, k + 1))
      && Items(inp, LostIn(inp, k + 1)) == Items(inp, LostIn(inp, k))
         + (if HasEvidence(inp, p) then [] else [Item(inp.ids[p], Verification(inp.filters[p].details))])
  {
    NextExtracted(inp, k);
    LostInRange(inp, k);
    LostInRange(inp, k + 1);
  }

  function ExtractedRecord(r: Record, ok: bool, d: Details): Record {
    if ok then Logged(r, Event(Stage2, WithEvidence, None))
    else Logged(Closed(r, OutExtractionFailed, Stage2, Verification(d)), Event(Stage2, Failed, None))
  }

  lemma ExtractedRecordIs(inp: Inputs, i: nat)
    requires Shaped(inp) && i < |inp.ids| && Survives(inp, i)
    ensures ExtractedRecord(RecordAt(inp, i, 1), HasEvidence(inp, i), inp.filters[i].details) == RecordAt(inp, i, 2)
  {
  }

  lemma NextExtractedRecords(inp: Inputs, outcomes: map<int, Record>, k: nat)
    requires Shaped(inp) && k < |Survivors(inp)| && RecordsAre(inp, outcomes, 1, Survivors(inp)[..k])
    ensures var p := Survivors(inp)[k];
      && p < |inp.ids| && Survives(inp, p) && inp.ids[p] in outcomes
      && var id, d := inp.ids[p], inp.filters[p].details;
         RecordsAre(inp, outcomes[id := ExtractedRecord(outcomes[id], HasEvidence(inp, p), d)], 1, Survivors(inp)[..k + 1])
  {
    NextExtracted(inp, k);
    var p := Survivors(inp)[k];
    assert inp.ids[p] in outcomes.Keys;
    ExtractedRecordIs(inp, p);
    MoveRecord(inp, outcomes, 1, Survivors(inp)[..k], p,
               ExtractedRecord(outcomes[inp.ids[p]], HasEvidence(inp, p), inp.filters[p].details));
    assert Survivors(inp)[..k + 1] == Survivors(inp)[..k] + [p];
  }

  lemma ExtractionOver(inp: Inputs, outcomes: map<int, Record>)
    requires Shaped(inp) && RecordsAre(inp, outcomes, 1, Survivors(inp))
    ensures RecordsAre(inp, outcomes, 2, [])
  {
    SurvivorsAre(inp);
    PhaseOver(inp, outcomes, 1, Survivors(inp));
  }

  // ----- ranking and the cutoff

  function LeftOut(inp: Inputs, chosen: seq<int>): nat -> bool {
    (i: nat) => i < |inp.ids| && inp.ids[i] !in chosen
  }

  function NeedsReview(inp: Inputs): nat -> bool {
    (i: nat) => i < |inp.extractions| && inp.extractions[i].Extracted?
                && (inp.extractions[i].relevanceReview || !inp.extractions[i].currentVersion)
  }

  function ReviewedAt(inp: Inputs, chosen: seq<int>): nat -> bool {
    (i: nat) => LeftOut(inp, chosen)(i) && NeedsReview(inp)(i)
  }

  function CutAt(inp: Inputs, chosen: seq<int>): nat -> bool {
    (i: nat) => LeftOut(inp, chosen)(i) && !NeedsReview(inp)(i)
  }

  function ReviewedIn(inp: Inputs, chosen: seq<int>, k: nat): seq<nat>
    requires k <= |Payloads(inp)|
  {
    Filter(Payloads(inp)[..k], ReviewedAt(inp, chosen))
  }

  function CutIn(inp: Inputs, chosen: seq<int>, k: nat): seq<nat>
    requires k <= |Payloads(inp)|
  {
    Filter(Payloads(inp)[..k], CutAt(inp, chosen))
  }

  lemma PayloadAt(inp: Inputs, k: nat)
    requires Shaped(inp) && k < |Payloads(inp)|
    ensures var p := Payloads(inp)[k];
      p < |inp.ids| && Survives(inp, p) && HasEvidence(inp, p) && p !in Payloads(inp)[..k]
    ensures Payloads(inp)[..k + 1] == Payloads(inp)[..k] + [Payloads(inp)[k]]
  {
    PayloadsAre(inp);
    assert Payloads(inp)[k] in Payloads(inp);
  }

  lemma PayloadsInRange(inp: Inputs, k: nat)
    requires k <= |Payloads(inp)|
    ensures InRange(inp, Payloads(inp)[..k])
  {
    PayloadsAre(inp);
    assert forall i :: 0 <= i < k ==> Payloads(inp)[..k][i] in Payloads(inp);
  }

  lemma CutInRange(inp: Inputs, chosen: seq<int>, k: nat)
    requires k <= |Payloads(inp)|
    ensures InRange(inp, ReviewedIn(inp, chosen, k)) && InRange(inp, CutIn(inp, chosen, k))
  {
    PayloadsInRange(inp, k);
    FilteredInRange(inp, Payloads(inp)[..k], ReviewedAt(inp, chosen));
    FilteredInRange(inp, Payloads(inp)[..k], CutAt(inp, chosen));
  }

  lemma NextCut(inp: Inputs, chosen: seq<int>, k: nat)
    requires Shaped(inp) && k < |Payloads(inp)|
    ensures var p := Payloads(inp)[k];
      && ReviewedIn(inp, chosen, k + 1) == ReviewedIn(inp, chosen, k) + (if ReviewedAt(inp, chosen)(p) then [p] else [])
      && CutIn(inp, chosen, k + 1) == CutIn(inp, chosen, k) + (if CutAt(inp, chosen)(p) then [p] else [])
  {
    assert Payloads(inp)[..k + 1][..k] == Payloads(inp)[..k];
  }

  lemma NextCutItems(inp: Inputs, k: nat)
    requires Shaped(inp) && RankingOk(inp) && k < |Payloads(inp)|
    ensures var p, chosen := Payloads(inp)[k], inp.ranking.ids;
      && p < |inp.ids| && Survives(inp, p)
      && InRange(inp, ReviewedIn(inp, chosen, k)) && InRange(inp, ReviewedIn(inp, chosen, k + 1))
      && InRange(inp, CutIn(inp, chosen, k)) && InRange(inp, CutIn(inp, chosen, k + 1))
      && var x := Item(inp.ids[p], Verification(inp.filters[p].details));
      && Items(inp, ReviewedIn(inp, chosen, k + 1))
         == Items(inp, ReviewedIn(inp, chosen, k)) + (if ReviewedAt(inp, chosen)(p) then [x] else [])
      && Items(inp, CutIn(inp, chosen, k + 1))
         == Items(inp, CutIn(inp, chosen, k)) + (if CutAt(inp, chosen)(p) then [x] else [])
  {
    var p, chosen := Payloads(inp)[k], inp.ranking.ids;
    PayloadAt(inp, k);
    NextCut(inp, chosen, k);
    CutInRange(inp, chosen, k);
    CutInRange(inp, chosen, k + 1);
    if LeftOut(inp, chosen)(p) {
      CutItem(inp, p);
    }
  }

  /** What the first `k` payloads have added to the counters and lists. */
  ghost predicate CutState(inp: Inputs, k: nat, metrics: Metrics, review: seq<Item>, rejected: seq<Item>,
                           metrics': Metrics, review': seq<Item>, rejected': seq<Item>)
    requires Shaped(inp) && RankingOk(inp) && k <= |Payloads(inp)|
  {
    var reviewed, cut := ReviewedIn(inp, inp.ranking.ids, k), CutIn(inp, inp.ranking.ids, k);
    && InRange(inp, reviewed) && InRange(inp, cut)
    && metrics' == metrics.(stage2Review := metrics.stage2Review + |reviewed|,
                            stage2Excluded := metrics.stage2Excluded + |cut|)
    && review' == review + Items(inp, reviewed) && rejected' == rejected + Items(inp, cut)
  }

  lemma NextCutState(inp: Inputs, k: nat, metrics: Metrics, review: seq<Item>, rejected: seq<Item>,
                     metrics': Metrics, review': seq<Item>, rejected': seq<Item>)
    requires Shaped(inp) && RankingOk(inp) && k < |Payloads(inp)|
    requires CutState(inp, k, metrics, review, rejected, metrics', review', rejected')
    ensures var p, chosen := Payloads(inp)[k], inp.ranking.ids;
      && p < |inp.ids| && Survives(inp, p) && HasEvidence(inp, p)
      && var x, out := Item(inp.ids[p], Verification(inp.filters[p].details)), inp.ids[p] !in chosen;
         var reviewed := inp.extractions[p].relevanceReview || !inp.extractions[p].currentVersion;
         CutState(inp, k + 1, metrics, review, rejected,
                  metrics'.(stage2Review := metrics'.stage2Review + (if out && reviewed then 1 else 0),
                            stage2Excluded := metrics'.stage2Excluded + (if out && !reviewed then 1 else 0)),
                  review' + (if out && reviewed then [x] else []), rejected' + (if out && !reviewed then [x] else []))
  {
    var p, chosen := Payloads(inp)[k], inp.ranking.ids;
    PayloadAt(inp, k);
    NextCut(inp, chosen, k);
    NextCutItems(inp, k);
    var reviewed := inp.extractions[p].relevanceReview || !inp.extractions[p].currentVersion;
    assert LeftOut(inp, chosen)(p) <==> inp.ids[p] !in chosen;
    assert NeedsReview(inp)(p) <==> reviewed;
    assert ReviewedAt(inp, chosen)(p) <==> LeftOut(inp, chosen)(p) && NeedsReview(inp)(p);
    assert CutAt(inp, chosen)(p) <==> LeftOut(inp, chosen)(p) && !NeedsReview(inp)(p);
    assert |ReviewedIn(inp, chosen, k + 1)| == |ReviewedIn(inp, chosen, k)| + (if ReviewedAt(inp, chosen)(p) then 1 else 0);
    assert |CutIn(inp, chosen, k + 1)| == |CutIn(inp, chosen, k)| + (if CutAt(inp, chosen)(p) then 1 else 0);
  }

  lemma CutItem(inp: Inputs, p: nat)
    requires Shaped(inp) && RankingOk(inp) && p < |inp.ids| && Survives(inp, p) && HasEvidence(inp, p)
    requires inp.ids[p] !in inp.ranking.ids
    ensures ItemOf(inp, p) == Item(inp.ids[p], Verification(inp.filters[p].details))
  {
  }

  function RankFailedRecord(r: Record, d: Details): Record {
    Logged(Closed(r, OutProcessingFailed, Stage2, Verification(d)), Event(Stage2, Failed, None))
  }

  function CutRecord(r: Record, o: Outcome, d: Details): Record {
    Logged(Closed(r, o, Stage2, Verification(d)), Event(Stage2, Became(o), None))
  }

  lemma RankFailedRecordIs(inp: Inputs, i: nat)
    requires Shaped(inp) && i < |inp.ids| && Survives(inp, i) && HasEvidence(inp, i) && !RankingOk(inp)
    ensures RankFailedRecord(RecordAt(inp, i, 2), inp.filters[i].details) == RecordAt(inp, i, 3)
  {
    var h := OpeningHistory(inp.filters[i]);
    assert h + [Event(Stage2, WithEvidence, None)] + [Event(Stage2, Failed, None)]
        == h + [Event(Stage2, WithEvidence, None), Event(Stage2, Failed, None)];
  }

  lemma CutRecordIs(inp: Inputs, i: nat, o: Outcome)
    requires Shaped(inp) && i < |inp.ids| && Survives(inp, i) && HasEvidence(inp, i) && RankingOk(inp)
    requires inp.ids[i] !in inp.ranking.ids
    requires o == if NeedsReview(inp)(i) then OutReview else OutCutoffExcluded
    ensures CutRecord(RecordAt(inp, i, 2), o, inp.filters[i].details) == RecordAt(inp, i, 3)
  {
    var h := OpeningHistory(inp.filters[i]);
    assert h + [Event(Stage2, WithEvidence, None)] + [Event(Stage2, Became(o), None)]
        == h + [Event(Stage2, WithEvidence, None), Event(Stage2, Became(o), None)];
  }

  /** The record of the k-th payload moves on; a chosen candidate keeps its record for Stage 3. */
  ghost function RankedRecord(inp: Inputs, r: Record, p: nat): Record
    requires Shaped(inp) && p < |inp.ids| && Survives(inp, p)
  {
    var d := inp.filters[p].details;
    if !RankingOk(inp) then RankFailedRecord(r, d)
    else if inp.ids[p] in inp.ranking.ids then r
    else CutRecord(r, if NeedsReview(inp)(p) then OutReview else OutCutoffExcluded, d)
  }

  lemma NextRankedRecords(inp: Inputs, outcomes: map<int, Record>, k: nat)
    requires Shaped(inp) && k < |Payloads(inp)| && RecordsAre(inp, outcomes, 2, Payloads(inp)[..k])
    ensures var p := Payloads(inp)[k];
      && p < |inp.ids| && Survives(inp, p) && inp.ids[p] in outcomes
      && RecordsAre(inp, outcomes[inp.ids[p] := RankedRecord(inp, outcomes[inp.ids[p]], p)], 2, Payloads(inp)[..k + 1])
  {
    PayloadAt(inp, k);
    var p := Payloads(inp)[k];
    assert inp.ids[p] in outcomes.Keys;
    RankedRecordIs(inp, p);
    MoveRecord(inp, outcomes, 2, Payloads(inp)[..k], p, RankedRecord(inp, outcomes[inp.ids[p]], p));
  }

  lemma RankedRecordIs(inp: Inputs, p: nat)
    requires Shaped(inp) && p < |inp.ids| && Survives(inp, p) && HasEvidence(inp, p)
    ensures RankedRecord(inp, RecordAt(inp, p, 2), p) == RecordAt(inp, p, 3)
  {
    if !RankingOk(inp) {
      RankFailedRecordIs(inp, p);
    } else if inp.ids[p] !in inp.ranking.ids {
      CutRecordIs(inp, p, if NeedsReview(inp)(p) then OutReview else OutCutoffExcluded);
    }
  }

  lemma RankingOver(inp: Inputs, outcomes: map<int, Record>)
    requires Shaped(inp) && RecordsAre(inp, outcomes, 2, Payloads(inp))
    ensures RecordsAre(inp, outcomes, 3, [])
  {
    PayloadsAre(inp);
    PhaseOver(inp, outcomes, 2, Payloads(inp));
  }

  lemma UnrankedItems(inp: Inputs, k: nat)
    requires Shaped(inp) && !RankingOk(inp) && k < |Payloads(inp)|
    ensures var p := Payloads(inp)[k];
      && p < |inp.ids| && Survives(inp, p)
      && InRange(inp, Payloads(inp)[..k]) && InRange(inp, Payloads(inp)[..k + 1])
      && Items(inp, Payloads(inp)[..k + 1])
         == Items(inp, Payloads(inp)[..k]) + [Item(inp.ids[p], Verification(inp.filters[p].details))]
  {
    PayloadAt(inp, k);
    PayloadsInRange(inp, k);
    PayloadsInRange(inp, k + 1);
  }

  // ----- evaluation

  function EvaluationAt(results: seq<Evaluation>): int -> Evaluation {
    (id: int) => EvaluationFor(results, id)
  }

  function VerdictOrder(v: Verdict): nat {
    match v
    case Success => 0
    case ReviewRequired => 1
    case EvaluationFailed => 2
  }

  /** Successful decisions first, then the better score, then the smaller candidate id. */
  predicate EvaluationBefore(a: Evaluation, b: Evaluation) {
    if a.verdict != b.verdict then VerdictOrder(a.verdict) < VerdictOrder(b.verdict)
    else if a.verdict != EvaluationFailed && a.score != b.score then a.score > b.score
    else a.id <= b.id
  }

  function VerdictIs(v: Verdict): Evaluation -> bool {
    (e: Evaluation) => e.verdict == v
  }

  ghost function Finals(inp: Inputs): seq<Evaluation> {
    Map(Chosen(inp), EvaluationAt(Results(inp)))
  }

  ghost function Ordered(inp: Inputs): seq<Evaluation> {
    Sort(Finals(inp), EvaluationBefore)
  }

  function IndexOf(ids: seq<int>, id: int): (i: nat)
    ensures id in ids ==> i < |ids| && ids[i] == id
  {
    if ids == [] || ids[0] == id then 0 else 1 + IndexOf(ids[1..], id)
  }

  function PlaceOf(inp: Inputs): Evaluation -> nat {
    (e: Evaluation) => IndexOf(inp.ids, e.id)
  }

  lemma {:induction false} EvaluationForId(results: seq<Evaluation>, id: int)
    ensures EvaluationFor(results, id).id == id
  {
    if results != [] {
      EvaluationForId(results[..|results| - 1], id);
    }
  }

  lemma ChosenAre(inp: Inputs, id: int)
    requires id in Chosen(inp)
    ensures RankingOk(inp) && id in inp.ids
    ensures exists p :: p in Payloads(inp) && p < |inp.ids| && inp.ids[p] == id
    ensures Distinct(inp.ids) ==> IndexOf(inp.ids, id) in Payloads(inp)
  {
    PayloadsAre(inp);
    assert id in PayloadIds(inp);
    var k :| 0 <= k < |Payloads(inp)| && PayloadIds(inp)[k] == id;
    var p := Payloads(inp)[k];
    assert p in Payloads(inp) && inp.ids[p] == id;
  }

  /** The evaluations in order: one per chosen candidate, each the one returned for it. */
  lemma OrderedAre(inp: Inputs)
    ensures multiset(Ordered(inp)) == multiset(Finals(inp)) && |Ordered(inp)| == |Chosen(inp)|
    ensures forall e :: e in Ordered(inp) ==> e.id in Chosen(inp) && e == EvaluationFor(Results(inp), e.id)
    ensures forall i, j :: 0 <= i < j < |Ordered(inp)| ==> Ordered(inp)[i].id != Ordered(inp)[j].id
  {
    var finals := Finals(inp);
    SortPermutes(finals, EvaluationBefore);
    SortMembers(finals, EvaluationBefore);
    forall i | 0 <= i < |finals| ensures finals[i].id == Chosen(inp)[i] {
      EvaluationForId(Results(inp), Chosen(inp)[i]);
    }
    assert Distinct(finals);
    SortDistinct(finals, EvaluationBefore);
    forall e | e in Ordered(inp) ensures e.id in Chosen(inp) && e == EvaluationFor(Results(inp), e.id) {
      assert e in finals;
    }
    var ordered := Ordered(inp);
    forall i, j | 0 <= i < j < |ordered| ensures ordered[i].id != ordered[j].id {
      assert ordered[i] in ordered && ordered[j] in ordered;
    }
  }

  function EvaluatedSnapshot(d: Details, v: Verdict): Snapshot {
    Verification(d).(provisional := Some(v == Success && Reasons(d) != []))
  }

  function VerdictOutcome(v: Verdict): Outcome {
    match v
    case Success => OutSuccess
    case ReviewRequired => OutReview
    case EvaluationFailed => OutEvaluationFailed
  }

  function EvaluatedRecord(r: Record, v: Verdict, d: Details): Record {
    Logged(Closed(r, VerdictOutcome(v), Stage3, EvaluatedSnapshot(d, v)), Event(Stage3, Became(VerdictOutcome(v)), None))
  }

  lemma EvaluatedIs(inp: Inputs, e: Evaluation)
    requires Shaped(inp) && Distinct(inp.ids) && e in Ordered(inp)
    ensures var p := PlaceOf(inp)(e);
      && p < |inp.ids| && inp.ids[p] == e.id && Survives(inp, p)
      && FateOf(inp, p) == Evaluated(e.verdict)
      && ItemOf(inp, p) == Item(e.id, EvaluatedSnapshot(inp.filters[p].details, e.verdict))
      && EvaluatedRecord(RecordAt(inp, p, 3), e.verdict, inp.filters[p].details) == RecordAt(inp, p, 4)
  {
    OrderedAre(inp);
    ChosenAre(inp, e.id);
    PayloadsAre(inp);
    var p := PlaceOf(inp)(e);
    var h, o := OpeningHistory(inp.filters[p]), VerdictOutcome(e.verdict);
    assert FateOf(inp, p) == Evaluated(e.verdict);
    assert h + [Event(Stage2, WithEvidence, None)] + [Event(Stage3, Became(o), None)]
        == h + [Event(Stage2, WithEvidence, None), Event(Stage3, Became(o), None)];
    assert OutcomeOf(Evaluated(e.verdict)) == o;
  }

  /** The positions of the first `k` evaluations, and of those among them with verdict `v`. */
  ghost function PlacesIn(inp: Inputs, k: nat): seq<nat>
    requires k <= |Ordered(inp)|
  {
    Map(Ordered(inp)[..k], PlaceOf(inp))
  }

  ghost function VerdictIn(inp: Inputs, v: Verdict, k: nat): seq<nat>
    requires k <= |Ordered(inp)|
  {
    Map(Filter(Ordered(inp)[..k], VerdictIs(v)), PlaceOf(inp))
  }

  lemma NextVerdict(inp: Inputs, v: Verdict, k: nat)
    requires Shaped(inp) && k < |Ordered(inp)|
    ensures var e := Ordered(inp)[k];
      VerdictIn(inp, v, k + 1) == VerdictIn(inp, v, k) + (if e.verdict == v then [PlaceOf(inp)(e)] else [])
  {
    assert Ordered(inp)[..k + 1][..k] == Ordered(inp)[..k];
  }

  lemma VerdictInRange(inp: Inputs, v: Verdict, k: nat)
    requires Shaped(inp) && Distinct(inp.ids) && k <= |Ordered(inp)|
    ensures InRange(inp, VerdictIn(inp, v, k))
  {
    var es := Filter(Ordered(inp)[..k], VerdictIs(v));
    FilterMembers(Ordered(inp)[..k], VerdictIs(v));
    forall i | 0 <= i < |es| ensures VerdictIn(inp, v, k)[i] < |inp.ids| {
      assert es[i] in Ordered(inp)[..k];
      EvaluatedIs(inp, es[i]);
    }
  }

  lemma NextVerdictItems(inp: Inputs, v: Verdict, k: nat)
    requires Shaped(inp) && Distinct(inp.ids) && k < |Ordered(inp)|
    ensures var e := Ordered(inp)[k]; var p := PlaceOf(inp)(e);
      && p < |inp.ids| && Survives(inp, p)
      && InRange(inp, VerdictIn(inp, v, k)) && InRange(inp, VerdictIn(inp, v, k + 1))
      && Items(inp, VerdictIn(inp, v, k + 1)) == Items(inp, VerdictIn(inp, v, k))
         + (if e.verdict == v then [Item(e.id, EvaluatedSnapshot(inp.filters[p].details, v))] else [])
  {
    NextVerdict(inp, v, k);
    VerdictInRange(inp, v, k);
    VerdictInRange(inp, v, k + 1);
    EvaluatedIs(inp, Ordered(inp)[k]);
  }

  lemma NextEvaluatedRecords(inp: Inputs, outcomes: map<int, Record>, k: nat, d: Details)
    requires Shaped(inp) && k < |Ordered(inp)| && RecordsAre(inp, outcomes, 3, PlacesIn(inp, k))
    requires Distinct(inp.ids) ==>
               var p := PlaceOf(inp)(Ordered(inp)[k]); p < |inp.ids| && Survives(inp, p) && d == inp.filters[p].details
    ensures var e := Ordered(inp)[k];
      && e.id in outcomes
      && RecordsAre(inp, outcomes[e.id := EvaluatedRecord(outcomes[e.id], e.verdict, d)], 3, PlacesIn(inp, k + 1))
  {
    var e := Ordered(inp)[k];
    var p := PlaceOf(inp)(e);
    OrderedAre(inp);
    assert e in Ordered(inp);
    ChosenAre(inp, e.id);
    assert e.id in outcomes.Keys;
    if Distinct(inp.ids) {
      EvaluatedIs(inp, e);
      NewPlace(inp, k);
    }
    MoveRecord(inp, outcomes, 3, PlacesIn(inp, k), p, EvaluatedRecord(outcomes[e.id], e.verdict, d));
    assert PlacesIn(inp, k + 1) == PlacesIn(inp, k) + [p];
  }

  lemma NewPlace(inp: Inputs, k: nat)
    requires Shaped(inp) && Distinct(inp.ids) && k < |Ordered(inp)|
    ensures PlaceOf(inp)(Ordered(inp)[k]) !in PlacesIn(inp, k)
  {
    OrderedAre(inp);
    EvaluatedIs(inp, Ordered(inp)[k]);
    forall i | 0 <= i < k ensures PlacesIn(inp, k)[i] != PlaceOf(inp)(Ordered(inp)[k]) {
      EvaluatedIs(inp, Ordered(inp)[i]);
      assert Ordered(inp)[i].id != Ordered(inp)[k].id;
    }
  }

  lemma EvaluationOver(inp: Inputs, outcomes: map<int, Record>)
    requires Shaped(inp) && RecordsAre(inp, outcomes, 3, PlacesIn(inp, |Ordered(inp)|))
    ensures RecordsAre(inp, outcomes, 4, [])
  {
    if Distinct(inp.ids) {
      forall i: nat | i < |inp.ids| && i !in PlacesIn(inp, |Ordered(inp)|)
        ensures RecordAt(inp, i, 4) == RecordAt(inp, i, 3)
      {
        if FateOf(inp, i).Evaluated? {
          EvaluatedHasPlace(inp, i);
        }
      }
    }
    EvaluationOverAny(inp, outcomes);
  }

  lemma EvaluationOverAny(inp: Inputs, outcomes: map<int, Record>)
    requires Shaped(inp) && RecordsAre(inp, outcomes, 3, PlacesIn(inp, |Ordered(inp)|))
    requires Distinct(inp.ids) ==> forall i: nat :: i < |inp.ids| && i !in PlacesIn(inp, |Ordered(inp)|) ==>
               RecordAt(inp, i, 4) == RecordAt(inp, i, 3)
    ensures RecordsAre(inp, outcomes, 4, [])
  {
  }

  lemma EvaluatedHasPlace(inp: Inputs, i: nat)
    requires Shaped(inp) && Distinct(inp.ids) && i < |inp.ids| && FateOf(inp, i).Evaluated?
    ensures i in PlacesIn(inp, |Ordered(inp)|)
  {
    var id := inp.ids[i];
    OrderedAre(inp);
    var finals := Finals(inp);
    var k :| 0 <= k < |Chosen(inp)| && Chosen(inp)[k] == id;
    EvaluationForId(Results(inp), id);
    assert finals[k].id == id && finals[k] in multiset(finals);
    assert finals[k] in multiset(Ordered(inp));
    var m :| 0 <= m < |Ordered(inp)| && Ordered(inp)[m] == finals[k];
    assert Ordered(inp)[..|Ordered(inp)|] == Ordered(inp);
    assert PlacesIn(inp, |Ordered(inp)|)[m] == IndexOf(inp.ids, id);
  }

  function EvaluatedMetricsStep(m: Metrics, v: Verdict): Metrics {
    match v
    case Success => m.(stage3Succeeded := m.stage3Succeeded + 1)
    case ReviewRequired => m.(stage3Review := m.stage3Review + 1)
    case EvaluationFailed => m.(stage3Failed := m.stage3Failed + 1)
  }

  /** The public entry of an evaluation, when it has the verdict of this list. */
  function OnlyFor(v: Verdict, e: Evaluation, d: Details): seq<Item> {
    if e.verdict == v then [Item(e.id, EvaluatedSnapshot(d, v))] else []
  }

  ghost predicate EvaluatedMetrics(inp: Inputs, k: nat, start: Metrics, m: Metrics)
    requires k <= |Ordered(inp)|
  {
    m == start.(stage3Succeeded := start.stage3Succeeded + |VerdictIn(inp, Success, k)|,
                stage3Review := start.stage3Review + |VerdictIn(inp, ReviewRequired, k)|,
                stage3Failed := start.stage3Failed + |VerdictIn(inp, EvaluationFailed, k)|)
  }

  ghost predicate ListGrew(inp: Inputs, v: Verdict, k: nat, start: seq<Item>, list: seq<Item>)
    requires Shaped(inp) && k <= |Ordered(inp)|
  {
    InRange(inp, VerdictIn(inp, v, k)) && list == start + Items(inp, VerdictIn(inp, v, k))
  }

  ghost predicate EvaluatedLists(inp: Inputs, k: nat, leaderboard: seq<Item>, review: seq<Item>, failed: seq<Item>,
                                 leaderboard': seq<Item>, review': seq<Item>, failed': seq<Item>)
    requires Shaped(inp) && k <= |Ordered(inp)|
  {
    && ListGrew(inp, Success, k, leaderboard, leaderboard')
    && ListGrew(inp, ReviewRequired, k, review, review')
    && ListGrew(inp, EvaluationFailed, k, failed, failed')
  }

  lemma NextEvaluatedMetrics(inp: Inputs, k: nat, start: Metrics, m: Metrics)
    requires Shaped(inp) && k < |Ordered(inp)| && EvaluatedMetrics(inp, k, start, m)
    ensures EvaluatedMetrics(inp, k + 1, start, EvaluatedMetricsStep(m, Ordered(inp)[k].verdict))
  {
    NextVerdict(inp, Success, k);
    NextVerdict(inp, ReviewRequired, k);
    NextVerdict(inp, EvaluationFailed, k);
  }

  lemma NextList(inp: Inputs, v: Verdict, k: nat, start: seq<Item>, list: seq<Item>)
    requires Shaped(inp) && Distinct(inp.ids) && k < |Ordered(inp)| && ListGrew(inp, v, k, start, list)
    ensures var e := Ordered(inp)[k]; var p := PlaceOf(inp)(e);
      && p < |inp.ids| && Survives(inp, p)
      && ListGrew(inp, v, k + 1, start, list + OnlyFor(v, e, inp.filters[p].details))
  {
    NextVerdictItems(inp, v, k);
  }

  lemma NextEvaluatedLists(inp: Inputs, k: nat, leaderboard: seq<Item>, review: seq<Item>, failed: seq<Item>,
                           leaderboard': seq<Item>, review': seq<Item>, failed': seq<Item>)
    requires Shaped(inp) && Distinct(inp.ids) && k < |Ordered(inp)|
    requires EvaluatedLists(inp, k, leaderboard, review, failed, leaderboard', review', failed')
    ensures var e := Ordered(inp)[k]; var p := PlaceOf(inp)(e);
      && p < |inp.ids| && Survives(inp, p)
      && var d := inp.filters[p].details;
         EvaluatedLists(inp, k + 1, leaderboard, review, failed, leaderboard' + OnlyFor(Success, e, d),
                        review' + OnlyFor(ReviewRequired, e, d), failed' + OnlyFor(EvaluationFailed, e, d))
  {
    NextList(inp, Success, k, leaderboard, leaderboard');
    NextList(inp, ReviewRequired, k, review, review');
    NextList(inp, EvaluationFailed, k, failed, failed');
  }

  ghost predicate EvaluatedState(inp: Inputs, k: nat, leaderboard: seq<Item>, review: seq<Item>, failed: seq<Item>,
                                 leaderboard': seq<Item>, review': seq<Item>, failed': seq<Item>,
                                 outcomes: map<int, Record>)
    requires Shaped(inp) && k <= |Ordered(inp)|
  {
    && (Distinct(inp.ids) ==> EvaluatedLists(inp, k, leaderboard, review, failed, leaderboard', review', failed'))
    && RecordsAre(inp, outcomes, 3, PlacesIn(inp, k))
  }

  lemma NextEvaluatedState(inp: Inputs, k: nat, d: Details,
                           leaderboard: seq<Item>, review: seq<Item>, failed: seq<Item>,
                           leaderboard': seq<Item>, review': seq<Item>, failed': seq<Item>,
                           outcomes: map<int, Record>)
    requires Shaped(inp) && k < |Ordered(inp)|
    requires EvaluatedState(inp, k, leaderboard, review, failed, leaderboard', review', failed', outcomes)
    requires Distinct(inp.ids) ==>
               var p := PlaceOf(inp)(Ordered(inp)[k]); p < |inp.ids| && Survives(inp, p) && d == inp.filters[p].details
    ensures var e := Ordered(inp)[k];
      && e.id in outcomes
      && EvaluatedState(inp, k + 1, leaderboard, review, failed, leaderboard' + OnlyFor(Success, e, d),
                        review' + OnlyFor(ReviewRequired, e, d), failed' + OnlyFor(EvaluationFailed, e, d),
                        outcomes[e.id := EvaluatedRecord(outcomes[e.id], e.verdict, d)])
  {
    NextEvaluatedRecords(inp, outcomes, k, d);
    if Distinct(inp.ids) {
      NextEvaluatedLists(inp, k, leaderboard, review, failed, leaderboard', review', failed');
    }
  }

  lemma StartEvaluatedState(inp: Inputs, leaderboard: seq<Item>, review: seq<Item>, failed: seq<Item>,
                            outcomes: map<int, Record>)
    requires Shaped(inp) && RecordsAre(inp, outcomes, 3, [])
    ensures EvaluatedState(inp, 0, leaderboard, review, failed, leaderboard, review, failed, outcomes)
  {
    StartEvaluation(inp);
  }

  class Screen {
    var metrics: Metrics
    var leaderboard: seq<Item>
    var rejected: seq<Item>
    var review: seq<Item>
    var failed: seq<Item>
    var outcomes: map<int, Record>

    constructor (inp: Inputs)
      requires Shaped(inp)
      ensures metrics == NoMetrics(|inp.ids|)
      ensures leaderboard == [] && rejected == [] && review == [] && failed == []
      ensures RecordsAre(inp, outcomes, 0, [])
    {
      metrics := NoMetrics(|inp.ids|);
      leaderboard, rejected, review, failed := [], [], [], [];
      outcomes := map id | id in inp.ids :: Unread(id);
    }

    /** Read one candidate and evaluate its rules. */
    method FilterOne(id: int, filtering: Filtering) returns (survives: bool)
      requires id in outcomes
      modifies this
      ensures survives <==> filtering.Rules? && filtering.status != Fail
      ensures metrics == RuledMetricsStep(old(metrics), filtering)
      ensures leaderboard == old(leaderboard) && review == old(review)
      ensures failed == old(failed) + (if filtering.RulesRaised? then [Item(id, BLANK)] else [])
      ensures rejected == old(rejected) + (if filtering.Rules? && filtering.status == Fail then [Item(id, BLANK)] else [])
      ensures outcomes == old(outcomes)[id := RuledRecord(old(outcomes[id]), filtering)]
    {
      survives := false;
      outcomes := outcomes[id := Logged(outcomes[id], Event(Stage0, Processed, None))];
      metrics := metrics.(stage0Processed := metrics.stage0Processed + 1);
      match filtering {
        case RulesRaised =>
          failed := failed + [Item(id, BLANK)];
          outcomes := outcomes[id := Closed(outcomes[id], OutProcessingFailed, Stage1, BLANK)];
          outcomes := outcomes[id := Logged(outcomes[id], Event(Stage1, Failed, None))];
          metrics := metrics.(stage1Failed := metrics.stage1Failed + 1);
        case Rules(status, details) =>
          outcomes := outcomes[id := Logged(outcomes[id], Event(Stage1, Ruled(status), Some(details)))];
          if status == Pass {
            metrics := metrics.(stage1Passed := metrics.stage1Passed + 1);
            survives := true;
          } else if status == Review {
            metrics := metrics.(stage1Review := metrics.stage1Review + 1);
            survives := true;
          } else {
            metrics := metrics.(stage1Rejected := metrics.stage1Rejected + 1);
            rejected := rejected + [Item(id, BLANK)];
            outcomes := outcomes[id := Closed(outcomes[id], OutFilterRejected, Stage1, BLANK)];
          }
      }
    }

    /** Stage 0 and Stage 1 over the whole batch. */
    method FilterAll(inp: Inputs) returns (survivors: seq<nat>)
      requires Shaped(inp) && RecordsAre(inp, outcomes, 0, [])
      requires metrics == NoMetrics(|inp.ids|) && rejected == [] && failed == []
      modifies this
      ensures survivors == Survivors(inp)
      ensures metrics == RuledMetrics(inp, |inp.ids|)
      ensures leaderboard == old(leaderboard) && review == old(review)
      ensures InRange(inp, RefusedIn(inp, |inp.ids|)) && rejected == Items(inp, RefusedIn(inp, |inp.ids|))
      ensures InRange(inp, RaisedIn(inp, |inp.ids|)) && failed == Items(inp, RaisedIn(inp, |inp.ids|))
      ensures RecordsAre(inp, outcomes, 1, [])
    {
      survivors := [];
      var i := 0;
      while i < |inp.ids|
        invariant 0 <= i <= |inp.ids|
        invariant survivors == SurvivorsIn(inp, i)
        invariant metrics == RuledMetrics(inp, i)
        invariant leaderboard == old(leaderboard) && review == old(review)
        invariant InRange(inp, RefusedIn(inp, i)) && rejected == Items(inp, RefusedIn(inp, i))
        invariant InRange(inp, RaisedIn(inp, i)) && failed == Items(inp, RaisedIn(inp, i))
        invariant RecordsAre(inp, outcomes, 0, Positions(|inp.ids|)[..i])
      {
        NextRuled(inp, i);
        NextRuledMetrics(inp, i);
        NextRuledRecords(inp, outcomes, i);
        NextRuledItems(inp, i);
        var survives := FilterOne(inp.ids[i], inp.filters[i]);
        if survives {
          survivors := survivors + [i];
        }
        i := i + 1;
      }
      assert Positions(|inp.ids|)[..i] == Positions(|inp.ids|);
      RulesOver(inp, outcomes);
    }

    /** Extract the evidence of one survivor; the payload must name its owner. */
    method ExtractOne(id: int, extraction: Extraction, details: Details) returns (ok: bool)
      requires id in outcomes
      modifies this
      ensures ok <==> extraction.Extracted? && extraction.owner == id
      ensures metrics == old(metrics).(stage2Failed := old(metrics).stage2Failed + (if ok then 0 else 1))
      ensures leaderboard == old(leaderboard) && review == old(review) && rejected == old(rejected)
      ensures failed == old(failed) + (if ok then [] else [Item(id, Verification(details))])
      ensures outcomes == old(outcomes)[id := ExtractedRecord(old(outcomes[id]), ok, details)]
    {
      ok := extraction.Extracted? && extraction.owner == id;
      if !ok {
        failed := failed + [Item(id, Verification(details))];
        outcomes := outcomes[id := Closed(outcomes[id], OutExtractionFailed, Stage2, Verification(details))];
        outcomes := outcomes[id := Logged(outcomes[id], Event(Stage2, Failed, None))];
        metrics := metrics.(stage2Failed := metrics.stage2Failed + 1);
        return;
      }
      outcomes := outcomes[id := Logged(outcomes[id], Event(Stage2, WithEvidence, None))];
    }

    method ExtractAll(inp: Inputs, survivors: seq<nat>) returns (payloads: seq<nat>)
      requires Shaped(inp) && survivors == Survivors(inp) && RecordsAre(inp, outcomes, 1, [])
      modifies this
      ensures payloads == Payloads(inp)
      ensures InRange(inp, LostIn(inp, |survivors|))
      ensures metrics == old(metrics).(stage2Failed := old(metrics).stage2Failed + |LostIn(inp, |survivors|)|)
      ensures leaderboard == old(leaderboard) && review == old(review) && rejected == old(rejected)
      ensures failed == old(failed) + Items(inp, LostIn(inp, |survivors|))
      ensures RecordsAre(inp, outcomes, 2, [])
    {
      payloads := [];
      var k := 0;
      LostInRange(inp, 0);
      while k < |survivors|
        invariant 0 <= k <= |survivors|
        invariant payloads == PayloadsIn(inp, k)
        invariant InRange(inp, LostIn(inp, k))
        invariant metrics == old(metrics).(stage2Failed := old(metrics).stage2Failed + |LostIn(inp, k)|)
        invariant leaderboard == old(leaderboard) && review == old(review) && rejected == old(rejected)
        invariant failed == old(failed) + Items(inp, LostIn(inp, k))
        invariant RecordsAre(inp, outcomes, 1, survivors[..k])
      {
        NextExtracted(inp, k);
        NextLostItems(inp, k);
        NextExtractedRecords(inp, outcomes, k);
        var p := survivors[k];
        var ok := ExtractOne(inp.ids[p], inp.extractions[p], inp.filters[p].details);
        if ok {
          payloads := payloads + [p];
        }
        k := k + 1;
      }
      assert survivors[..k] == survivors;
      ExtractionOver(inp, outcomes);
    }

    /** Whether the shortlist names each candidate once and only candidates with evidence. */
    method CheckShortlist(inp: Inputs, payloads: seq<nat>) returns (valid: bool)
      requires payloads == Payloads(inp)
      ensures valid <==> RankingOk(inp)
    {
      if inp.ranking.RankingRaised? {
        return false;
      }
      var ids := inp.ranking.ids;
      ElementsCount(ids);
      valid := |ids| == |Elements(ids)| && Elements(ids) <= Elements(Map(payloads, IdAt(inp)));
      if valid {
        forall id | id in ids ensures id in PayloadIds(inp) {
          assert id in Elements(ids);
        }
      } else if RankingOk(inp) {
        assert forall id :: id in Elements(ids) ==> id in Elements(Map(payloads, IdAt(inp)));
      }
    }

    /** Without a usable shortlist every extracted candidate fails. */
    method FailRanking(inp: Inputs, payloads: seq<nat>)
      requires Shaped(inp) && payloads == Payloads(inp) && !RankingOk(inp) && RecordsAre(inp, outcomes, 2, [])
      modifies this
      ensures InRange(inp, payloads)
      ensures metrics == old(metrics).(stage2Failed := old(metrics).stage2Failed + |payloads|)
      ensures leaderboard == old(leaderboard) && review == old(review) && rejected == old(rejected)
      ensures failed == old(failed) + Items(inp, payloads)
      ensures RecordsAre(inp, outcomes, 3, [])
    {
      var k := 0;
      while k < |payloads|
        invariant 0 <= k <= |payloads| && InRange(inp, payloads[..k])
        invariant metrics == old(metrics).(stage2Failed := old(metrics).stage2Failed + k)
        invariant leaderboard == old(leaderboard) && review == old(review) && rejected == old(rejected)
        invariant failed == old(failed) + Items(inp, payloads[..k])
        invariant RecordsAre(inp, outcomes, 2, payloads[..k])
      {
        UnrankedItems(inp, k);
        NextRankedRecords(inp, outcomes, k);
        var p := payloads[k];
        var id, verification := inp.ids[p], Verification(inp.filters[p].details);
        failed := failed + [Item(id, verification)];
        outcomes := outcomes[id := Logged(Closed(outcomes[id], OutProcessingFailed, Stage2, verification),
                                          Event(Stage2, Failed, None))];
        metrics := metrics.(stage2Failed := metrics.stage2Failed + 1);
        k := k + 1;
      }
      assert payloads[..k] == payloads;
      RankingOver(inp, outcomes);
    }

    /** Everyone extracted but not chosen is sent to review or cut. */
    method CutOthers(inp: Inputs, payloads: seq<nat>)
      requires Shaped(inp) && payloads == Payloads(inp) && RankingOk(inp) && RecordsAre(inp, outcomes, 2, [])
      modifies this
      ensures var chosen := inp.ranking.ids;
        && InRange(inp, ReviewedIn(inp, chosen, |payloads|)) && InRange(inp, CutIn(inp, chosen, |payloads|))
        && metrics == old(metrics).(
                        stage2Review := old(metrics).stage2Review + |ReviewedIn(inp, chosen, |payloads|)|,
                        stage2Excluded := old(metrics).stage2Excluded + |CutIn(inp, chosen, |payloads|)|)
        && leaderboard == old(leaderboard) && failed == old(failed)
        && review == old(review) + Items(inp, ReviewedIn(inp, chosen, |payloads|))
        && rejected == old(rejected) + Items(inp, CutIn(inp, chosen, |payloads|))
      ensures RecordsAre(inp, outcomes, 3, [])
    {
      var chosen := inp.ranking.ids;
      var k := 0;
      CutInRange(inp, chosen, 0);
      while k < |payloads|
        invariant 0 <= k <= |payloads|
        invariant CutState(inp, k, old(metrics), old(review), old(rejected), metrics, review, rejected)
        invariant leaderboard == old(leaderboard) && failed == old(failed)
        invariant RecordsAre(inp, outcomes, 2, payloads[..k])
      {
        PayloadAt(inp, k);
        NextCutState(inp, k, old(metrics), old(review), old(rejected), metrics, review, rejected);
        NextRankedRecords(inp, outcomes, k);
        var p := payloads[k];
        CutOne(inp.ids[p], inp.ids[p] in chosen, inp.extractions[p], inp.filters[p].details);
        k := k + 1;
      }
      assert payloads[..k] == payloads;
      RankingOver(inp, outcomes);
    }

    method CutOne(id: int, chosen: bool, extraction: Extraction, details: Details)
      requires id in outcomes && extraction.Extracted?
      modifies this
      ensures var x, reviewed := Item(id, Verification(details)), extraction.relevanceReview || !extraction.currentVersion;
        && metrics == old(metrics).(
                        stage2Review := old(metrics).stage2Review + (if !chosen && reviewed then 1 else 0),
                        stage2Excluded := old(metrics).stage2Excluded + (if !chosen && !reviewed then 1 else 0))
        && review == old(review) + (if !chosen && reviewed then [x] else [])
        && rejected == old(rejected) + (if !chosen && !reviewed then [x] else [])
        && outcomes == old(outcomes)[id := if chosen then old(outcomes[id]) else
                         CutRecord(old(outcomes[id]), if reviewed then OutReview else OutCutoffExcluded, details)]
      ensures leaderboard == old(leaderboard) && failed == old(failed)
    {
      if chosen {
        return;
      }
      var x := Item(id, Verification(details));
      if extraction.relevanceReview || !extraction.currentVersion {
        review := review + [x];
        metrics := metrics.(stage2Review := metrics.stage2Review + 1);
        outcomes := outcomes[id := Closed(outcomes[id], OutReview, Stage2, x.snapshot)];
        outcomes := outcomes[id := Logged(outcomes[id], Event(Stage2, Became(OutReview), None))];
        return;
      }
      rejected := rejected + [x];
      outcomes := outcomes[id := Closed(outcomes[id], OutCutoffExcluded, Stage2, x.snapshot)];
      outcomes := outcomes[id := Logged(outcomes[id], Event(Stage2, Became(OutCutoffExcluded), None))];
      metrics := metrics.(stage2Excluded := metrics.stage2Excluded + 1);
    }

    /** The filter details of every survivor, by candidate id. */
    method Stage1Details(inp: Inputs, survivors: seq<nat>) returns (details: map<int, Details>)
      requires Shaped(inp) && survivors == Survivors(inp)
      ensures DetailsKnown(inp, details)
    {
      details := map[];
      SurvivorsAre(inp);
      var k := 0;
      while k < |survivors|
        invariant 0 <= k <= |survivors|
        invariant forall i :: 0 <= i < k ==> survivors[i] < |inp.ids| && inp.ids[survivors[i]] in details
        invariant Distinct(inp.ids) ==> forall i :: 0 <= i < k ==>
                    Survives(inp, survivors[i]) && details[inp.ids[survivors[i]]] == inp.filters[survivors[i]].details
      {
        var p := survivors[k];
        assert p in survivors;
        details := details[inp.ids[p] := inp.filters[p].details];
        k := k + 1;
      }
    }

    /** Store one evaluation. */
    method EvaluateOne(e: Evaluation, d: Details)
      requires e.id in outcomes
      modifies this
      ensures metrics == EvaluatedMetricsStep(old(metrics), e.verdict)
      ensures leaderboard == old(leaderboard) + OnlyFor(Success, e, d)
      ensures review == old(review) + OnlyFor(ReviewRequired, e, d)
      ensures failed == old(failed) + OnlyFor(EvaluationFailed, e, d)
      ensures rejected == old(rejected)
      ensures outcomes == old(outcomes)[e.id := EvaluatedRecord(old(outcomes[e.id]), e.verdict, d)]
    {
      var snapshot := Verification(d);
      snapshot := snapshot.(provisional := Some(e.verdict == Success && snapshot.required == Some(true)));
      var x := Item(e.id, snapshot);
      var outcome := VerdictOutcome(e.verdict);
      outcomes := outcomes[e.id := Closed(outcomes[e.id], outcome, Stage3, snapshot)];
      outcomes := outcomes[e.id := Logged(outcomes[e.id], Event(Stage3, Became(outcome), None))];
      if e.verdict == Success {
        metrics := metrics.(stage3Succeeded := metrics.stage3Succeeded + 1);
        leaderboard := leaderboard + [x];
      } else if e.verdict == ReviewRequired {
        metrics := metrics.(stage3Review := metrics.stage3Review + 1);
        review := review + [x];
      } else {
        metrics := metrics.(stage3Failed := metrics.stage3Failed + 1);
        failed := failed + [x];
      }
    }

    /** Store the k-th evaluation, in order. */
    method EvaluateNext(inp: Inputs, details: map<int, Details>, k: nat, ghost start: Metrics,
                        ghost leaderboard0: seq<Item>, ghost review0: seq<Item>, ghost failed0: seq<Item>,
                        e: Evaluation)
      requires Shaped(inp) && k < |Ordered(inp)| && e == Ordered(inp)[k] && DetailsKnown(inp, details)
      requires EvaluatedMetrics(inp, k, start, metrics)
      requires EvaluatedState(inp, k, leaderboard0, review0, failed0, leaderboard, review, failed, outcomes)
      modifies this
      ensures EvaluatedMetrics(inp, k + 1, start, metrics)
      ensures EvaluatedState(inp, k + 1, leaderboard0, review0, failed0, leaderboard, review, failed, outcomes)
      ensures rejected == old(rejected)
    {
      EvaluationDetails(inp, details, e);
      NextEvaluatedMetrics(inp, k, start, metrics);
      NextEvaluatedState(inp, k, details[e.id], leaderboard0, review0, failed0, leaderboard, review, failed, outcomes);
      EvaluateOne(e, details[e.id]);
    }

    /** Stage 3: every chosen candidate gets the evaluation returned for it, or a failed one. */
    method EvaluateAll(inp: Inputs, survivors: seq<nat>, chosen: seq<int>)
      requires Shaped(inp) && survivors == Survivors(inp) && chosen == Chosen(inp)
      requires RecordsAre(inp, outcomes, 3, [])
      modifies this
      ensures EvaluatedMetrics(inp, |Ordered(inp)|, old(metrics).(stage3Evaluated := |chosen|), metrics)
      ensures EvaluatedState(inp, |Ordered(inp)|, old(leaderboard), old(review), old(failed),
                             leaderboard, review, failed, outcomes)
      ensures rejected == old(rejected)
    {
      var details := Stage1Details(inp, survivors);
      var evaluations := Map(chosen, EvaluationAt(Results(inp)));
      metrics := metrics.(stage3Evaluated := |evaluations|);
      var ordered := Sort(evaluations, EvaluationBefore);
      StartEvaluation(inp);
      StartEvaluatedState(inp, leaderboard, review, failed, outcomes);
      var k := 0;
      while k < |ordered|
        invariant 0 <= k <= |ordered|
        invariant EvaluatedMetrics(inp, k, old(metrics).(stage3Evaluated := |chosen|), metrics)
        invariant EvaluatedState(inp, k, old(leaderboard), old(review), old(failed), leaderboard, review, failed, outcomes)
        invariant rejected == old(rejected)
      {
        EvaluateNext(inp, details, k, old(metrics).(stage3Evaluated := |chosen|),
                     old(leaderboard), old(review), old(failed), ordered[k]);
        k := k + 1;
      }
    }
  }

  /** Filter details are known for every survivor, and are its own when candidates are distinct. */
  ghost predicate DetailsKnown(inp: Inputs, details: map<int, Details>)
    requires Shaped(inp)
  {
    && (forall p :: p in Survivors(inp) ==> p < |inp.ids| && inp.ids[p] in details)
    && (Distinct(inp.ids) ==>
          forall p :: p in Survivors(inp) ==> Survives(inp, p) && details[inp.ids[p]] == inp.filters[p].details)
  }

  lemma StartEvaluation(inp: Inputs)
    requires Shaped(inp)
    ensures VerdictIn(inp, Success, 0) == [] && VerdictIn(inp, ReviewRequired, 0) == []
    ensures VerdictIn(inp, EvaluationFailed, 0) == [] && PlacesIn(inp, 0) == []
  {
  }

  /** The details looked up for an evaluation are those of its candidate. */
  lemma EvaluationDetails(inp: Inputs, details: map<int, Details>, e: Evaluation)
    requires Shaped(inp) && e in Ordered(inp) && DetailsKnown(inp, details)
    ensures e.id in details
    ensures Distinct(inp.ids) ==>
              var p := PlaceOf(inp)(e); p < |inp.ids| && Survives(inp, p) && details[e.id] == inp.filters[p].details
  {
    OrderedAre(inp);
    ChosenAre(inp, e.id);
    SurvivorsAre(inp);
    PayloadsAre(inp);
    if Distinct(inp.ids) {
      EvaluatedIs(inp, e);
    }
  }
}

/**
 * The transactions as the program performs them: loops over selected rows that assign columns one
 * by one. Each is proved to leave the tables exactly as its one-step description in CampaignState
 * says, which is what the invariants and the run theorems are about.
 */
module CampaignDatabase {
  import opened Prelude
  import opened Sorting
  import opened Ranking
  import opened CampaignState
  import opened CampaignInvariant
  import opened CampaignProtocol
  import opened CampaignMerit

  /** The reservations returned: the selected pairs, in order, with consecutive fresh tokens. */
  ghost predicate Issued(rows: seq<QueueRow>, first: nat, reserved: seq<(nat, nat)>) {
    && |reserved| == |rows|
    && (forall i :: 0 <= i < |rows| ==> reserved[i] == (rows[i].pair, first + i))
  }

  class Database {
    const cfg: Settings
    var campaigns: seq<CampaignStatus>
    var jds: seq<JdRow>
    var cvs: seq<CvRow>
    var pairs: seq<PairRow>
    var clock: int
    var nextToken: nat

    constructor (cfg: Settings, campaigns: seq<CampaignStatus>, jds: seq<JdRow>, clock: int)
      ensures this.cfg == cfg && Snapshot() == Db(campaigns, jds, [], [], clock, 0)
    {
      this.cfg, this.campaigns, this.jds, this.clock := cfg, campaigns, jds, clock;
      cvs, pairs, nextToken := [], [], 0;
    }

    /** The tables as one value. */
    function Snapshot(): Db
      reads this
    {
      Db(campaigns, jds, cvs, pairs, clock, nextToken)
    }

    // ----- intake and Stage 0

    /** Returns false when the campaign no longer takes CVs or already has the candidate. */
    method ReserveCv(c: nat, candidate: int, hasPdf: bool) returns (created: bool)
      requires c < |campaigns|
      modifies this
      ensures Snapshot() == CampaignState.ReserveCv(old(Snapshot()), c, candidate, hasPdf)
      ensures created <==> old(campaigns[c]) == Intake && !KnownCandidate(old(Snapshot()), c, candidate)
    {
      if campaigns[c] != Intake {
        return false;
      }
      var v := 0;
      while v < |cvs|
        invariant 0 <= v <= |cvs|
        invariant forall u :: 0 <= u < v ==> cvs[u].campaign != c || cvs[u].candidate != candidate
      {
        if cvs[v].campaign == c && cvs[v].candidate == candidate {
          return false;
        }
        v := v + 1;
      }
      ghost var before := Snapshot();
      var cv := |cvs|;
      cvs := cvs + [CvRow(c, candidate, Stage0Pending, hasPdf, None, None, clock)];
      var j := 0;
      while j < |jds|
        invariant 0 <= j <= |jds| && jds == before.jds
        invariant Snapshot() == before.(cvs := cvs, pairs := before.pairs + NewPairs(before, c, cv, j))
        invariant cvs == before.cvs + [CvRow(c, candidate, Stage0Pending, hasPdf, None, None, clock)]
      {
        if jds[j].campaign == c {
          pairs := pairs + [PairRow(c, j, cv, Pending, 0, 0, None, None, None, None, None, None)];
        }
        j := j + 1;
      }
      created := true;
    }

    /** Every row of the CV that `hit` selects fails extraction. */
    method FailPairs(cv: nat, code: string, hit: PairStatus -> bool)
      modifies this`pairs
      ensures pairs == CampaignState.FailPairs(old(pairs), cv, code, hit)
    {
      var p := 0;
      ghost var before := pairs;
      while p < |pairs|
        invariant 0 <= p <= |pairs| == |before|
        invariant forall q :: 0 <= q < p ==> pairs[q] == FailPair(before[q], cv, code, hit)
        invariant forall q :: p <= q < |pairs| ==> pairs[q] == before[q]
      {
        if pairs[p].cv == cv && hit(pairs[p].status) {
          pairs := pairs[p := pairs[p].(status := ExtractionFailed, failure := Some(code))];
        }
        p := p + 1;
      }
    }

    method ClaimStage0(cv: nat) returns (outcome: ClaimResult)
      requires cv < |cvs|
      modifies this
      ensures outcome == ClaimOutcome(cfg, old(Snapshot()), cv)
      ensures Snapshot() == CampaignState.ClaimStage0(cfg, old(Snapshot()), cv)
    {
      var row := cvs[cv];
      if Stage0Done(row.stage0) {
        return AlreadyComplete;
      }
      if row.stage0 == Stage0Running && row.updatedAt > clock - LeaseLength(cfg) {
        return AlreadyRunning;
      }
      if !row.hasPdf {
        cvs := cvs[cv := row.(stage0 := Stage0Failed, error := Some("PDF_MISSING"))];
        FailPairs(cv, "PDF_MISSING", IsPending());
        return PdfMissing;
      }
      cvs := cvs[cv := row.(stage0 := Stage0Running, updatedAt := clock)];
      return Claimed;
    }

    method FinishStage0(cv: nat, result: Extraction) returns (published: bool)
      requires cv < |cvs|
      modifies this
      ensures published <==> !Stage0Done(old(cvs[cv]).stage0)
      ensures Snapshot() == CampaignState.FinishStage0(old(Snapshot()), cv, result)
    {
      var row := cvs[cv];
      if Stage0Done(row.stage0) {
        return false;
      }
      var failed := result.Error? && result.code != "";
      row := row.(stage0 := if failed then Stage0Failed else Stage0Succeeded);
      row := row.(text := if result.Text? then Some(result.text) else None);
      row := row.(error := if result.Error? then Some(result.code) else None);
      row := row.(hasPdf := false, updatedAt := clock);
      cvs := cvs[cv := row];
      if failed {
        FailPairs(cv, result.code, IsNotTerminal());
      }
      return true;
    }

    method RecoverStage0(cv: nat) returns (publish: bool)
      requires cv < |cvs| && cvs[cv].campaign < |campaigns|
      modifies this`cvs
      ensures publish <==> NeedsRecovery(cfg, old(Snapshot()), cv)
      ensures Snapshot() == CampaignState.RecoverStage0(cfg, old(Snapshot()), cv)
    {
      publish := NeedsRecovery(cfg, Snapshot(), cv);
      if publish {
        cvs := cvs[cv := cvs[cv].(updatedAt := clock)];
      }
    }

    // ----- Stage 2

    /** How many rows satisfy `p`; the counting queries. */
    method CountPairs(p: PairRow -> bool) returns (n: nat)
      ensures n == Count(pairs, p)
    {
      n := 0;
      var i := 0;
      while i < |pairs|
        invariant 0 <= i <= |pairs| && n == Count(pairs[..i], p)
      {
        assert pairs[..i + 1][..i] == pairs[..i];
        if p(pairs[i]) {
          n := n + 1;
        }
        i := i + 1;
      }
      assert pairs[..i] == pairs;
    }

    method ExpireRunning(c: nat)
      modifies this`pairs
      ensures Snapshot() == ExpiredRunning(cfg, old(Snapshot()), c)
    {
      var p := 0;
      ghost var before := Snapshot();
      while p < |pairs|
        invariant 0 <= p <= |pairs| == |before.pairs|
        invariant forall q :: 0 <= q < p ==> pairs[q] == CampaignState.ExpireRunning(cfg, clock, c, before.pairs[q])
        invariant forall q :: p <= q < |pairs| ==> pairs[q] == before.pairs[q]
      {
        var r := pairs[p];
        if r.campaign == c && r.status == Running && r.until.Some? && r.until.value < clock {
          r := r.(lease := None, until := None);
          if r.attempts >= cfg.runMaxAttempts {
            r := r.(status := ProcessingFailed, failure := Some("RETRIEVAL_ATTEMPTS_EXHAUSTED"));
          } else {
            r := r.(status := Pending);
          }
          pairs := pairs[p := r];
        }
        p := p + 1;
      }
      assert pairs == ExpiredRunning(cfg, before, c).pairs;
    }

    method SelectRetrieval(c: nat, locked: set<nat>, slots: int) returns (rows: seq<QueueRow>)
      requires Shape(Snapshot()) && slots == RetrievalSlots(cfg, Snapshot(), c) && 0 < slots
      ensures rows == RetrievalRows(cfg, Snapshot(), c, locked)
    {
      var queue := [];
      var p := 0;
      while p < |pairs|
        invariant 0 <= p <= |pairs| && queue == RetrievalQueue(Snapshot(), c, locked, p)
      {
        var r := pairs[p];
        assert RowShape(Snapshot(), r);
        if r.campaign == c && r.status == Pending && p !in locked
           && cvs[r.cv].stage0 == Stage0Succeeded && JdOpen(jds[r.jd].status) {
          queue := queue + [QueueRow(p, jds[r.jd].key, cvs[r.cv].candidate)];
        }
        p := p + 1;
      }
      rows := Take(Sort(queue, QueueOrder()), slots);
    }

    /** Lease the selected rows, in order. */
    method ReserveRows(rows: seq<QueueRow>) returns (reserved: seq<(nat, nat)>)
      requires DistinctRows(Snapshot(), rows)
      modifies this`pairs, this`nextToken
      ensures Snapshot() == ReserveAll(cfg, old(Snapshot()), rows, |rows|)
      ensures Issued(rows, old(nextToken), reserved)
    {
      reserved := [];
      ghost var before := Snapshot();
      var k := 0;
      while k < |rows|
        invariant 0 <= k <= |rows|
        invariant Snapshot() == ReserveAll(cfg, before, rows, k)
        invariant Issued(rows[..k], before.nextToken, reserved) && nextToken == before.nextToken + k
      {
        var p, token := rows[k].pair, nextToken;
        var r := pairs[p];
        r := r.(status := Running, lease := Some(token), until := Some(clock + LeaseLength(cfg)));
        r := r.(attempts := r.attempts + 1);
        pairs, nextToken := pairs[p := r], nextToken + 1;
        reserved := reserved + [(p, token)];
        k := k + 1;
      }
      assert rows[..k] == rows;
    }

    /** Reserve the free retrieval slots; returns the leased pairs with their fresh tokens. */
    method DispatchPairs(c: nat, locked: set<nat>) returns (reserved: seq<(nat, nat)>)
      requires Shape(Snapshot()) && c < |campaigns|
      modifies this
      ensures Snapshot() == CampaignState.DispatchPairs(cfg, old(Snapshot()), c, locked)
      ensures Issued(RetrievedRows(cfg, old(Snapshot()), c, locked), old(nextToken), reserved)
    {
      reserved := [];
      if campaigns[c] != CampaignRunning {
        return;
      }
      ExpireRunning(c);
      ghost var expired := Snapshot();
      var running := CountPairs(RunningIn(c));
      var globalRunning := CountPairs(RunningAnywhere());
      var slots := Min(cfg.retrievalInflight - running,
                       Min(cfg.retrievalGlobalInflight - globalRunning, cfg.dispatchBatch));
      RetrievalRowsSound(cfg, expired, c, locked);
      if slots <= 0 {
        return;
      }
      var rows := SelectRetrieval(c, locked, slots);
      reserved := ReserveRows(rows);
    }

    // ----- fenced Stage 2 writes

    /** The message could not be published: give the slot and the attempt back. */
    method RefundRunning(p: nat, token: nat)
      requires p < |pairs|
      modifies this`pairs
      ensures Snapshot() == CampaignState.RefundRunning(old(Snapshot()), p, token)
    {
      var r := pairs[p];
      if r.status == Running && r.lease == Some(token) {
        r := r.(status := Pending, lease := None, until := None);
        r := r.(attempts := r.attempts - 1);
        pairs := pairs[p := r];
      }
    }

    /** Returns false when the lease was lost. */
    method FinishRunning(p: nat, token: nat, text: Option<string>, result: Retrieval) returns (stored: bool)
      requires p < |pairs|
      modifies this`pairs
      ensures stored <==> Holds(old(pairs[p]), Running, token)
      ensures Snapshot() == CampaignState.FinishRunning(cfg, old(Snapshot()), p, token, text, result)
    {
      var r := pairs[p];
      if r.status != Running || r.lease != Some(token) {
        return false;
      }
      match result {
        case RetrievalError(code) =>
          if r.attempts < cfg.runMaxAttempts {
            r := r.(status := Pending);
          } else {
            r := r.(status := ProcessingFailed, failure := Some(code));
          }
        case FilterFailed =>
          r := r.(status := FilterRejected);
        case Scored(e) =>
          r := r.(status := Stage2Ready, evidence := Some(e), sourceText := text);
      }
      r := r.(lease := None, until := None);
      pairs := pairs[p := r];
      return true;
    }

    // ----- the barrier

    /** Whether some pair of the JD satisfies the status test. */
    method AnyPair(j: nat, hit: PairRow -> bool) returns (found: bool)
      ensures found <==> exists p :: 0 <= p < |pairs| && pairs[p].jd == j && hit(pairs[p])
    {
      var p := 0;
      while p < |pairs|
        invariant 0 <= p <= |pairs|
        invariant forall q :: 0 <= q < p ==> pairs[q].jd != j || !hit(pairs[q])
      {
        if pairs[p].jd == j && hit(pairs[p]) {
          return true;
        }
        p := p + 1;
      }
      return false;
    }

    method SelectReady(j: nat) returns (rows: seq<Candidate>)
      requires Shape(Snapshot())
      ensures rows == Ranked(Pool(Snapshot(), j, |pairs|))
    {
      var pool := [];
      var p := 0;
      while p < |pairs|
        invariant 0 <= p <= |pairs| && pool == Pool(Snapshot(), j, p)
      {
        var r := pairs[p];
        assert RowShape(Snapshot(), r);
        if r.jd == j && r.status == Stage2Ready && r.evidence.Some? {
          pool := pool + [Candidate(p, cvs[r.cv].candidate, r.evidence.value)];
        }
        p := p + 1;
      }
      rows := Ranked(pool);
    }

    /** Walk the ranked pool: give ranks, shortlist until the cap is full, send the ineligible to review. */
    method RankPool(rows: seq<Candidate>, stage3Cap: nat)
      requires RowsInRange(pairs, rows)
      modifies this`pairs
      ensures pairs == RankRows(old(pairs), rows, Verdicts(rows, BarrierCap(stage3Cap)), |rows|)
    {
      var selected := 0;
      ghost var before := pairs;
      ghost var verdicts := Verdicts(rows, BarrierCap(stage3Cap));
      var k := 0;
      while k < |rows|
        invariant 0 <= k <= |rows|
        invariant pairs == RankRows(before, rows, verdicts, k)
        invariant selected == SelectedAfter(rows, BarrierCap(stage3Cap), k)
      {
        var p, evidence := rows[k].pair, rows[k].evidence;
        var r := pairs[p].(rank := Some(k + 1));
        if Eligible(evidence) && selected < Min(stage3Cap, MAX_CANDIDATES_PER_JD) {
          r := r.(status := Shortlisted);
          selected := selected + 1;
        } else if !Eligible(evidence) {
          r := r.(status := ReviewRequired,
                  failure := if evidence.reason.Some? && evidence.reason.value != "" then evidence.reason
                             else Some("STAGE2_SCORING_REPLAY_REQUIRED"));
        } else {
          r := r.(status := CutoffExcluded);
        }
        pairs := pairs[p := r];
        k := k + 1;
      }
    }

    /** Commit all ranks of a JD together once nothing in it is still moving. */
    method FinalizeJd(j: nat) returns (finalized: bool)
      requires Shape(Snapshot()) && j < |jds|
      modifies this
      ensures Snapshot() == CampaignState.FinalizeJd(old(Snapshot()), j)
      ensures finalized <==> Finalizes(old(Snapshot()), j)
      ensures finalized ==> RankedOnMerit(old(Snapshot()), Snapshot(), j)
    {
      var jd := jds[j];
      if !JdOpen(jd.status) {
        return false;
      }
      var unresolved := AnyPair(j, (r: PairRow) => !DoneBeforeCutoff(r.status) && r.status != Stage2Ready);
      if unresolved {
        if jd.status == JdPending {
          jds := jds[j := jd.(status := JdProcessing)];
        }
        return false;
      }
      var unscored := AnyPair(j, (r: PairRow) => r.status == Stage2Ready && r.evidence.None?);
      if unscored {
        return false;
      }
      BarrierRanksOnMerit(Snapshot(), j);
      CommitBarrier(j);
      return true;
    }

    method CommitBarrier(j: nat)
      requires Shape(Snapshot()) && j < |jds| && Finalizes(Snapshot(), j)
      modifies this`pairs, this`jds
      ensures Snapshot() == CampaignState.FinalizeJd(old(Snapshot()), j)
    {
      var rows := SelectReady(j);
      RankedPool(Snapshot(), j);
      RankPool(rows, jds[j].cap);
      jds := jds[j := jds[j].(status := JdShortlisted)];
    }

    // ----- Stage 3

    method ExpireEvaluating(c: nat)
      modifies this`pairs
      ensures Snapshot() == ExpiredEvaluating(cfg, old(Snapshot()), c)
    {
      var p := 0;
      ghost var before := Snapshot();
      while p < |pairs|
        invariant 0 <= p <= |pairs| == |before.pairs|
        invariant forall q :: 0 <= q < p ==> pairs[q] == CampaignState.ExpireEvaluating(cfg, clock, c, before.pairs[q])
        invariant forall q :: p <= q < |pairs| ==> pairs[q] == before.pairs[q]
      {
        var r := pairs[p];
        if r.campaign == c && r.status == Stage3Running && r.until.Some? && r.until.value < clock {
          r := r.(lease := None, until := None);
          if r.stage3Attempts >= cfg.stage3MaxAttempts {
            r := r.(status := EvaluationFailed, failure := Some("STAGE3_ATTEMPTS_EXHAUSTED"));
          } else {
            r := r.(status := Shortlisted);
          }
          pairs := pairs[p := r];
        }
        p := p + 1;
      }
      assert pairs == ExpiredEvaluating(cfg, before, c).pairs;
    }

    method SelectEvaluation(c: nat, locked: set<nat>, slots: int) returns (rows: seq<QueueRow>)
      requires Shape(Snapshot()) && slots == EvaluationSlots(cfg, Snapshot()) && 0 < slots
      ensures rows == EvaluationRows(cfg, Snapshot(), c, locked)
    {
      var queue := [];
      var p := 0;
      while p < |pairs|
        invariant 0 <= p <= |pairs| && queue == EvaluationQueue(Snapshot(), c, locked, p)
      {
        var r := pairs[p];
        assert RowShape(Snapshot(), r);
        if r.campaign == c && r.status == Shortlisted && p !in locked
           && (r.until.None? || r.until.value <= clock) && jds[r.jd].status == JdShortlisted {
          queue := queue + [QueueRow(p, jds[r.jd].key, if r.rank.Some? then r.rank.value else 0)];
        }
        p := p + 1;
      }
      rows := Take(Sort(queue, QueueOrder()), slots);
    }

    method ClaimRows(rows: seq<QueueRow>) returns (claims: seq<(nat, nat)>)
      requires DistinctRows(Snapshot(), rows)
      modifies this`pairs, this`nextToken
      ensures Snapshot() == ClaimAll(cfg, old(Snapshot()), rows, |rows|)
      ensures Issued(rows, old(nextToken), claims)
    {
      claims := [];
      ghost var before := Snapshot();
      var k := 0;
      while k < |rows|
        invariant 0 <= k <= |rows|
        invariant Snapshot() == ClaimAll(cfg, before, rows, k)
        invariant Issued(rows[..k], before.nextToken, claims) && nextToken == before.nextToken + k
      {
        var p, token := rows[k].pair, nextToken;
        var r := pairs[p];
        r := r.(status := Stage3Running, lease := Some(token), until := Some(clock + LeaseLength(cfg)));
        pairs, nextToken := pairs[p := r], nextToken + 1;
        claims := claims + [(p, token)];
        k := k + 1;
      }
      assert rows[..k] == rows;
    }

    /** Claim shortlisted pairs with fresh leases; parked pairs wait for their time. */
    method DispatchStage3(c: nat, locked: set<nat>) returns (claims: seq<(nat, nat)>)
      requires Shape(Snapshot()) && c < |campaigns|
      modifies this
      ensures Snapshot() == CampaignState.DispatchStage3(cfg, old(Snapshot()), c, locked)
      ensures Issued(EvaluatedRows(cfg, old(Snapshot()), c, locked), old(nextToken), claims)
    {
      claims := [];
      if campaigns[c] != CampaignRunning {
        return;
      }
      ExpireEvaluating(c);
      ghost var expired := Snapshot();
      var running := CountPairs(EvaluatingAnywhere());
      var slots := Min(cfg.stage3GlobalInflight - running, cfg.dispatchBatch);
      EvaluationRowsSound(cfg, expired, c, locked);
      if slots <= 0 {
        return;
      }
      var rows := SelectEvaluation(c, locked, slots);
      claims := ClaimRows(rows);
    }

    method RefundEvaluating(p: nat, token: nat)
      requires p < |pairs|
      modifies this`pairs
      ensures Snapshot() == CampaignState.RefundEvaluating(old(Snapshot()), p, token)
    {
      var r := pairs[p];
      if r.status == Stage3Running && r.lease == Some(token) {
        pairs := pairs[p := r.(status := Shortlisted, lease := None, until := None)];
      }
    }

    /** Admission was denied: the pair waits `wait` seconds before it can be claimed again. */
    method ParkEvaluating(p: nat, token: nat, wait: int)
      requires p < |pairs|
      modifies this`pairs
      ensures Snapshot() == CampaignState.ParkEvaluating(old(Snapshot()), p, token, wait)
    {
      var r := pairs[p];
      if r.status == Stage3Running && r.lease == Some(token) {
        r := r.(status := Shortlisted, lease := None);
        r := r.(until := Some(clock + wait));
        pairs := pairs[p := r];
      }
    }

    /** Returns the attempt number charged, or None when the lease was lost. */
    method CountAttempt(p: nat, token: nat) returns (attempt: Option<int>)
      requires p < |pairs|
      modifies this`pairs
      ensures Snapshot() == CampaignState.CountAttempt(old(Snapshot()), p, token)
      ensures attempt == if Holds(old(pairs[p]), Stage3Running, token) then Some(pairs[p].stage3Attempts) else None
    {
      var r := pairs[p];
      if r.status != Stage3Running || r.lease != Some(token) {
        return None;
      }
      pairs := pairs[p := r.(stage3Attempts := r.stage3Attempts + 1)];
      return Some(pairs[p].stage3Attempts);
    }

    method RetryEvaluating(p: nat, token: nat, attempt: int, delay: int, exhausted: string, code: string)
      returns (stored: bool)
      requires p < |pairs|
      modifies this`pairs
      ensures stored <==> Holds(old(pairs[p]), Stage3Running, token)
      ensures Snapshot()
           == CampaignState.RetryEvaluating(cfg, old(Snapshot()), p, token, attempt, delay, exhausted, code)
    {
      var r := pairs[p];
      if r.status != Stage3Running || r.lease != Some(token) {
        return false;
      }
      r := r.(lease := None);
      if attempt >= cfg.stage3MaxAttempts {
        r := r.(status := EvaluationFailed, failure := Some(exhausted), until := None);
      } else {
        r := r.(status := Shortlisted, failure := Some(code), until := Some(clock + delay));
      }
      pairs := pairs[p := r];
      return true;
    }

    method FinishEvaluating(p: nat, token: nat, result: Evaluation) returns (stored: bool)
      requires p < |pairs|
      modifies this`pairs
      ensures stored <==> Holds(old(pairs[p]), Stage3Running, token)
      ensures Snapshot() == CampaignState.FinishEvaluating(old(Snapshot()), p, token, result)
      ensures stored ==>
                && (pairs[p].status.Success? <==> result.Succeeded?)
                && (pairs[p].status.ReviewRequired? <==> result.NeedsReview?)
                && (pairs[p].status.EvaluationFailed? <==> result.Failed?)
                && pairs[p].failure == (if result.Failed? then Some(result.code) else None)
                && pairs[p].lease.None?
    {
      var r := pairs[p];
      if r.status != Stage3Running || r.lease != Some(token) {
        return false;
      }
      r := r.(status := EvaluationStatus(result));
      r := r.(failure := if result.Failed? then Some(result.code) else None);
      r := r.(lease := None, until := None);
      pairs := pairs[p := r];
      return true;
    }

    // ----- completion

    /** Complete every JD that has only terminal pairs, then the campaign if all its JDs are complete. */
    method FinalizeCampaign(c: nat) returns (completed: bool)
      requires c < |campaigns|
      modifies this
      ensures Snapshot() == CampaignState.FinalizeCampaign(old(Snapshot()), c)
      ensures completed <==> old(campaigns[c]) == CampaignRunning && campaigns[c] == CampaignCompleted
    {
      if campaigns[c] != CampaignRunning {
        return false;
      }
      ghost var before := Snapshot();
      var remaining, own := 0, 0;
      var j := 0;
      while j < |jds|
        invariant 0 <= j <= |jds| == |before.jds|
        invariant Snapshot() == before.(jds := jds)
        invariant forall i :: 0 <= i < j ==> jds[i] == CompleteJd(before, c, i)
        invariant forall i :: j <= i < |jds| ==> jds[i] == before.jds[i]
        invariant remaining == 0 <==> forall i :: 0 <= i < j && jds[i].campaign == c ==> jds[i].status == JdCompleted
        invariant own == 0 <==> forall i :: 0 <= i < j ==> jds[i].campaign != c
        invariant 0 <= remaining && 0 <= own
      {
        if jds[j].campaign == c {
          own := own + 1;
          if jds[j].status == JdShortlisted {
            var unresolved := AnyPair(j, (r: PairRow) => !Terminal(r.status));
            if !unresolved {
              jds := jds[j := jds[j].(status := JdCompleted)];
            }
          }
          if jds[j].status != JdCompleted {
            remaining := remaining + 1;
          }
        }
        j := j + 1;
      }
      assert jds == CompletedJds(before, c);
      completed := remaining == 0 && own > 0;
      if completed {
        campaigns := campaigns[c := CampaignCompleted];
      }
    }

    // ----- counts

    /** Pairs that entered the Stage 3 shortlist of a JD. */
    method SelectedPairCount(j: nat) returns (n: nat)
      ensures n == Count(pairs, SelectedOf(j))
    {
      n := CountPairs(SelectedOf(j));
    }
  }
}

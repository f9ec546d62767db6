# A verified model of the candidate screening system

This project models the logic of a CV screening service in Dafny and proves properties of it. The
service screens batches of CVs against job descriptions (JDs) in four stages: text extraction, hard
filters, retrieval with coverage scoring, and evaluation by a language model whose citations are
verified against the CV. Batches run either synchronously or as campaigns, where a coordinator and many
unreliable workers move one row per (JD, CV) pair through a database, and a Redis script limits the calls
to the model provider.

Run `dafny verify dfyconfig.toml` in this directory to check everything.

## What is modelled

* **Campaign protocol.** `CampaignState` has one function per database transaction, `CampaignDatabase` is
  the imperative form (a class whose methods loop over the tables and update rows in place, each proved to
  have exactly the effect of its function), and `CampaignProtocol` is the state machine: messages may be
  late, lost at publication or delivered twice, workers may stop anywhere, leases expire, steps of all
  actors interleave. `CampaignInvariant` is the inductive invariant together with the relation no step may
  leave. `CampaignSafety`, `CampaignFencing`, `CampaignTransactions`, `CampaignBudget` and
  `CampaignProgress` hold the theorems about runs; `CampaignCauses` says why a pair has the status it has,
  `CampaignMerit` what the barrier decides on the scores, and `CampaignQueues` whom a dispatch serves first.
  `Ranking` is the shortlist rule shared with the synchronous pipeline.
* **Provider admission.** `LimiterScript` is the Redis script step by step on its two sorted sets, its hash
  and its key expiries; `Limiter` is its specification; `LimiterSafety` compares it with a log of everything
  that was ever admitted, and `LimiterCalls` lifts that to whole calls.
* **Synchronous pipeline and its auditor.** `Screening` and `ScreeningRun` are the loops that change the
  counters, the outcome map and the four public lists; `Pipeline` says what the fate of each candidate is,
  and `ScreeningOutcomes` reads it off the inputs; `PipelineAudit` is the auditor and the proof that it accepts every accounted run.
* **Coverage, scores and evidence pruning.** `Targets` resolves what a JD asks for, `Coverage` assesses it,
  `Scoring` scores it, `Evidence` prunes what is kept for it.
* **Experience.** `Experience` merges month intervals; `HardFilters` takes the decisions from them.
* **Evaluation context.** `Context`, `ContextAssembly` and `PromptBudget` evict, tile, arrange, add and remove
  evidence against a budget; `ContextOrder` says what the arrangement means.
* **Citations.** `Sentences` splits sources into citable sentences, `SentenceGroups` and `Manifest` give them
  handles, `Selection` resolves a selection of handles, `Excerpt` and `Verification` check the result, and
  `RoundTrip` connects all of these.
* **Chunking.** `Chunker` splits and packs a CV section.
* `Prelude` and `Sorting` hold counting, filtering, sums and the stable sort.

Time is an integer, tokens are fresh numbers, and settings are constants within the bounds of
`app/config.py`. Hashes (`stable_identity`) are constructors, so they are one-to-one. Filtering,
extraction, ranking, embedding and model calls return anything at all or raise. Regular expressions and
text normalisation are functions of which only the stated laws are known.

## Findings

Where the code does something its surroundings do not suggest, the model follows the code and a lemma
says when.

* A message published by Stage 0 recovery for a stale RUNNING document is dropped as ALREADY_RUNNING unless
  it is delivered a full lease later, because recovery stamps the row first (app/workers/tasks.py:289-311,
  `CampaignSafety.RecoveryMessageIsDropped`). A document whose worker is lost therefore stays RUNNING for as
  long as its messages are prompt (`CampaignTransactions.AbandonedWhileInTime`). The retry after an extraction
  timeout is dropped too when its countdown is under 35 seconds (app/workers/tasks.py:271-278,
  `CampaignSafety.TimeoutRetryIsDropped`).
* The limit on evaluation attempts needs single delivery: duplicates of one message can drive the count past
  any number (app/workers/tasks.py:506-538, `CampaignProgress.DuplicatesBreakTheLimit`).
* The sliding window is a limit for half-open minutes only: the pruning at app/campaigns/provider_limit.py:16-18
  is inclusive, so the whole limit is free again exactly a minute later, and a closed minute can hold twice the
  limit but no more (`LimiterSafety.ClosedWindowReachesTwice`, `LimiterSafety.ClosedWindowBound`).
* Two inputs with one candidate id make the pipeline raise (app/orchestrator.py:46-316,
  `ScreeningRun.RunPipeline`); an empty profile with candidates yields a result the auditor rejects
  (app/orchestrator.py:73-80 and app/run_audit.py:145-214, `ScreeningRun.RunAndAudit`).
* A cited sentence without any word character fails verification although it was selected by a valid
  handle; nothing else does (app/stage3_evaluation/evidence.py:160-197, `RoundTrip.SelectionRoundTrip`).
* A chunk opened by a piece that did not fit before it is not closed at once, even when that piece alone
  reaches the minimum (app/stage2_retrieval/chunker.py:131-144, `Chunker.PackingIsUnique` fixes the exact rule).

## Model

| member | source | states |
|---|---|---|
| CampaignDatabase.Database.ReserveCv | app/campaigns/persistence.py:74-114 | Reserving a candidate during intake adds one CV row and one PENDING pair for each JD of the campaign, or changes nothing when intake is over or the candidate is known |
| CampaignDatabase.Database.ClaimStage0 | app/workers/tasks.py:216-243 | The claim transaction: done and recently claimed documents are left alone, a document without PDF fails with its PENDING pairs, any other is stamped RUNNING |
| CampaignDatabase.Database.FinishStage0 | app/campaigns/persistence.py:132-162 | Publication happens once; a failure takes every non-terminal pair of the CV along, and the PDF is erased either way |
| CampaignTransactions.RecoveryIsThrottled | app/workers/tasks.py:289-311 | Recovering a stale document publishes one message that carries the stamp it writes and touches nothing else; in every continuation the document is not recovered again before a whole window has passed since that stamp, and exactly then if only time passes |
| CampaignTransactions.AbandonedWhileInTime | app/workers/tasks.py:216-228 | Over every run, a document left RUNNING by a lost worker stays unclaimed as long as each message for it, recovery's and retries included, is delivered within a lease of the stamp it was published with |
| CampaignDatabase.Database.DispatchPairs | app/campaigns/coordinator.py:19-70 | The retrieval dispatch loop: expired leases are taken back or exhausted, then the first free slots' worth of dispatchable rows in (JD, candidate) order get fresh tokens, one attempt each; nothing else changes |
| CampaignQueues.RetrievalTakesFirst | app/campaigns/coordinator.py:42-70 | In every reachable state a retrieval dispatch leaves a dispatchable pair waiting only when the campaign limit, the global limit or the batch size is used up, and every pair it leased instead comes no later by JD key and candidate |
| CampaignTransactions.RefundReopensPair | app/workers/tasks.py:442-450 | A refund by the lease holder makes the pair dispatchable again at once, gives back exactly one attempt and one slot, retires the token and touches no other row; a refund under any other token does nothing |
| CampaignTransactions.RefundUndoesReservation | app/campaigns/coordinator.py:61-69 | Reserving a waiting pair and refunding it restores every row; only the token is used up |
| CampaignDatabase.Database.FinishRunning | app/workers/tasks.py:373-400 | A retrieval result is stored, rejected, retried or exhausted under the fence, and is dropped when the lease was lost |
| CampaignCauses.RetrievalIsStored | app/workers/tasks.py:373-400 | A result reported under the lease: scored evidence makes the pair ready with that evidence and the text the worker read, a failed filter rejects it, an error sends it back exactly while attempts are left and fails it with its code otherwise |
| CampaignDatabase.Database.FinalizeJd | app/campaigns/coordinator.py:80-125 | The barrier loop ranks a whole pool, shortlists up to the cap, reviews the unfit and cuts the rest in one transaction, or only marks the JD as processing; ranks fall with the score, then responsibility and applied coverage, then rise with the candidate id, unfit pairs and only they are reviewed, and what is cut ranks behind everything shortlisted |
| CampaignDatabase.Database.DispatchStage3 | app/campaigns/coordinator.py:129-174 | The evaluation dispatch loop: expired claims are parked or exhausted, then shortlisted rows whose waiting time is over get fresh tokens in rank order |
| CampaignQueues.EvaluationTakesFirst | app/campaigns/coordinator.py:150-173 | In every reachable state an evaluation dispatch leaves a claimable pair waiting only when the global limit or the batch size is used up, and every pair it claimed instead comes no later by JD key and rank |
| CampaignTransactions.RefundReopensEvaluation | app/workers/tasks.py:458-465 | A failed publication makes the pair claimable again at once with its attempts and rank, frees one evaluation slot, retires the token and touches no other row; under any other token nothing happens |
| CampaignTransactions.RefundUndoesClaim | app/campaigns/coordinator.py:164-173 | Claiming a pair and refunding it restores every row, but for a waiting time that was over |
| CampaignTransactions.ParkedPairRests | app/workers/tasks.py:495-505 | A denied pair goes back to the shortlist uncharged; in every continuation no step of any actor changes it before its wait is over, and while it is unchanged it can be claimed exactly once the wait is over |
| CampaignDatabase.Database.CountAttempt | app/workers/tasks.py:506-513 | An attempt is charged only while the token holds, and the worker gets exactly the new number |
| CampaignDatabase.Database.RetryEvaluating | app/workers/tasks.py:521-538 | A provider failure parks the pair, or fails it when the worker's own attempt number is the last |
| CampaignCauses.FailureIsRetried | app/workers/tasks.py:521-538 | A provider failure reported under the lease parks the pair for the delay or fails it, the latter exactly after the worker's last attempt, with the code that belongs to each |
| CampaignDatabase.Database.FinishEvaluating | app/workers/tasks.py:542-560 | An evaluation is stored under the fence and ends the pair: SUCCESS exactly for a success, REVIEW_REQUIRED exactly for one that needs review, EVALUATION_FAILED with its code exactly for a failure |
| CampaignCauses.EvaluationIsStored | app/workers/tasks.py:542-560 | Of the step that reports an evaluation under the lease: success, review or failure as reported, the token spent, no other row touched |
| CampaignDatabase.Database.FinalizeCampaign | app/campaigns/coordinator.py:177-204 | JDs with only terminal pairs complete; the campaign completes when all its JDs have and there is one |
| CampaignTransactions.SelectionIsFixed | app/campaigns/persistence.py:277-282 | After a JD's barrier has committed, the selected-pair count, which `CampaignDatabase.Database.SelectedPairCount` computes, is in every continuation the size of the batch selection from the pool that was ranked |
| CampaignProtocol.StepOk | app/workers/tasks.py:437-468 | Every step of every actor, in any interleaving, keeps the invariant over all tables, messages and workers, and only changes rows along the permitted transitions |
| CampaignCauses.ChangeHasCause | app/campaigns/coordinator.py:30-125 | In any step from any reachable state a pair gets a status only for the cause that belongs to it: who held which lease, what was reported, which attempts, waiting times and evidence the row had |
| CampaignCauses.StatusWasCaused | app/workers/tasks.py:437-468 | Over every run, a status a pair ends with and did not start with was given to it by some step of the run, for its cause |
| CampaignCauses.SuccessWasReported | app/workers/tasks.py:542-560 | A pair that becomes SUCCESS in a run was reported a success in it, by a worker that held the pair's live token while it was being evaluated |
| CampaignInvariant.ReserveCvOk | app/campaigns/persistence.py:91-105 | A new CV gets exactly one pair for each JD of its campaign and disturbs no invariant |
| CampaignInvariant.FinalizeJdOk | app/campaigns/coordinator.py:81-124 | The barrier keeps the invariant: ranks 1..n without gap or repetition, at most the cap selected, nothing left below it |
| CampaignSafety.CvAndPairsAgree | app/campaigns/persistence.py:146-160 | In every reachable state a CV has a text exactly when its Stage 0 succeeded, a pair that is neither PENDING nor EXTRACTION_FAILED has such a CV, a CV is FAILED exactly when its pairs are EXTRACTION_FAILED, stored evidence was computed from the text the CV still has, a finished CV holds no PDF, and no stamp lies in the future |
| CampaignSafety.RetrievalAttemptsBounded | app/campaigns/coordinator.py:34-41 | PENDING means attempts below the limit and RUNNING means at least one, so a refund never goes below zero |
| CampaignSafety.InFlightBounded | app/campaigns/coordinator.py:42-51 | RUNNING rows stay within the campaign and global limits, evaluating rows within theirs, and no two rows share a token |
| CampaignSafety.CompletedMeansTerminal | app/campaigns/coordinator.py:186-203 | A COMPLETED campaign has only terminal pairs and only completed JDs |
| CampaignSafety.CountsAreComplete | app/campaigns/persistence.py:244-271 | Status counts of a campaign always add up to JDs times CVs and those of a JD to its CVs, so neither accounting error can be raised |
| CampaignSafety.TerminalIsFinal | app/campaigns/coordinator.py:15-16 | Over every run a terminal pair and a finished CV, with its text, never change again |
| CampaignSafety.BarrierIsFinal | app/campaigns/coordinator.py:81-126 | After a JD's barrier has committed, in every continuation none of its pairs waits for it again, the ranks are exactly 1..n and stay, and the number of selected pairs is constant and at most min(cap, 15) |
| CampaignSafety.BarrierCommitsBatchSelection | app/campaigns/coordinator.py:95-122 | From every reachable state the barrier fires exactly when no pair is unresolved, and shortlists exactly the rows the synchronous selection takes from the same pool |
| CampaignMerit.ShortlistByMerit | app/campaigns/coordinator.py:95-122 | From the barrier on, in every continuation, a smaller rank means a score at least as high, then responsibility and applied coverage, then the earlier candidate; only fit pairs are selected, and a fit pair that is not ranks behind every selected one |
| CampaignMerit.ShortlistSize | app/campaigns/coordinator.py:101-121 | The barrier selects as many fit pairs as there are, up to the cap and 15, and that many stay selected in every continuation |
| CampaignSafety.RecoveryMessageIsDropped | app/workers/tasks.py:289-311 | The message recovery publishes for a stale RUNNING document finds it running unless it arrives a full lease after the stamp |
| CampaignSafety.TimeoutRetryIsDropped | app/workers/tasks.py:271-278 | The retry after a timed-out extraction is dropped exactly when its countdown is under 35 seconds |
| CampaignSafety.PublishedTextOrFailure | app/campaigns/persistence.py:142-151 | Publication leaves either a text or a failure code exactly when the error code is not empty; no caller passes an empty one |
| Ranking.BarrierRefinesBatchSelection | app/stage2_retrieval/evidence_extractor.py:238-248 | For distinct candidates the barrier's select-while-ranking loop shortlists what sort, filter, slice returns with the same cap, whatever order the rows arrive in: the fit rows with the best scores, in falling order, as many as the cap and 15 allow |
| Ranking.RankedByMerit | app/stage2_retrieval/coverage.py:190-195 | In rank order scores fall, at equal scores responsibility and then applied coverage, and then candidate ids rise |
| Ranking.BatchByMerit | app/stage2_retrieval/evidence_extractor.py:238-248 | The batch selection takes only current, eligible payloads with a score in (0, 1], as many as the cutoff allows, the best of them, in falling order; a cutoff outside 1 to 15 is an error |
| Ranking.ExclusionOnlyWhenFull | app/campaigns/coordinator.py:106-121 | An eligible row is cut only when the cap is already full of eligible rows that rank before it |
| CampaignFencing.StaleStepIsIgnored | app/workers/tasks.py:373-378 | A step presenting a token that is not on its pair changes no table |
| CampaignFencing.FinishingWriteRetires | app/workers/tasks.py:521-560 | A finishing write that changes anything removes its token from the tables |
| CampaignFencing.LeaseIsExclusive | app/campaigns/coordinator.py:61-69 | While a lease is live and unexpired its pair changes only in steps that present its token |
| CampaignFencing.RetiredForGood | app/workers/tasks.py:545-547 | Over every run a token that was retired is never live again and no step presenting it does anything |
| CampaignFencing.OneFinishingWrite | app/workers/tasks.py:373-400 | Of all finishing writes presenting one token in one run, with duplicate deliveries and expiry in between, at most one takes effect |
| CampaignBudget.EvaluationAttemptsBounded | app/workers/tasks.py:506-530 | With one delivery per message, counted attempts never exceed the limit and a pair that may be claimed again has one left |
| CampaignBudget.EffortFalls | app/campaigns/coordinator.py:139-173 | An explicit measure strictly falls with every change of a pair except enqueue refunds, admission denials and claims lost before the attempt was counted |
| CampaignBudget.WorkIsBounded | app/workers/tasks.py:437-468 | In every single-delivery run a pair changes at most as often as its initial effort plus twice for each refund, denial or uncounted loss |
| CampaignProgress.NeverStuck | app/campaigns/coordinator.py:177-204 | From every reachable state of a running campaign some continuation completes it, Stage 0 documents whose workers are lost included |
| CampaignProgress.Progress | app/campaigns/coordinator.py:19-70 | While a running campaign has work left, some sequence of enabled steps strictly lowers the work measure of the tables |
| CampaignProgress.CompletionIsExact | app/campaigns/coordinator.py:186-204 | The completion step completes a running campaign exactly when it has a JD and each of its JDs is completed or past its barrier with only terminal pairs |
| CampaignProgress.DuplicatesBreakTheLimit | app/workers/tasks.py:506-538 | From every reachable state with a shortlisted pair and nothing evaluating, duplicate deliveries can raise the attempt count beyond any number |
| LimiterScript.RedisLimiter.Admit | app/campaigns/provider_limit.py:10-35 | The script's pruning, counting and writing steps give the specified answer and the specified stored sets |
| LimiterScript.RedisLimiter.Request | app/campaigns/provider_limit.py:46-58 | One call reserves the fixed size for the mock provider and otherwise the context, capped by the token limit; it is admitted exactly when the script answers 0, and then that amount is the last reservation stored |
| LimiterCalls.ProviderWindow | app/campaigns/provider_limit.py:46-58 | Over any sequence of calls of real providers whose contexts fit the token limit, the contexts admitted in any half-open minute add up to at most that limit |
| LimiterSafety.ReleaseFreesOneSlot | app/campaigns/provider_limit.py:61-62 | In every reachable state releasing a live lease frees exactly one slot, once, so that only the window limits can still deny; it gives back no request and no token of the minute |
| LimiterSafety.AdmitsExactly | app/campaigns/provider_limit.py:20-34 | In every reachable state the script admits exactly when a complete log of admissions says it may: live leases, admissions of the last minute and their tokens all within limits |
| LimiterSafety.ReadyWindow | app/campaigns/provider_limit.py:31-33 | The key expiries never drop an entry the pruning would have kept |
| LimiterSafety.SlidingWindowSafety | app/campaigns/provider_limit.py:16-28 | After any sequence of requests, releases and passing time every half-open minute holds at most the request limit of admissions and the token limit of tokens, and live leases never exceed the in-flight limit |
| LimiterSafety.ClosedWindowBound | app/campaigns/provider_limit.py:16-18 | A closed minute holds at most twice the request limit, and more than the limit exactly when the admissions stamped a whole minute after its start are more than its half-open part leaves free |
| LimiterSafety.ClosedWindowReachesTwice | app/campaigns/provider_limit.py:16-18 | For all limits and every start, a reachable state holds exactly twice the request limit in a closed minute |
| LimiterSafety.WaitIsBounded | app/campaigns/provider_limit.py:22-27 | A denied caller waits 2 seconds or between 1 and 60, and with the settings' bounds the answer for an empty window is unreachable |
| LimiterSafety.LoneCallerIsAdmitted | app/campaigns/provider_limit.py:22-34 | A lone caller with a free slot that sleeps each wait is admitted after at most as many retries as the window had entries, within 61 seconds |
| Screening.Screen.FilterAll | app/orchestrator.py:124-187 | The first loop leaves exactly the survivors of the filters, and counters, outcomes and lists agree with the fates decided so far |
| Screening.Screen.ExtractAll | app/orchestrator.py:199-233 | The extraction loop moves exactly the candidates whose extraction raised or named another owner to failure |
| Screening.Screen.CutOthers | app/orchestrator.py:256-278 | Everyone extracted but not chosen is reviewed or cut, never both, and counted once |
| Screening.Screen.EvaluateAll | app/orchestrator.py:282-314 | Every chosen candidate gets the evaluation returned for it, or a failed one, in one list and one counter |
| ScreeningRun.RunPipeline | app/orchestrator.py:46-316 | Whatever the stages return or raise, the run completes exactly when the candidates are distinct (with a valid cutoff, profile and backend); then the outcome, stage, history and open rule checks of every candidate are read off what was returned for it, each list publishes exactly the candidates with its outcomes, the leaderboard by falling score and then id, the others by id |
| ScreeningOutcomes.AccountedMeans | app/orchestrator.py:124-316 | Being accounted for, read off the inputs: an exact condition for each outcome and stage, what the entry carries of the open rule checks, the events of its history, and which list publishes it |
| ScreeningOutcomes.LeadersInOrder | app/stage3_evaluation/scoring.py:79-85 | The leaderboard lists successes by falling score of the last evaluation returned for each, and equal scores by candidate id |
| PipelineAudit.AuditorAcceptsAccountedRuns | app/run_audit.py:145-214 | Every completed run satisfies every equation of the auditor |
| ScreeningRun.RunAndAudit | app/run_audit.py:145-214 | A completed run is accepted by the auditor exactly when it had a profile or no candidates, and every candidate then has one outcome and one public entry |
| ScreeningRun.EarlyReturn | app/orchestrator.py:73-80 | The early return is accounted for only by an empty batch |
| Coverage.AssessTarget | app/stage2_retrieval/coverage.py:105-131 | The nested loops find the greatest credit any admissible passage earns, and the first passage that earns it |
| Coverage.PassageCounts | app/stage2_retrieval/coverage.py:112-131 | Every admissible passage without a negation counts for the share of the groups of which it has a term, or for a half when it has none but a substitute |
| Coverage.CoverageHasPassage | app/stage2_retrieval/coverage.py:105-131 | A coverage above zero is exactly what the cited passage is worth, and that passage is admissible and not negated |
| Coverage.BestIsGreatest | app/stage2_retrieval/coverage.py:127-131 | The kept credit is at least every passage's and is one of them unless all are worth nothing |
| Coverage.CoverageGrows | app/stage2_retrieval/coverage.py:110-131 | Appending passages never lowers coverage, and the best stays unless it is beaten |
| Coverage.CoverageByChunk | app/stage2_retrieval/coverage.py:110-131 | The coverage of a list of chunks is the greatest coverage of a single one |
| Coverage.SupportIsCoverage | app/stage2_retrieval/coverage.py:160-168 | Whether a resolved target is supported is a function of its coverage alone: at least half, or more than half when it has two groups |
| Coverage.SupportGrows | app/stage2_retrieval/coverage.py:166-168 | More passages never take support away |
| Scoring.ScoreCoverage | app/stage2_retrieval/coverage.py:134-187 | The loops compute the category scores and the weighted score, and a candidate is eligible exactly when some requirement has coverage, an applied requirement (if there is one) is supported, the score is positive and reaches the approved minimum, and a production run has an approved target |
| Scoring.CategoryScoreIs | app/stage2_retrieval/coverage.py:137-154 | A category counts exactly when it has a requirement; its score is the mean coverage of its requirements by importance plus a tenth of that of its preferences, at most 1 |
| Scoring.CompositeIs | app/stage2_retrieval/coverage.py:155-157 | The composite score is the mean of the scores of the categories that count, by their weights, and zero when nothing weighs |
| Scoring.TieBreakersAre | app/stage2_retrieval/coverage.py:158-186 | The tie breakers are the coverages of the responsibility targets and of the experience and project targets, and the count is that of requirements with any coverage |
| Scoring.CategoryScoreGrows | app/stage2_retrieval/coverage.py:143-154 | A category score is within 0..1 and never falls when coverages rise |
| Scoring.MoreEvidenceNeverHurts | app/stage2_retrieval/coverage.py:134-187 | Appending passages anywhere never lowers a coverage, a category score or the composite score and never makes an eligible candidate ineligible |
| Evidence.RetainEvidence | app/stage2_retrieval/evidence_extractor.py:57-73 | Existing evidence stays in place as a prefix, what is added is ranked or the first best hit of a target it covers, each of those has its id there afterwards, and distinct ids stay distinct |
| Evidence.CollectEvidence | app/stage2_retrieval/evidence_extractor.py:149-161 | The query loop accumulates exactly what retaining round after round gives |
| Evidence.PruningPreservesCoverage | app/stage2_retrieval/evidence_extractor.py:57-73 | Over any sequence of queries each target is covered by what is kept exactly as by every hit ever returned |
| Evidence.PruningPreservesScores | app/stage2_retrieval/evidence_extractor.py:140-163 | The score of the kept evidence is the score of every hit ever returned, with category scores, composite score and eligibility |
| Targets.ResolveTargets | app/stage2_retrieval/coverage.py:39-102 | Approved targets come first, in order, with a degree rule in place of the terms of the education requirement that mentions it; the derived ones are exactly those of the required and preferred skills and of the queries that the contract leaves open; every target has groups and positive importance, and substitutes only beside a single group |
| Evidence.ScoreCandidate | app/stage2_retrieval/evidence_extractor.py:133-163 | From contract to score in one method: whatever the queries return, the result is the score of every hit |
| Evidence.EligiblePayloads | app/stage2_retrieval/coverage.py:198-202 | The ranking's eligibility test accepts exactly the payloads scored as eligible |
| Experience.Merge | app/stage1_rules/experience.py:83-88 | Merging sorted intervals gives separated blocks that cover exactly the months the intervals cover |
| Experience.SeparatedSizes | app/stage1_rules/experience.py:89-91 | The lengths of separated blocks add up to the half-open union, and lengths plus blocks to the closed union |
| Experience.DatedHistory | app/stage1_rules/experience.py:35-94 | A history exists exactly when there are ranges, each from a month to a later month or the present and none ahead, and no role is undated; its months are the size of the half-open union and months plus blocks that of the closed union |
| Experience.MonthsOfRanges | app/stage1_rules/experience.py:57-91 | The months of a history are those some range covers as written, its last month excluded, and with it included for the upper bound |
| Experience.OrderDoesNotMatter | app/stage1_rules/experience.py:84-91 | The same ranges in another order give the same months and number of blocks |
| HardFilters.ExtractExperience | app/stage1_rules/experience.py:6-32 | One consistent stated total wins, conflicting or inexact ones leave it open, otherwise the dated history counts |
| HardFilters.EvaluateHardFilters | app/stage1_rules/rules_engine.py:100-214 | FAIL exactly for a verified bar to working, years that fall short even with every last month in full, degrees that are all certain and too low or in a named other field, or a contradicted skill; PASS exactly when every requirement is met and verified; REVIEW otherwise |
| HardFilters.DatedHistoryDecision | app/stage1_rules/rules_engine.py:114-149 | A dated history under a positive minimum is rejected exactly when even the closed union of its months falls short, and otherwise reviewed, never passed |
| HardFilters.ScreenFromText | app/stage1_rules/experience.py:6-32 | From the text of a CV to the decision: a stated total decides by itself, and dated ranges reject exactly when even the closed union of their months falls short |
| Context.CountUniqueChars | app/stage3_evaluation/context.py:7-11 | A source listed under several categories counts once |
| Context.SameSource | app/stage3_evaluation/context.py:7-11 | Two chunks are one source exactly when they have the same document, text and id, where a chunk without an id goes by its text |
| Context.Evict | app/stage3_evaluation/context.py:42-49 | The eviction loop ends; each step drops the last chunk of the first category with the most characters while the limit is exceeded and no longer, and the count of what is left and the chunks dropped are reported in order |
| Context.TileCv | app/stage3_evaluation/context.py:51-70 | The passages tile the text from its start to its end; each lies in its section and stops at its end, after the last newline of its second half, or after 3000 characters |
| Context.TilesRebuild | app/stage3_evaluation/context.py:54-70 | Put together the pieces are the text, character for character |
| ContextAssembly.RoundRobin | app/stage3_evaluation/context.py:73-80 | Section balancing takes one passage per section and round, and loses or repeats none |
| ContextAssembly.OrderPassages | app/stage3_evaluation/context.py:81-96 | The loops arrive at the specified arrangement, which is a permutation of the passages |
| ContextOrder.RoundsInOrder | app/stage3_evaluation/context.py:71-80 | Round-robin over the sections lists passages by the number of passages of their section before them, and of one round in section order |
| ContextAssembly.FindNearby | app/stage3_evaluation/context.py:83-90 | The passages collected from the retrieval hits outwards are exactly those that hold the nonempty body of a retrieved chunk or stand beside one that does under a header of the same name |
| ContextOrder.ArrangementOrder | app/stage3_evaluation/context.py:81-96 | Passages with mandatory terms come first; within both kinds those that hold a retrieval hit or adjoin one in their section come first, in source order, and the others follow by the number of passages of their category before them, then by category |
| ContextOrder.AddedAreListed | app/stage3_evaluation/context.py:99-110 | A category lists what was retained for it and then exactly the added passages at home in it, in the order added; the opening is at home everywhere, experience and projects under both and under skills, skills and education only under themselves |
| ContextAssembly.PrepareContext | app/stage3_evaluation/context.py:31-118 | The result is the evicted evidence plus each passage that still fits in one walk over the arrangement; the total never exceeds the limit, no omitted passage would still fit, every dropped chunk and omitted passage is reported in order, and the context is complete exactly when nothing is |
| ContextAssembly.TotalIsTheCount | app/stage3_evaluation/context.py:99-112 | The running total is what counting the final evidence afresh gives, and within the limit |
| PromptBudget.RemoveSource | app/stage3_evaluation/context.py:153-168 | One source goes from every category at once, everything else stays |
| PromptBudget.PickLeast | app/stage3_evaluation/context.py:147-165 | The source to remove is the first one listed that no other goes before: a source alone in some category goes only when all are, then one with a mandatory term, a CV passage, one listed under experience or projects, and at last the longest goes first |
| PromptBudget.BoundPrompt | app/stage3_evaluation/context.py:129-172 | Each source removed was the first to go by those five rules in evidence that did not fit; it fails only when not even the empty evidence fits, and the metadata counts what went and what is left |
| Sentences.SplitSource | app/stage3_evaluation/evidence.py:245-254 | The entries are the nonblank pieces between consecutive sentence ends, and cutting there loses no character |
| Sentences.SentenceRegistry | app/stage3_evaluation/evidence.py:237-255 | Every source is split losslessly and every entry is a nonblank span of its source |
| SentenceGroups.GroupAll | app/stage3_evaluation/compact.py:31-35 | Every registry entry is in the one group of its physical sentence under its own category |
| SentenceGroups.Deduplicate | app/stage3_evaluation/compact.py:36-52 | Only retrieval copies all of whose entries a CV sentence covers are dropped |
| Manifest.HandlesAreOneToOne | app/stage3_evaluation/compact.py:58-66 | Every handle stands for a registry entry of its own category and no entry has two handles |
| Manifest.HandlesPartition | app/stage3_evaluation/compact.py:39-66 | Every registry entry is reached by a handle or listed as deduplicated, never both |
| Manifest.DroppedIsReplaced | app/stage3_evaluation/compact.py:41-51 | A deduplicated entry is contained in a CV sentence of the same category and provenance that has a handle |
| Manifest.EvidenceManifest | app/stage3_evaluation/compact.py:23-72 | A manifest is made exactly when all entries have the one owner; its rows are one for each physical sentence, CV first and in reading order, and what is dropped is exactly the retrieval sentences that stand in the CV under every category that lists them |
| Manifest.DropsAreExact | app/stage3_evaluation/compact.py:38-52 | An entry is dropped exactly when it is no CV sentence and every category that lists its sentence has a CV sentence of the same provenance that contains it |
| Manifest.RowsAreSentences | app/stage3_evaluation/compact.py:28-66 | Two handles share a number exactly when they stand for one physical sentence |
| Selection.TagEntries | app/stage3_evaluation/evidence.py:244-253 | Positional tags number the entries of each category from one and no two entries share a tag |
| Selection.TagsCount | app/stage3_evaluation/evidence.py:244-253 | An entry's number is the number of entries of its category listed up to it |
| Selection.ResolveParts | app/stage3_evaluation/evidence.py:217-266 | Every cited handle becomes the tag, identity, claim text and quotation of the entry it stands for; unknown handles become citations of nothing |
| Selection.ResolveCompactSelection | app/stage3_evaluation/compact.py:75-87 | A selection is resolved exactly when the registry is the candidate's and the scope names this request's owner, handles and entries, and then under the handles its scope names |
| Excerpt.ClaimIsSourceExcerpt | app/stage3_evaluation/evidence.py:25-56 | The loops accept exactly the whole source or an occurrence that quotes every limiting term of each sentence it touches |
| Excerpt.LimitsSurvive | app/stage3_evaluation/evidence.py:37-56 | An accepted partial claim carries every limiting term of each sentence it touches at some occurrence |
| Excerpt.OneSentenceKeepsItsLimits | app/stage3_evaluation/evidence.py:37-56 | From a one-sentence source no accepted claim drops a limiting term |
| Verification.ScanEntries | app/stage3_evaluation/evidence.py:132-139 | The scan refuses a registry with a foreign entry and otherwise finds exactly the reported injection signals and those of the entries |
| Verification.CitationPasses | app/stage3_evaluation/evidence.py:141-158 | A citation passes exactly when it is the tag of an entry the field may cite: an assessment its own category, a career gap experience, any other flag everything |
| Verification.ClaimPasses | app/stage3_evaluation/evidence.py:160-197 | A claim passes exactly when its citation is cited and allowed, the quote stands in the entry and has the numbers of the claim, nothing is blank, and it is not elided or, with an identity, is an excerpt of the entry so identified |
| Verification.VerifyEvidence | app/stage3_evaluation/evidence.py:126-214 | One check for each citation and claim in order, with its reason; each review reason, injection signals included, is raised exactly when its condition holds, and a flag is verified exactly when its citations and claims are sound |
| RoundTrip.SelectionRoundTrip | app/stage3_evaluation/evidence.py:160-197 | A resolved selection has no invalid check if and only if every cited handle exists, has a category its field may cite, and stands for a sentence with a word character |
| RoundTrip.FlagRoundTrip | app/stage3_evaluation/evidence.py:205-210 | A flag is verified exactly when it cites something and cites it well, whether or not claim support is required |
| RoundTrip.NothingToReview | app/stage3_evaluation/evidence.py:128-201 | No review reason is left exactly when the context is complete, no injection signal was found, every category has evidence, and every part cites something and cites it well |
| RoundTrip.ReviewSelection | app/stage3_evaluation/compact.py:75-87 | From registry to review in one method: which selections are refused, and for every accepted one the round trip and the condition under which nothing is left to review |
| Chunker.SplitBlock | app/stage2_retrieval/chunker.py:119-128 | The cutting loop ends; a block is cut at its last space that fits and mid-word only if there is none, every piece is nonempty, stripped and within capacity, and together they differ from the block in whitespace only |
| Chunker.Pack | app/stage2_retrieval/chunker.py:129-148 | One greedy pass yields the packing of the pieces, with indices 0..n-1 |
| Chunker.PackingIsUnique | app/stage2_retrieval/chunker.py:131-148 | The packing rule determines every chunk: two packings of the same pieces are equal |
| Chunker.ShortOnlyWhenForced | app/stage2_retrieval/chunker.py:131-144 | A chunk that others follow is below the minimum only when the next piece would not have fitted |
| Chunker.ChunkSectionStructurally | app/stage2_retrieval/chunker.py:104-149 | Bounds are refused exactly when invalid; otherwise no chunk exceeds the maximum or is empty, and bodies and blocks agree once whitespace is erased |
| Chunker.CleanBlocksAre | app/stage2_retrieval/chunker.py:95-101 | The blocks chunked are the raw ones of six characters and more once stripped, in order |
| Chunker.ChunkText | app/stage2_retrieval/chunker.py:104-118 | Every chunk opens with the header of its section, before its body |

## Left out

- CampaignProgress.NeverStuck: states that completion stays possible from every reachable state, not that it is reached, because no fairness of the coordinator, the broker or the provider is promised by the code; its continuation lets time pass and delivers a recovery message a full lease after its stamp.
- CampaignBudget.EvaluationAttemptsBounded: assumes one delivery for each message, because the bound is false otherwise (`CampaignProgress.DuplicatesBreakTheLimit`).
- Selection.ResolveCompactSelection: scopes are compared as values; the truncation of the hash to 32 characters is not modelled.
- Scoring.ScoreCoverage: scores are real numbers; binary rounding and the rounding to six digits are not modelled.
- PromptBudget.BoundPrompt: whether the prompt fits is an abstract test of the evidence; prompt text and token counting are not modelled.
- ContextAssembly.PrepareContext: a payload that already carries context metadata, or that has no CV text, is returned as it is and is not modelled.
- ContextAssembly.TotalIsTheCount: stated for incoming chunks that are retrieved ones, which is all the evidence extractor produces; `ContextAssembly.TotalOfWalk` says when the total exceeds the count for any others.
- Chunker.ChunkSectionStructurally: the structural split into blocks is a parameter, and the header repeated on continuation passages by `generate_cv_chunks` is added after the bounds apply and is not modelled.
- Database engine, broker and Redis server: a transaction or script is one atomic step; rows skipped because another transaction holds them are a parameter of the dispatch steps.
- Enqueue failures: a failed publication means that the message was not sent; a message published although the call raised is not modelled.
- Coordinator steps are enabled only for campaigns whose intake is closed, as their callers ensure (app/api/campaigns.py:57-65 and app/workers/tasks.py:415-434).
- Stage 0 messages: the first ones are published when intake closes; the broker snapshot that keeps recovery from documents still queued is not modelled, so recovery may also run for those.
- Stage 0 error codes: an extraction step with an empty code is left out, because no caller passes one (app/workers/tasks.py:252-266).
- `finish_pair`: no worker calls it.
- Document hashes, file names, restaging of PDFs and the archive intake: a CV row has a candidate and a PDF or none.
- Single-run reservation (`reserve_run`, `execute_run`) and JD drafts: the same lease idea with less structure.
- `retry_delay` jitter and wake-up messages: waiting times are arbitrary nonnegative numbers.
- Provider clocks: the limiter's time is integer microseconds and does not go backwards.
- Regular expressions, case folding and normalisation: section headers, degree entries, sentence ends, word boundaries and limiting terms are abstract, with the laws stated where they are used.
- `build_evidence_registry`: its ownership and identity checks appear as the requirement that a chunk identity names one text in one place.
- Embedding, reranking, OCR, PDF parsing, encryption, model providers, HTTP routes, reports, scripts, migrations and the frontend.

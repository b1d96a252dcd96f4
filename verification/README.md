# AIagentOS release evidence, qualification harnesses and agent leases

A Dafny model of the parts of AIagentOS that decide whether a release candidate may be promoted, of the harness
arithmetic that feeds those decisions, and of the replicated lease authority that decides which node owns an agent.

- **Release evidence protocol.** A request names one GitHub run per evidence group. Assembly turns it into a campaign;
  campaign provenance, workflow provenance, an independent review and review provenance each write a record that a later
  stage re-derives; promotion decides. `LiveProviderPlan`, `Campaign`, `AssemblyPlan`, `Assembly`, `GitHub`,
  `CampaignProvenance`, `WorkflowProvenance`, `WorkflowAgreement`, `Review`, `ReviewProvenance` and `Promotion` model the
  stages. `Protocol` is the state machine of all stages under a clock that never goes back, and `AssemblyTheorems` and
  `ProtocolTheorems` hold the results over whole runs. `Tables` gives the checked-in tables. `Witnesses` and `WitnessRuns`
  build, for every setting, an assembly and a run through all stages, and `Phase1Witness` does so under those tables.
- **Evidence evaluators.** `GameDay`, `ReleaseSlo`, `StorageProfile` and `ExternalDeletion` recompute verdicts from raw
  timelines and counts, and `DeletionContracts` says which deletion contracts can be met at all. `Verdicts` carries
  verdicts through the stages that read them. `ReadyMeans` takes a ready decision of a run down to the observations,
  `ReadyWitness` takes eligible evaluations up to a ready decision, and `EvaluatorWitness` gives such evaluations.
- **Harness code.** `Capacity`, `WorkloadRun`, `CodingComparison`, `MemoryQualification` and `Lcov`.
- **Agent leases.** `Ownership` is the lease authority of the cluster, `OwnershipSafety` its validator and one-step
  invariants, and `OwnershipRuns` and `OwnershipMembers` the safety of every replicated log.

Conventions. A raised error is `Reject`, kept apart from "accepted with blockers". Time is an integer number of
microseconds and `now` is a parameter. A SHA-256 digest is a free constructor over bytes, so equal digests mean equal
bytes. Ratios and means are exact. GitHub metadata, downloads, signature answers, model answers and test results are
inputs. Where the source loops over mutable state the model is a method with invariants, or a class whose methods change
its fields; the predicate or function it is proved against carries the further results. The shared tables are a parameter
`k`, and results hold for every `k` that meets `ValidContract`.

Assumptions of the protocol model (`Protocol.World`). Equal campaign or review bytes decode to equal records. GitHub keeps
one record, with one finish time, for the first attempt of an assembly run id: `TimeOrder`, `ReviewerDidNotAssemble` and
`ReviewBeforeAssembly` rest on it, because no stage compares two downloads of that record.

Properties that turned out false of the code are stated exactly:

- A review that `build_review` accepts can still be late for promotion, because the two stages measure the thirty days
  from different instants. `Review.ReviewRoundTrip` has the exact condition. `WitnessRuns.ReviewedTooLate` runs all stages
  for every such setting and ends in a decision that is not ready although every report clears and the reviewer approved;
  `Phase1Witness.LateReviewHappens` is one under the checked-in tables.
- Promotion never compares the assembly run with the review. "Assembly before review" holds when the review and the
  decision name one assembly run (`ProtocolTheorems.TimeOrder`). When they differ, every honest ready run extends to a
  ready decision whose assembly finished after the review (`ProtocolTheorems.ReviewBeforeAssembly`), as in
  `Phase1Witness.AssemblyAfterReviewHappens`.
- Campaign provenance does not check that the assembly finished after the evidence, which its readers demand
  (`CampaignProvenance.ProducerConsumerAgree`, with an assembled campaign in `Witnesses.AssembledTooEarly`).
- With fewer agents than workers a tenant-contention run can outgrow its context limit (`Capacity.TenantContextFits`,
  `Capacity.TenantContextCanOverflow`).
- Query sampling collapses when the corpus size shares a factor with the stride (`MemoryQualification.SamplingIsInjective`,
  `MemoryQualification.SamplingCanCollapse`).
- The contract loader and guard let through contracts under which no observation is ever accepted. Some observation is
  accepted exactly when every boundary id, cut at the first "::" of its record keys, is again one of the ids and every
  required boundary has a mode for a configured system (`DeletionContracts.ContractAdmits`, with a contract file for each
  fault in `DeletionContracts.UnmeetableContracts`).

## Model

| member | source | states |
|---|---|---|
| LiveProviderPlan.ParseProviderSet | scripts/live_provider_qualification_plan.py:81-105 | the loop over requested names gives the canonical selection, or a refusal for an empty, malformed, unknown or repeated name |
| LiveProviderPlan.OrderInsensitive | scripts/live_provider_qualification_plan.py:90-105 | two requests that list the same names in any order get the same answer |
| LiveProviderPlan.SelectionIsCanonical | scripts/live_provider_qualification_plan.py:101-105 | with a duplicate-free catalogue every accepted selection is duplicate-free, inside the catalogue and in catalogue order |
| LiveProviderPlan.JoinParseIdempotent | scripts/live_provider_qualification_plan.py:81-105 | parsing the printed form of an accepted selection always gives it back, a provider called "all" included |
| LiveProviderPlan.PlanSplitsCatalog | scripts/live_provider_qualification_plan.py:108-142 | the dispatch plan splits the catalogue into selected and unselected parts, with one matrix row per selected provider |
| Campaign.SelectionIsPromotable | scripts/phase1_promotion_qualification.py:248-267 | a dispatched selection is taken over unchanged by the campaign exactly when it holds both local providers and a hosted one and its names fit an identifier |
| Campaign.ParseCampaign | scripts/phase1_promotion_qualification.py:283-430 | accepts exactly the manifests meeting `CampaignOk` (header, entries, exact inventory, id order, one provider run) and returns their records and completion times |
| AssemblyPlan.BuildPlan | scripts/phase1_campaign_assembly.py:239-305 | accepts exactly the valid requests and returns the plan: one run per group, one entry per required id, in id order, from the group that carries it |
| AssemblyPlan.GroupIsUnique | scripts/phase1_campaign_assembly.py:55-101 | every evidence id, provider ids included, belongs to one run group |
| Assembly.CollectOperators | scripts/phase1_campaign_assembly.py:445-465 | the logins become one canonical operator list, refused exactly when there are more than ten or two differ only by case |
| Assembly.VerifyRuns | scripts/phase1_campaign_assembly.py:452-465 | every planned run is checked, its metadata filed under its group, and exactly its actors collected |
| Assembly.AssembleCampaign | scripts/phase1_campaign_assembly.py:414-528 | accepts exactly under `CanAssemble`; the campaign attests for each planned entry the downloaded bytes, GitHub's attempt and finish time and the prescribed workflow, and its operators are exactly everyone who acted |
| AssemblyTheorems.AssemblyRefinesParser | scripts/phase1_campaign_assembly.py:414-528 | the campaign parser accepts an assembled campaign at any later clock, if and only if it has at most 32 entries and no provider name over 114 characters |
| AssemblyTheorems.GroupDecidesRun | scripts/phase1_campaign_assembly.py:226-235 | entries with one run id have one attempt, workflow and metadata record, and all provider entries share the plan's run |
| AssemblyTheorems.OneWorkflowPerAttempt | scripts/phase1_campaign_assembly.py:466-500 | in an assembled campaign no run attempt carries two workflows or completion times |
| AssemblyTheorems.AssemblyDeterministic | scripts/phase1_campaign_assembly.py:414-528 | the same runs, reports and actors assemble into one campaign |
| GitHub.RefDoesNotMatter | scripts/phase1_campaign_assembly.py:157-169 | a workflow path names the same workflow under any source ref, and passes the directory and suffix tests exactly when the bare path does |
| CampaignProvenance.VerifyProvenance | scripts/phase1_campaign_provenance.py:312-440 | accepts exactly when the campaign parses, the assembly run, the downloaded bundle and the signature answer check out, and returns that run's record |
| CampaignProvenance.ProducerConsumerAgree | scripts/phase1_promotion_qualification.py:1019-1150 | the written report is accepted at any later clock, if and only if the repository fits an identifier and the assembly finished no earlier than the evidence |
| Witnesses.AssembledTooEarly | scripts/phase1_campaign_provenance.py:312-440 | for every setting a campaign that assembly writes, with a bundle that campaign provenance accepts although the assembly run finished before the evidence, and whose report no later stage accepts |
| WorkflowProvenance.GroupRuns | scripts/phase1_workflow_provenance.py:160-206 | the grouping loop is refused exactly when an attempt has two workflows or finish times, and otherwise gives each attempt its one record with its ids in order |
| WorkflowProvenance.RunListUnique | scripts/phase1_promotion_qualification.py:1223-1254 | a campaign has one canonical run list |
| WorkflowProvenance.VerifyProvenance | scripts/phase1_workflow_provenance.py:326-435 | accepts exactly when every attempt matches GitHub's record and every report's bytes are held twice with the campaign's digest, and writes the canonical run list |
| WorkflowAgreement.ParseWorkflowProvenance | scripts/phase1_promotion_qualification.py:1153-1382 | accepts exactly the reports that equal the re-derived run list and entries and are not older than the evidence |
| WorkflowAgreement.ProducerConsumerAgree | scripts/phase1_promotion_qualification.py:1153-1382 | the written report is accepted at any later clock, if and only if its clock had passed every completion and the repository and artifact names fit an identifier |
| WorkflowAgreement.AcceptedReportsCoincide | scripts/phase1_promotion_qualification.py:1223-1382 | two accepted reports for one campaign list the same runs, groups and digests |
| Review.BuildReview | scripts/phase1_independent_review.py:173-259 | accepts exactly the bound, independent and timely observations of a parsed campaign with accepted provenance, and writes their review |
| Review.ParseReview | scripts/phase1_promotion_qualification.py:744-878 | accepts exactly the bound reviews not older than the evidence, and has no blocker exactly when the review is independent, approved, complete and prompt |
| Review.ReviewRoundTrip | scripts/phase1_promotion_qualification.py:744-878 | a built review is accepted at any later clock exactly when the repository fits, and clears exactly when approved, all checks true, nothing open and within thirty days of the evidence |
| Review.ReviewOrder | scripts/phase1_independent_review.py:206-221 | evidence, assembly and review of a built review are ordered in time |
| WitnessRuns.ReviewedTooLate | scripts/phase1_independent_review.py:206-221 | for every setting and review more than thirty days after the evidence but within thirty of the assembly, a run through all stages in which build_review accepts the approving review, every report clears, and the decision is enabled as not ready and not as ready |
| ReviewProvenance.Authenticate | scripts/phase1_review_provenance.py:353-468 | accepts exactly when campaign and review parse and the review's run, bundle and signature check out |
| ReviewProvenance.ProducerConsumerAgree | scripts/phase1_promotion_qualification.py:881-1016 | the record is always accepted at any later clock, the bundle holds the review's bytes, and its author ran the workflow |
| Promotion.FlagsClear | scripts/phase1_promotion_qualification.py:458-468 | a flag table clears exactly when every listed flag is true, and is refused exactly when a section is missing |
| Promotion.JudgeEvidence | scripts/phase1_promotion_qualification.py:1439-1473 | the evidence loop refuses, blocks and retains exactly as the verdicts on the campaign's entries say |
| Promotion.Evaluate | scripts/phase1_promotion_qualification.py:1385-1577 | decides exactly the `Decidable` inputs, and reports ready exactly when no report is blocked and the review clears |
| Promotion.ByteBinding | scripts/phase1_promotion_qualification.py:1439-1473 | every report a decision reads has the bytes that the campaign and the workflow provenance name |
| Promotion.SloBytesBinding | scripts/phase1_promotion_qualification.py:1475-1479 | the soak and game-day files a decision reads are those the service-level report hashed |
| Promotion.DecisionsReadTheSameBytes | scripts/phase1_promotion_qualification.py:1439-1473 | two decisions on one campaign read the same bytes for every evidence id |
| GameDay.ValidateParticipants | scripts/game_day_qualification.py:248-287 | accepts exactly three to twenty distinct participants in allowed roles that cover the required ones |
| GameDay.Evaluate | scripts/game_day_qualification.py:577-679 | accepts exactly the valid observations and reviews and returns their report |
| GameDay.ScenarioPasses | scripts/game_day_qualification.py:290-399 | a scenario passes exactly when it recovered in a positive time within its targets, with every step done, no foreign access and nothing open |
| GameDay.EligibleMeans | scripts/game_day_qualification.py:577-679 | a report is eligible exactly when every scenario passes and a reviewer who took no part approved with every check and no finding |
| ReleaseSlo.ValidateAlerts | scripts/release_slo_qualification.py:294-328 | accepts exactly the alerts inside the window and counts the unresolved ones |
| ReleaseSlo.ValidateGameDay | scripts/release_slo_qualification.py:879-1062 | accepts exactly the reports of the dispatched target and returns every failing check |
| ReleaseSlo.Evaluate | scripts/release_slo_qualification.py:1065-1160 | accepts exactly the valid inputs and returns targets, failed targets and blockers |
| ReleaseSlo.RequestTargetsMean | scripts/release_slo_qualification.py:358-546 | the availability, model and tool targets pass exactly when window, volume and the exact integer ratio do |
| ReleaseSlo.QueueMeans | scripts/release_slo_qualification.py:435-461 | the queue target passes exactly when a day of at least 10000 admissions waited less than a quarter second on average, in exact arithmetic, and none starved |
| ReleaseSlo.EligibleMeans | scripts/release_slo_qualification.py:1108-1125 | a report is eligible exactly when all nine targets pass, every alert is resolved and soak, drill and game day fail no check |
| ReleaseSlo.EvaluationMonotone | scripts/release_slo_qualification.py:331-546 | moving requests to success, or changing only rejection counts, keeps acceptance, fails no passing target and adds no blocker |
| StorageProfile.SecondsExact | scripts/storage_profile_qualification.py:196-200 | a derived duration exists exactly for whole non-negative seconds and is their number |
| StorageProfile.AcceptedDurations | scripts/storage_profile_qualification.py:214-311 | in an accepted evaluation data loss and recovery are exact distances that fit together in an exercise of at most 48 hours, and the scenarios are the contract's in order |
| StorageProfile.EligibleMeans | scripts/storage_profile_qualification.py:365-700 | a report is eligible exactly when every scenario recovered within five minutes of data and an hour, and an independent review approved with every check true and nothing open |
| ExternalDeletion.ExerciseBounded | scripts/external_deletion_qualification.py:295-424 | a passed exercise has its data absent within its target of the mode's reference instant, the target being at most the contract maximum |
| ExternalDeletion.SplitRecordKey | scripts/external_deletion_qualification.py:712-725 | a record key splits back into its parts exactly when the boundary id has no "::" and does not end in ":" |
| ExternalDeletion.LoadContract | scripts/external_deletion_qualification.py:216-291 | the loader accepts exactly the bounded contracts with distinct external ids, distinct modes, valid names and known required ids, and returns them in file order |
| DeletionContracts.ContractAdmits | scripts/external_deletion_qualification.py:427-739 | an evaluation accepts some observation and review if and only if the dispatch and the six-boundary guard are met, every boundary id is read back from its record keys as one of the ids, and every required boundary has a mode for a configured system; then some observation is even eligible |
| DeletionContracts.UnmeetableContracts | scripts/external_deletion_qualification.py:216-291 | two contract files that load and pass the guard and under which no observation is accepted, one for each fault, and the same file without either fault under which one is |
| ExternalDeletion.ScanSystems | scripts/external_deletion_qualification.py:605-739 | accepts exactly the record lists that are distinct, in canonical order, cover every boundary and partition each |
| ExternalDeletion.RecordsCanonical | scripts/external_deletion_qualification.py:712-727 | two accepted lists of the same records are equal, whatever the boundary ids |
| ExternalDeletion.RecordsPartition | scripts/external_deletion_qualification.py:728-739 | every boundary is either one not-configured record or only configured ones, and required boundaries are configured |
| ExternalDeletion.Evaluate | scripts/external_deletion_qualification.py:442-885 | accepts exactly under `Accepted` and returns the report of the accepted records |
| ExternalDeletion.EligibleMeans | scripts/external_deletion_qualification.py:742-885 | a report is eligible exactly when every configured system handled its canary as its mode demands and in time, and an independent review approved with every check true and nothing open |
| ExternalDeletion.EligibleDeletesInTime | scripts/external_deletion_qualification.py:340-424 | in an eligible report every configured system's data is gone within its bounded target, inside the exercise, with nothing left |
| Verdicts.GameDayClearsSlo | scripts/release_slo_qualification.py:879-1062 | an eligible game-day report is accepted by the service-level stage exactly on the two supported architectures, and fails nothing exactly when its bytes are cited |
| Verdicts.GameDayAtPromotion | scripts/phase1_promotion_qualification.py:714-738 | a game-day report blocks promotion exactly when it is not eligible |
| Verdicts.SloAtPromotion | scripts/phase1_promotion_qualification.py:692-713 | a service-level report blocks promotion exactly when it is not eligible |
| Verdicts.StorageAtPromotion | scripts/phase1_promotion_qualification.py:604-627 | a storage report blocks promotion exactly when it is not eligible |
| Verdicts.DeletionAtPromotion | scripts/phase1_promotion_qualification.py:628-651 | an external-deletion report blocks promotion exactly when it is not eligible |
| Verdicts.SloCoversPrerequisites | scripts/release_slo_qualification.py:1108-1125 | an eligible service-level report implies that its soak and game-day inputs clear promotion |
| Verdicts.SloBindingCarriesOver | scripts/phase1_promotion_qualification.py:1475-1479 | a decision that reads an eligible service-level report reads, byte for byte, the soak and game-day files it was computed from, and all three clear |
| Protocol.RunKeepsInv | scripts/phase1_promotion_qualification.py:1385-1577 | in every interleaving of the stages each logged stage was enabled when it ran, in clock order |
| ProtocolTheorems.SeparationOfDuties | scripts/phase1_promotion_qualification.py:798-862 | in every run the author of a ready decision's review is, up to case, nobody who acted on the campaign's assembly or on any evidence run |
| ProtocolTheorems.ReviewerDidNotAssemble | scripts/phase1_campaign_provenance.py:200-262 | in every run the author of a ready decision's review is, up to case, neither the actor nor the triggering actor GitHub records for the assembly run of that decision |
| ProtocolTheorems.ReviewerRanTheReview | scripts/phase1_review_provenance.py:239-312 | in every run the login that ran the authenticated review workflow is the author of the decided review |
| ProtocolTheorems.DecisionReadsSignedBundle | scripts/phase1_promotion_qualification.py:1439-1473 | in every run the campaign and every report a decision read are, byte for byte, the files of a bundle with an accepted signature, downloaded from the assembly run the decision names |
| ProtocolTheorems.TimeOrder | scripts/phase1_promotion_qualification.py:1002-1149 | in every run evidence, assembly, review, review workflow and review provenance of a decision are ordered in time, for one assembly run id |
| ProtocolTheorems.ReviewBeforeAssembly | scripts/phase1_promotion_qualification.py:1385-1577 | every honest run with a ready trail goes on, once GitHub records a second assembly run by an operator that finished after the review, through campaign provenance to a ready decision on that run |
| ProtocolTheorems.HonestRunDecides | scripts/phase1_promotion_qualification.py:1385-1577 | after one honest pass through all stages, with any campaign report of the same campaign, dispatch and repository, a decision is enabled exactly when that assembly finished and the workflow stage ran after every completion, names fit, reports are admissible and bound; it is ready exactly when none is blocked and the review approved promptly and completely |
| ReadyMeans.ReadyRunMeans | scripts/phase1_promotion_qualification.py:1385-1577 | in every run a ready decision on the evaluators' reports means that storage recovered within its targets, configured systems deleted in time, the service levels hold with exact ratios and every alert is resolved, a release build soaked a day, the incident drill passed every command, game-day scenarios recovered within their targets, nobody reviewed their own exercise, the decision read the very soak and game-day files behind the service levels, and every other report has all its flags true |
| ReadyWitness.ReadyRunExists | scripts/phase1_promotion_qualification.py:1385-1577 | conversely, for every setting, prompt review and eligible evaluations of its files a run through all stages ends in a ready decision on exactly those evaluations |
| EvaluatorWitness.SourcesAreEligible | scripts/phase1_promotion_qualification.py:604-738 | every dispatch that no evaluator refuses has evaluations that all evaluators accept and call eligible |
| Phase1Witness.PromotionHappens | scripts/phase1_promotion_qualification.py:45-100 | under the checked-in tables with a catalogue of one hosted and the two local providers, whatever bytes the files hold, some run ends in a ready decision on eligible evaluations |
| Phase1Witness.LateReviewHappens | scripts/phase1_promotion_qualification.py:744-878 | under the checked-in tables a run with evidence at day 0, assembly at day 20 and an approving review at day 40 ends in a decision that is not ready although every report clears |
| Phase1Witness.AssemblyAfterReviewHappens | scripts/phase1_promotion_qualification.py:1385-1577 | under the checked-in tables a run ends in a ready decision whose assembly finished after the review |
| Tables.TablesAreValid | scripts/phase1_promotion_qualification.py:45-100 | the checked-in tables meet `ValidContract` for every valid catalogue, with nine base ids |
| Tables.NamesFitExactly | scripts/phase1_workflow_provenance.py:100-130 | with those tables all artifact names fit exactly when the release tag has at most 63 characters and no provider name is over 119 |
| Capacity.ValidateConfig | benchmarks/src/bin/capacity-qualification.rs:204-272 | accepts exactly the named version 1 suites of valid, distinctly named profiles with the required names and kinds |
| Capacity.SmokeKeepsSuite | benchmarks/src/bin/capacity-qualification.rs:273-296 | scaling a valid suite down gives a valid suite |
| Capacity.FairShares | benchmarks/src/bin/capacity-qualification.rs:510-512 | the shares add up to the work, differ by at most one, and the largest is the ceiling |
| Capacity.BudgetFor | benchmarks/src/bin/capacity-qualification.rs:420-467 | the chain of saturating 64-bit and 32-bit steps equals the exact limits clamped once |
| Capacity.QuotaCoversGrowth | benchmarks/src/bin/capacity-qualification.rs:420-467 | for a valid metered profile the token quota covers the quadratic cost of all turns, the context limit every worker's last turn and the request quota every operation, up to clamping |
| Capacity.QuotaCoversTenants | benchmarks/src/bin/capacity-qualification.rs:757-795 | the token quota covers a tenant-contention run however many agents there are |
| Capacity.LoadIsShare | benchmarks/src/bin/capacity-qualification.rs:783-790 | dealing operations out in turn gives every agent its fair share |
| Capacity.TenantContextFits | benchmarks/src/bin/capacity-qualification.rs:757-795 | every agent of every tenant fits the context limit if and only if the limit is clamped or the largest agent share is within the per-worker share, which holds when there are at least as many agents as workers |
| Capacity.TenantContextCanOverflow | benchmarks/src/bin/capacity-qualification.rs:757-795 | a valid profile with fewer agents than workers whose agents outgrow the limit |
| WorkloadRun.CollectWorkers | benchmarks/src/bin/capacity-qualification.rs:1028-1052 | refused exactly when a worker failed to set up; otherwise each operation is counted and timed once and the first five errors kept |
| WorkloadRun.OrderDoesNotMatter | benchmarks/src/bin/capacity-qualification.rs:1028-1052 | the operations of a run do not depend on the order its workers finish in |
| WorkloadRun.WorkConservation | benchmarks/src/bin/capacity-qualification.rs:530-562 | in any join order exactly the configured operations are counted and timed, and the profile passes exactly when none failed |
| WorkloadRun.PercentileOrder | benchmarks/src/bin/capacity-qualification.rs:520-528 | a percentile is the sample at its rank in sorted order, and higher ranks give no smaller ones |
| CodingComparison.Workspace.Run | benchmarks/src/bin/coding-comparison.rs:236-249 | both attempt loops, with and without the extra check, report exactly the attempts of the specification: exit codes, tokens, and the change that passed |
| CodingComparison.AttemptsDoNotLeak | benchmarks/src/bin/coding-comparison.rs:343-403 | whatever earlier attempts and tests did, an attempt's tests start on the snapshot with its own edits alone, and every attempt before the last failed |
| CodingComparison.AttemptsStop | benchmarks/src/bin/coding-comparison.rs:236-249 | there are at most the allowed attempts, and fewer only after a pass |
| CodingComparison.UnknownStaysUnknown | benchmarks/src/bin/coding-comparison.rs:422-456 | a total is known exactly when every row's count or cost is |
| MemoryQualification.SampleSize | benchmarks/src/bin/memory-qualification.rs:92-96 | the sampled ids number the queries up to one period, the corpus size over its greatest common divisor with the stride |
| MemoryQualification.SamplingIsInjective | benchmarks/src/bin/memory-qualification.rs:92-96 | every query gets its own id exactly when there are no more queries than one period, as for every coprime corpus size |
| MemoryQualification.SamplingCanCollapse | benchmarks/src/bin/memory-qualification.rs:92-96 | a corpus of stride size maps its first two queries to one id |
| MemoryQualification.BuildQueries | benchmarks/src/bin/memory-qualification.rs:91-105 | each selected id contributes exactly one vector, its own, in id order |
| MemoryQualification.Percentile95 | benchmarks/src/bin/memory-qualification.rs:45-52 | sorts the samples in place and returns the one at the ninety-five per cent index, zero for none |
| MemoryQualification.PercentileMeans | benchmarks/src/bin/memory-qualification.rs:45-52 | that value is a sample and more than ninety-five per cent of all samples but one are no larger |
| Lcov.ParseLcov | scripts/check_critical_coverage.py:44-71 | the line loop computes the specification parse, and refuses exactly when it does |
| Lcov.ParsingUndoesPrinting | scripts/check_critical_coverage.py:44-71 | the printed form of any records parses to the map in which the last record of a path wins |
| Lcov.ReportsConcatenate | scripts/check_critical_coverage.py:44-71 | appending a report after a complete record gives the first map updated by the second, refused exactly when either is |
| Lcov.Evaluate | scripts/check_critical_coverage.py:74-109 | the gate names exactly the targets without one record per file or with too little coverage, in order |
| Ownership.Authority.Execute | crates/kernel/src/cluster_consensus.rs:1905-1996 | the authority object moves exactly as the specification function, receipts and refusals included |
| Ownership.ChangeMember | crates/kernel/src/cluster_consensus.rs:3240-3395 | the release loop of a revocation and the refusals of a departure equal the specification |
| OwnershipSafety.Validate | crates/kernel/src/cluster_consensus.rs:1200-1310 | the validator accepts exactly the control planes whose leases are what a consecutive audit trail says |
| OwnershipSafety.CommandKeepsInv | crates/kernel/src/cluster_consensus.rs:1905-1996 | every command keeps leases, audit trail and receipts consistent and moves each lease only forward |
| OwnershipRuns.EveryStateIsValid | crates/kernel/src/cluster_consensus.rs:1200-1310 | in every state any ordered log leads to, the leases are exactly what the consecutive lease audit says, and each step moves leases only forward |
| OwnershipRuns.ReceiptsAreComplete | crates/kernel/src/cluster_consensus.rs:1905-1996 | after any log the receipts are exactly those of the entries that took effect, each holding that entry's command and answer, and answers are numbered in log order |
| OwnershipRuns.TokensNeverFall | crates/kernel/src/cluster_consensus.rs:3413-3650 | over every log a fencing token and a generation never fall, and one token has one owner |
| OwnershipRuns.Handover | crates/kernel/src/cluster_consensus.rs:3440-3475 | a token is succeeded only by the next one, after the last lease under it was released or had expired |
| OwnershipRuns.StaleCommandsAreRefused | crates/kernel/src/cluster_consensus.rs:3507-3605 | once a lease has moved on, a new renewal or release under an earlier token is refused and changes nothing |
| OwnershipRuns.AtMostOnce | crates/kernel/src/cluster_consensus.rs:1905-2026 | after its first success an operation id never changes the state again, and the same request at any proposed time gets the first answer |
| OwnershipMembers.LiveLeasesHaveActiveOwners | crates/kernel/src/cluster_consensus.rs:3240-3395 | after any log every lease that is neither released nor expired is owned by an active member |
| OwnershipMembers.RevokedNodesHoldNothing | crates/kernel/src/cluster_consensus.rs:3240-3395 | once a node is revoked it holds no live lease at any later point of the log, whatever commands follow |

## Left out

- File handling, JSON decoding, exact-key and size checks, report writing and argument parsing: records start typed and parsed.
- The plan files of the provenance stages: each verifier's comparison of a handed-in plan with its own re-derived one is not modelled, except for assembly.
- `cosign`, `gh`, sandboxes, providers and clocks: their answers are inputs.
- Case folding beyond ASCII: every folded value has already matched an ASCII pattern.
- Float rounding: ratios, means, percentiles and coverage are exact rationals.
- Free-text and identifier fields that a stage only copies, such as storage stack names, exercise ids and caveats.
- Blank-name tests of `Capacity` and the text rules of `Ownership`: predicates passed as parameters.
- ReleaseSlo.Evaluate: the incident-drill scan is modelled on values, so its loop order is not captured.
- Lcov.ParseLcov: integers are ASCII decimal; other Unicode digits, which Python accepts, are refused.
- CodingComparison.Workspace.Run: byte limits and path syntax of proposals are not modelled, and the copy-on-write strategy runs in another crate.
- Ownership.Authority.Execute: join challenges, certificate rollouts, the membership and rollout audits and capability records, which do not touch leases, are not modelled; what they refuse of a join or a departure is the flag `admitted` of the command, and text rules of fields are parameters.
- Ownership.ChangeMember: an unfinished certificate rollout, which refuses a departure, is part of the flag `admitted`, and closing a rollout on revocation is not modelled.
- OwnershipRuns.EveryStateIsValid: the validator's part for members, join challenges and rollouts is not modelled.
- MemoryQualification.BuildQueries: the two vector indexes and the recall counters are not modelled.
- Log storage, snapshots and elections of the consensus layer: a log is assumed ordered by index with terms that never fall.
- Archive, desktop, platform and incident-drill scripts: they build archives, start processes and probe the host, and what they decide depends on the operating system rather than on their inputs.

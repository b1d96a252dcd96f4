/** From a ready decision down to the observations the evaluators were given. */
module ReadyMeans {
  import opened Primitives
  import opened LiveProviderPlan
  import opened Campaign
  import opened Protocol
  import PT = ProtocolTheorems
  import CP = CampaignProvenance
  import WA = WorkflowAgreement
  import RP = ReviewProvenance
  import Review
  import GameDay
  import ReleaseSlo
  import StorageProfile
  import ExternalDeletion
  import Promotion
  import Verdicts

  /** What four evaluators were given for one release candidate. The game-day and soak reports are the
      files the service-level evaluator read. */
  datatype Sources = Sources(
    storage: File<StorageProfile.Observation>, storageReview: File<StorageProfile.Review>, storageChecks: set<string>,
    deletion: File<ExternalDeletion.Observation>, deletionReview: File<ExternalDeletion.Review>,
    setting: ExternalDeletion.Setting,
    slo: ReleaseSlo.Inputs, gameDay: File<GameDay.Observation>, gameDayReview: File<GameDay.Review>)

  /** Every evaluator accepted what it was given. */
  ghost predicate Evaluated(x: Sources, d: Dispatch) {
    && StorageProfile.Evaluate(x.storage, x.storageReview, d, x.storageChecks).Accept?
    && ExternalDeletion.Accepted(x.deletion, x.deletionReview, x.setting) && x.setting.dispatch == d
    && ReleaseSlo.Accepted(x.slo, d)
    && Verdicts.GameDayReported(x.gameDay, x.gameDayReview, d, x.slo.gameDay.value)
  }

  /** The file a decision reads for an evidence id, if there is one, decodes to `e`. */
  predicate Reads(inp: Promotion.Inputs, id: string, e: Promotion.Evidence) {
    var records := Records(inp.campaign.value.artifacts);
    id in records && records[id].path in inp.evidence ==> inp.evidence[records[id].path].value == e
  }

  /** The file a decision reads for an evidence id decodes to `e` if it has the given bytes. */
  predicate ReadsBytes(inp: Promotion.Inputs, id: string, bytes: Bytes, e: Promotion.Evidence) {
    var records := Records(inp.campaign.value.artifacts);
    id in records && records[id].path in inp.evidence ==> Verdicts.DecodesAs(inp.evidence[records[id].path], bytes, e)
  }

  /** The evidence of a decision is what the evaluators wrote. */
  ghost predicate ReadsReports(inp: Promotion.Inputs, x: Sources, d: Dispatch) {
    && Evaluated(x, d)
    && Reads(inp, STORAGE_ID, Promotion.Storage(
         StorageProfile.Evaluate(x.storage, x.storageReview, d, x.storageChecks).value))
    && Reads(inp, DELETION_ID, Promotion.Deletion(ExternalDeletion.ReportOf(x.deletion, x.deletionReview, x.setting)))
    && Reads(inp, SLO_ID, Promotion.SloEvidence(ReleaseSlo.ReportOf(x.slo, d)))
    && ReadsBytes(inp, SOAK_ID, x.slo.soak.bytes, Promotion.SoakEvidence(x.slo.soak.value))
    && ReadsBytes(inp, GAME_DAY_ID, x.slo.gameDay.bytes, Promotion.GameDayEvidence(x.slo.gameDay.value))
  }

  // ----- what the observations say -------------------------------------------------------

  /** Every storage fault was recovered within five minutes of data and an hour. */
  predicate StorageRecovers(o: StorageProfile.Observation) {
    |o.scenarios| == 3 && forall i | 0 <= i < |o.scenarios| :: StorageProfile.Recovered(o.scenarios[i])
  }

  /** The data of a configured system was gone within its target, itself within the contract maximum. */
  predicate DeletedInTime(s: ExternalDeletion.System, o: ExternalDeletion.Observation, maximum: int) {
    && s.exercise.Some? && ExternalDeletion.Reference(s.exercise.value, s.mode).Accept?
    && (var e, reference := s.exercise.value, ExternalDeletion.Reference(s.exercise.value, s.mode).value;
        && o.startedAt <= reference <= e.absentAt <= o.endedAt
        && e.absentAt - reference <= e.target * SECOND <= maximum * SECOND
        && e.residual == 0 && e.tenantAccesses == 0)
  }

  predicate DeletesInTime(o: ExternalDeletion.Observation, maximum: int) {
    forall s | s in o.systems && s.configured :: DeletedInTime(s, o, maximum)
  }

  /** The service levels, in whole numbers where the stage divides. */
  predicate Serves(s: ReleaseSlo.Slis) {
    && s.availability.window >= 2_592_000 && s.availability.Total() >= 100_000
    && s.availability.success * 1000 >= 995 * s.availability.Total()
    && s.llm.window >= 86_400 && s.llm.Total() >= 1_000 && s.llm.success * 100 >= 99 * s.llm.Total()
    && s.liveProviderPassed
    && s.tool.window >= 86_400 && s.tool.Total() >= 1_000 && s.tool.success * 1000 >= 995 * s.tool.Total()
    && s.controlP95 < 1.0 && s.agentP95 < 30.0
    && 4.0 * s.waitSeconds < s.admissions as real && s.starvation == 0
    && s.unexpectedAllows == 0 && s.unhealthySeconds == 0 && s.backupAge <= 90_000.0 && s.restorePassed
    && s.recovered + s.safeRejected == s.attempted && s.crossTenant == 0 && s.violations == 0
  }

  /** An unscaled release build ran for a day. */
  predicate SoakedADay(s: ReleaseSlo.Soak) {
    && s.buildProfile == "release" && !s.smokeScaled && GameDay.AllTrue(s.checks)
    && s.durationSeconds >= 86_400 && s.elapsedSeconds >= 86_400.0 && s.samples >= 1_000
  }

  /** Every game-day scenario was recovered within its own targets. */
  predicate GameDayRecovers(o: GameDay.Observation) {
    forall i | 0 <= i < |o.scenarios| :: var s := o.scenarios[i];
      && s.detectedAt < s.recoveredAt && (s.recoveredAt - s.detectedAt) as real <= s.targetRto * 1_000_000.0
      && s.dataLoss <= s.targetRpo && s.stepsCompleted == s.stepsTotal
      && s.tenantAccesses == 0 && s.unresolvedFindings == 0
  }

  /** The automated drill ran the six scenarios, and every command passed with valid evidence. */
  predicate DrillHeld(i: ReleaseSlo.Incident) {
    && i.automatedScope && i.drillPassed && i.passed && ReleaseSlo.DrillIds(i.scenarios) == GameDay.SCENARIO_IDS
    && (forall s | s in i.scenarios :: s.passed && s.commands != [])
    && (forall s, c | s in i.scenarios && c in s.commands :: c.passed && c.evidenceValid)
  }

  /** Nobody reviewed their own exercise. */
  predicate ReviewersIndependent(x: Sources) {
    && Fold(x.storageReview.value.reviewer) !in {Fold(x.storage.value.operator), Fold(x.storage.value.harness)}
    && Fold(x.deletionReview.value.reviewer) !in {Fold(x.deletion.value.operator), Fold(x.deletion.value.harness)}
    && x.gameDayReview.value.reviewer != x.gameDay.value.facilitator
    && (forall p | p in x.gameDay.value.participants :: p.id != x.gameDayReview.value.reviewer)
  }

  predicate AllHold(flags: Promotion.Flags, table: seq<FlagPath>) {
    forall i | 0 <= i < |table| :: Promotion.Holds(flags, table[i])
  }

  /** What a report without an evaluator of its own says: every listed flag is true, the plan covers the
      providers, each provider answered, the backup passed. */
  predicate Vouches(k: Contract, id: string, e: Promotion.Evidence, onDevice: string, providers: seq<string>) {
    match EvidenceSpec(k, id)
    case None => false
    case Some(spec) =>
      match spec.kind
      case LinuxCliKind => e.LinuxCli? && AllHold(e.linuxFlags, k.linuxChecks)
      case OnDeviceKind => e.OnDevice? && e.device.environmentId == onDevice && AllHold(e.deviceFlags, k.onDeviceChecks)
      case PlanKind => e.ProviderPlan? && e.selected == providers && e.available == k.catalog && e.status == "ready"
      case ProviderKind =>
        && e.Provider? && IsProviderId(id) && e.provider == ProviderOf(id) && e.providerStatus == "passed"
        && (e.contentNonempty || e.toolCalls > 0)
      case BackupKind => e.RemoteBackup? && e.backupPassed && e.backupEligible
      case _ => true
  }

  /** Every report of the campaign is read and vouches. */
  predicate AllVouch(k: Contract, inp: Promotion.Inputs) {
    var c := inp.campaign.value;
    forall a | a in c.artifacts ::
      a.path in inp.evidence &&
      Vouches(k, a.evidenceId, inp.evidence[a.path].value, c.onDeviceEnvironment, c.providers)
  }

  // ----- one report at a time ------------------------------------------------------------

  /** A ready decision read a file for every base id and found nothing to block. */
  lemma BaseVerdict(k: Contract, inp: Promotion.Inputs, d: Dispatch, now: Micros, id: string) returns (a: Artifact)
    requires Promotion.Ready(k, inp, d, now) && id in k.base
    ensures id in Records(inp.campaign.value.artifacts) && Records(inp.campaign.value.artifacts)[id] == a
    ensures a.evidenceId == id && a.path in inp.evidence && inp.evidence[a.path].Sha() == a.sha256
    ensures Promotion.Verdict(k, inp, d, a) == Accept([])
    ensures Promotion.ValidateEvidence(k, id, inp.evidence[a.path].value, d, inp.campaign.value.onDeviceEnvironment,
                                       inp.campaign.value.providers) == Accept([])
  {
    hide CP.ProvenanceOk, WA.ProvenanceOk, Promotion.SloBinds, Review.ReviewAccepted, RP.ProvenanceAccepted;
    hide Promotion.OneRepository, Review.Clear, Promotion.ValidateEvidence, IsReleaseCandidate, IsCommit, IsIdentifier;
    var c := inp.campaign.value;
    assert id in Required(k, c.providers);
    a := Records(c.artifacts)[id];
    assert Promotion.Verdict(k, inp, d, a) == Accept([]);
  }

  lemma StorageFacts(k: Contract, inp: Promotion.Inputs, d: Dispatch, now: Micros, x: Sources)
    requires StageIds(k) && Promotion.Ready(k, inp, d, now) && ReadsReports(inp, x, d)
    ensures StorageRecovers(x.storage.value)
    ensures Fold(x.storageReview.value.reviewer) !in {Fold(x.storage.value.operator), Fold(x.storage.value.harness)}
  {
    hide Promotion.Ready, ExternalDeletion.Accepted, ExternalDeletion.ReportOf, ReleaseSlo.Accepted;
    hide ReleaseSlo.ReportOf;
    hide Verdicts.GameDayReported, ReadsBytes, Records, StorageProfile.Evaluate, Promotion.ValidateStorage, STORAGE_ID;
    var a := BaseVerdict(k, inp, d, now, STORAGE_ID);
    Verdicts.StorageAtPromotion(x.storage, x.storageReview, d, x.storageChecks);
    StorageProfile.EligibleMeans(x.storage, x.storageReview, d, x.storageChecks);
    StorageProfile.AcceptedDurations(x.storage, x.storageReview, d, x.storageChecks, 0);
  }

  lemma ReportVouches(k: Contract, id: string, e: Promotion.Evidence, d: Dispatch, onDevice: string,
                      providers: seq<string>)
    requires Promotion.ValidateEvidence(k, id, e, d, onDevice, providers) == Accept([])
    ensures Vouches(k, id, e, onDevice, providers)
  {
    hide Promotion.ValidateStorage, Promotion.ValidateDeletion, Promotion.ValidateSoak, Promotion.ValidateSlo;
    hide Promotion.ValidateGameDay, Promotion.FailedFlags, Promotion.Holds, IsBoundedText;
    if e.LinuxCli? { Promotion.FlagsClear(e.linuxFlags, k.linuxChecks); }
    if e.OnDevice? { Promotion.FlagsClear(e.deviceFlags, k.onDeviceChecks); }
    if e.ProviderPlan? { AllTrueChecks([(Promotion.Status, e.status == "ready")]); }
    if e.Provider? {
      AllTrueChecks([(Promotion.Status, e.providerStatus == "passed"),
                     (Promotion.Response, e.contentNonempty || e.toolCalls > 0)]);
    }
    if e.RemoteBackup? {
      AllTrueChecks([(Promotion.Passed, e.backupPassed), (Promotion.Eligible, e.backupEligible)]);
    }
  }

  lemma AllTrueChecks(checks: seq<(Promotion.Check, bool)>)
    requires 1 <= |checks| <= 2
    ensures ReleaseSlo.Failing(checks) == [] ==> checks[0].1 && (|checks| == 2 ==> checks[1].1)
  {
    hide ReleaseSlo.Failing;
  }

  lemma ReportsVouch(k: Contract, inp: Promotion.Inputs, d: Dispatch, now: Micros)
    requires Promotion.Ready(k, inp, d, now)
    ensures AllVouch(k, inp)
  {
    hide Promotion.Decidable, Promotion.ValidateEvidence, Review.Clear, Vouches;
    forall a | a in inp.campaign.value.artifacts
      ensures a.path in inp.evidence
      ensures Vouches(k, a.evidenceId, inp.evidence[a.path].value, inp.campaign.value.onDeviceEnvironment,
                      inp.campaign.value.providers)
    {
      assert Promotion.Verdict(k, inp, d, a) == Accept([]);
      ReportVouches(k, a.evidenceId, inp.evidence[a.path].value, d, inp.campaign.value.onDeviceEnvironment,
                    inp.campaign.value.providers);
    }
  }

  lemma DeletionFacts(k: Contract, inp: Promotion.Inputs, d: Dispatch, now: Micros, x: Sources)
    requires StageIds(k) && Promotion.Ready(k, inp, d, now) && ReadsReports(inp, x, d)
    ensures DeletesInTime(x.deletion.value, x.setting.contract.maximum)
    ensures Fold(x.deletionReview.value.reviewer) !in {Fold(x.deletion.value.operator), Fold(x.deletion.value.harness)}
  {
    hide Promotion.Ready, ExternalDeletion.SystemsOk, ExternalDeletion.ReportOf, ReleaseSlo.Accepted;
    hide ReleaseSlo.ReportOf;
    hide Verdicts.GameDayReported, ReadsBytes, Records, StorageProfile.Evaluate, Promotion.ValidateDeletion;
    hide DELETION_ID;
    hide ExternalDeletion.ObservationBinds, ExternalDeletion.ReviewBinds, ExternalDeletion.Reference;
    var a := BaseVerdict(k, inp, d, now, DELETION_ID);
    Verdicts.DeletionAtPromotion(x.deletion, x.deletionReview, x.setting);
    ExternalDeletion.EligibleMeans(x.deletion, x.deletionReview, x.setting);
    forall s | s in x.deletion.value.systems && s.configured
      ensures DeletedInTime(s, x.deletion.value, x.setting.contract.maximum)
    {
      ExternalDeletion.EligibleDeletesInTime(x.deletion, x.deletionReview, x.setting, s);
    }
  }

  lemma SloEligible(k: Contract, inp: Promotion.Inputs, d: Dispatch, now: Micros, x: Sources)
    requires StageIds(k) && Promotion.Ready(k, inp, d, now) && ReadsReports(inp, x, d)
    ensures ReleaseSlo.ReportOf(x.slo, d).eligible
  {
    hide Promotion.Ready, ExternalDeletion.Accepted, ExternalDeletion.ReportOf, ReleaseSlo.Accepted;
    hide ReleaseSlo.ReportOf;
    hide Verdicts.GameDayReported, ReadsBytes, Records, StorageProfile.Evaluate, Promotion.ValidateSlo, SLO_ID;
    var a := BaseVerdict(k, inp, d, now, SLO_ID);
    Verdicts.SloAtPromotion(x.slo, d);
  }

  lemma SlisServe(s: ReleaseSlo.Slis)
    requires forall t | t in ReleaseSlo.Targets(s) :: t.passed
    ensures Serves(s)
  {
    hide ReleaseSlo.AvailabilityTarget, ReleaseSlo.LatencyTarget, ReleaseSlo.QueueTarget, ReleaseSlo.LlmTarget;
    hide ReleaseSlo.ToolTarget, ReleaseSlo.DenialTarget, ReleaseSlo.DurabilityTarget, ReleaseSlo.RecoveryTarget;
    hide ReleaseSlo.IsolationTarget;
    var ts := ReleaseSlo.Targets(s);
    assert forall i | 0 <= i < |ts| :: ts[i].passed;
    assert |ts| == 9;
    assert ts[0].passed && ts[1].passed && ts[2].passed && ts[3].passed && ts[4].passed;
    assert ts[5].passed && ts[6].passed && ts[7].passed && ts[8].passed;
    ReleaseSlo.RequestTargetsMean(s);
    ReleaseSlo.OtherTargetsMean(s);
  }

  lemma SloFacts(x: ReleaseSlo.Inputs, d: Dispatch)
    requires ReleaseSlo.ReportOf(x, d).eligible
    ensures Serves(x.observation.value.slis) && SoakedADay(x.soak.value) && DrillHeld(x.incident.value)
    ensures forall alert | alert in x.observation.value.alerts :: alert.resolvedAt.Some?
  {
    hide ReleaseSlo.ReportOf, ReleaseSlo.Targets, ReleaseSlo.SoakFailures, ReleaseSlo.IncidentFailures;
    hide ReleaseSlo.GameDayFailures, Serves;
    ReleaseSlo.EligibleMeans(x, d);
    SlisServe(x.observation.value.slis);
    ReleaseSlo.SoakClears(x.soak.value);
    DrillFacts(x.incident.value);
  }

  lemma DrillFacts(i: ReleaseSlo.Incident)
    requires ReleaseSlo.IncidentFailures(i) == []
    ensures DrillHeld(i)
  {
    hide ReleaseSlo.Failing, GameDay.SCENARIO_IDS;
    var checks := [(ReleaseSlo.AutomatedScope, i.automatedScope), (ReleaseSlo.DrillPassed, i.drillPassed),
                   (ReleaseSlo.IncidentPassed, i.passed), (ReleaseSlo.IncidentClaimFalse, !i.productionClaim),
                   (ReleaseSlo.ExactScenarios, ReleaseSlo.DrillIds(i.scenarios) == GameDay.SCENARIO_IDS),
                   (ReleaseSlo.EveryScenario, i.scenarios != [] && forall s | s in i.scenarios :: s.passed),
                   (ReleaseSlo.EveryCommand,
                    i.scenarios != [] && forall s | s in i.scenarios :: ReleaseSlo.DrillComplete(s))];
    assert checks[0].1 && checks[1].1 && checks[2].1 && checks[4].1 && checks[5].1 && checks[6].1;
  }

  lemma GameDayFacts(x: Sources, d: Dispatch)
    requires Evaluated(x, d) && Promotion.ValidateGameDay(x.slo.gameDay.value, d) == Accept([])
    ensures GameDayRecovers(x.gameDay.value) && x.gameDayReview.value.reviewer != x.gameDay.value.facilitator
    ensures forall p | p in x.gameDay.value.participants :: p.id != x.gameDayReview.value.reviewer
  {
    hide StorageProfile.Evaluate, ExternalDeletion.Accepted, ReleaseSlo.Accepted, GameDay.Summarize, GameDay.DispatchOk;
    hide GameDay.ObservationOk, GameDay.ReviewOk, Promotion.ValidateGameDay;
    var o, r, g := x.gameDay, x.gameDayReview, x.slo.gameDay.value;
    Verdicts.GameDayAtPromotion(o, r, d, g);
    GameDay.EligibleMeans(o, r, d, g);
    forall i | 0 <= i < |o.value.scenarios| ensures GameDay.Summarize(o.value.scenarios[i]).passed {
      GameDay.ScenarioPasses(o.value.scenarios[i]);
    }
    forall i | 0 <= i < |o.value.scenarios| { GameDay.ScenarioPasses(o.value.scenarios[i]); }
  }

  /** The soak and game-day files of the decision are those behind the service levels. */
  predicate SameFiles(inp: Promotion.Inputs, x: ReleaseSlo.Inputs) {
    var records := Records(inp.campaign.value.artifacts);
    && SOAK_ID in records && records[SOAK_ID].path in inp.evidence
    && inp.evidence[records[SOAK_ID].path].bytes == x.soak.bytes
    && GAME_DAY_ID in records && records[GAME_DAY_ID].path in inp.evidence
    && inp.evidence[records[GAME_DAY_ID].path].bytes == x.gameDay.bytes
  }

  lemma SloFilesRead(k: Contract, inp: Promotion.Inputs, d: Dispatch, now: Micros, x: Sources)
    requires StageIds(k) && Promotion.Ready(k, inp, d, now) && ReadsReports(inp, x, d)
    ensures SameFiles(inp, x.slo)
  {
    hide Promotion.Decidable, ExternalDeletion.Accepted, ExternalDeletion.ReportOf, ReleaseSlo.Accepted;
    hide ReleaseSlo.ReportOf, Verdicts.GameDayReported, Records, StorageProfile.Evaluate, Promotion.Verdict;
    hide Review.Clear;
    hide SLO_ID, SOAK_ID, GAME_DAY_ID;
    var slo := BaseVerdict(k, inp, d, now, SLO_ID);
    var soak := BaseVerdict(k, inp, d, now, SOAK_ID);
    var gameDay := BaseVerdict(k, inp, d, now, GAME_DAY_ID);
    SloEligible(k, inp, d, now, x);
    Verdicts.SloBindingCarriesOver(k, inp, d, now, x.slo, slo, soak, gameDay);
  }

  // ----- the whole run -------------------------------------------------------------------

  /** In every run, a ready decision on the evaluators' reports means: every storage fault was
      recovered within its targets, every configured system deleted its data in time, the service
      levels hold with their exact ratios and every alert is resolved, a release build soaked a day, the
      incident drill passed every command, every game-day scenario was recovered within its targets, and
      nobody reviewed their own exercise. The soak and game-day files the decision read are, byte for
      byte, those behind the service levels, and every other report vouches for itself. */
  lemma ReadyRunMeans(w: World, run: seq<State>, n: nat, i: nat, inp: Promotion.Inputs, d: Dispatch, x: Sources)
    requires StageIds(w.k) && IsRun(w, run) && n < |run| && i < |run[n].log|
    requires run[n].log[i].event == Decided(inp, d, true) && ReadsReports(inp, x, d)
    ensures StorageRecovers(x.storage.value) && DeletesInTime(x.deletion.value, x.setting.contract.maximum)
    ensures Serves(x.slo.observation.value.slis) && SoakedADay(x.slo.soak.value) && GameDayRecovers(x.gameDay.value)
    ensures forall alert | alert in x.slo.observation.value.alerts :: alert.resolvedAt.Some?
    ensures DrillHeld(x.slo.incident.value) && ReviewersIndependent(x)
    ensures SameFiles(inp, x.slo) && AllVouch(w.k, inp)
  {
    hide Enabled, Inv, Promotion.Ready, Promotion.Decidable, Evaluated, Reads, ReadsBytes, StageIds, StorageRecovers;
    hide SameFiles, DeletesInTime, Serves, SoakedADay, GameDayRecovers, ReleaseSlo.ReportOf, DrillHeld, AllVouch, Fold;
    RunKeepsInv(w, run, n);
    var s := run[n];
    var now := s.log[i].at;
    PT.DecidedFacts(w, s, i);
    StorageFacts(w.k, inp, d, now, x);
    DeletionFacts(w.k, inp, d, now, x);
    SloEligible(w.k, inp, d, now, x);
    SloFacts(x.slo, d);
    SloFilesRead(w.k, inp, d, now, x);
    GameDayClear(x, d);
    GameDayFacts(x, d);
    ReportsVouch(w.k, inp, d, now);
  }

  lemma GameDayClear(x: Sources, d: Dispatch)
    requires Evaluated(x, d) && ReleaseSlo.ReportOf(x.slo, d).eligible
    ensures Promotion.ValidateGameDay(x.slo.gameDay.value, d) == Accept([])
  {
    hide StorageProfile.Evaluate, ExternalDeletion.Accepted, ReleaseSlo.Accepted, ReleaseSlo.ReportOf;
    hide Verdicts.GameDayReported, Promotion.ValidateGameDay, Promotion.ValidateSoak;
    Verdicts.SloCoversPrerequisites(x.slo, d);
  }
}

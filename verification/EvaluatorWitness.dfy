/** Observations and reviews that every evaluator accepts and calls eligible. */
module EvaluatorWitness {
  import opened Primitives
  import opened Campaign
  import opened ReadyMeans
  import opened ReadyWitness
  import GameDay
  import ReleaseSlo
  import StorageProfile
  import ExternalDeletion
  import DC = DeletionContracts
  import Verdicts

  /** A dispatch no evaluator refuses. */
  predicate DispatchFits(d: Dispatch) {
    ExternalDeletion.DispatchBinds(d) && GameDay.DispatchOk(d) && ReleaseSlo.DispatchAccepted(d)
  }

  // ----- storage -------------------------------------------------------------------------

  function StorageScenario(id: StorageProfile.ScenarioId): StorageProfile.Scenario {
    var sha := Sha256([]);
    StorageProfile.Scenario(id, 0, 0, 0, 0, 0, 0, StorageProfile.RequiredMechanism(id), StorageProfile.RemoteBackup,
                            sha, Sha256([1]), true, true, true, true, true, 0, sha)
  }

  function StorageObservation(d: Dispatch): File<StorageProfile.Observation> {
    File([1], StorageProfile.Observation(
      d.releaseCandidate, Source(d.commit, false), d.environment, "single-node", "linux", "x86_64", 0, SECOND,
      DC.SYSTEM, DC.SYSTEM,
      [StorageScenario(StorageProfile.HostPowerLoss), StorageScenario(StorageProfile.TornWrite),
       StorageScenario(StorageProfile.DeviceLoss)]))
  }

  function StorageReview(d: Dispatch, checkIds: set<string>): File<StorageProfile.Review> {
    File([2], StorageProfile.Review(
      d.releaseCandidate, Source(d.commit, false), d.environment, StorageObservation(d).Sha(), DC.REVIEWER, SECOND,
      "approved", Sha256([]), StorageProfile.SCENARIO_IDS, AllTrueOf(checkIds), []))
  }

  lemma StorageSummaries()
    ensures var scenarios := [StorageScenario(StorageProfile.HostPowerLoss), StorageScenario(StorageProfile.TornWrite),
                              StorageScenario(StorageProfile.DeviceLoss)];
            var r := StorageProfile.Summaries(scenarios, 0, SECOND);
            r.Accept? && |r.value| == 3 && StorageProfile.Ids(r.value) == StorageProfile.SCENARIO_IDS
  {
    var a, b, c := StorageScenario(StorageProfile.HostPowerLoss), StorageScenario(StorageProfile.TornWrite),
                   StorageScenario(StorageProfile.DeviceLoss);
    var scenarios := [a, b, c];
    assert scenarios[1..] == [b, c] && [b, c][1..] == [c] && [c][1..] == [];
    assert StorageProfile.Summaries([], 0, SECOND) == Accept([]);
    assert StorageProfile.Summaries([c], 0, SECOND).Accept?;
    assert StorageProfile.Summaries([b, c], 0, SECOND).Accept?;
  }

  lemma StorageEligible(d: Dispatch, checkIds: set<string>)
    requires ExternalDeletion.DispatchBinds(d)
    ensures var r := StorageProfile.Evaluate(StorageObservation(d), StorageReview(d, checkIds), d, checkIds);
            r.Accept? && r.value.eligible
  {
    hide StorageProfile.Summaries, StorageProfile.Ids, StorageProfile.SCENARIO_IDS, IsReleaseTag, IsCommit, IsTargetId;
    hide IsStableId, DC.SYSTEM, DC.REVIEWER, Fold;
    StorageSummaries();
    DC.SystemNames();
    DC.ReviewerNames();
    TargetsAreStable();
    StorageScenarios();
    assert AllTrueOf(checkIds).Keys == checkIds;
    StorageProfile.EligibleMeans(StorageObservation(d), StorageReview(d, checkIds), d, checkIds);
  }

  lemma StorageScenarios()
    ensures |StorageProfile.SCENARIO_IDS| == 3
    ensures forall id :: StorageProfile.Recovered(StorageScenario(id))
  {
  }

  lemma TargetsAreStable()
    ensures IsStableId(DC.SYSTEM) && IsStableId(DC.REVIEWER)
  {
    hide IsTargetId, IsStableId, DC.SYSTEM, DC.REVIEWER;
    DC.SystemNames();
    DC.ReviewerNames();
    DC.TargetIsStable(DC.SYSTEM);
    DC.TargetIsStable(DC.REVIEWER);
  }

  // ----- the game day --------------------------------------------------------------------

  function GameDayScenario(id: string): GameDay.Scenario {
    GameDay.Scenario(id, 0, 0, 0, SECOND, 1.0, 0.0, 0.0, 1, 1, 0, 0, Sha256([]))
  }

  function GameDayScenarios(): (r: seq<GameDay.Scenario>)
    ensures |r| == |GameDay.SCENARIO_IDS|
    ensures forall i | 0 <= i < |r| :: r[i] == GameDayScenario(GameDay.SCENARIO_IDS[i])
  {
    var ids := GameDay.SCENARIO_IDS;
    seq(|ids|, i requires 0 <= i < |ids| => GameDayScenario(ids[i]))
  }

  const COMMANDER := "incident_commander"
  const OPERATOR := "operator"
  const OBSERVER := "observer"

  const PARTICIPANTS: seq<GameDay.Participant> :=
    [GameDay.Participant("a", COMMANDER), GameDay.Participant("b", OPERATOR), GameDay.Participant("c", OBSERVER)]

  function GameDayObservation(d: Dispatch): File<GameDay.Observation> {
    File([3], GameDay.Observation(
      d.releaseCandidate, Source(d.commit, false),
      GameDay.Environment(d.environment, "single-node", "linux", "x86_64", Sha256([])), "exercise", 0,
      GameDay.MIN_EXERCISE, "d", PARTICIPANTS, GameDayScenarios()))
  }

  function GameDayReview(d: Dispatch): File<GameDay.Review> {
    File([4], GameDay.Review(
      d.releaseCandidate, Source(d.commit, false), d.environment, GameDayObservation(d).Sha(), "e",
      GameDay.MIN_EXERCISE, "approved", Sha256([]), GameDay.SCENARIO_IDS, AllTrueOf(GameDay.REVIEW_CHECK_IDS), []))
  }

  function GameDaySummaries(): (r: seq<GameDay.Summary>)
    ensures |r| == |GameDayScenarios()| && forall i | 0 <= i < |r| :: r[i] == GameDay.Summarize(GameDayScenarios()[i])
  {
    var scenarios := GameDayScenarios();
    seq(|scenarios|, i requires 0 <= i < |scenarios| => GameDay.Summarize(scenarios[i]))
  }

  function GameDayReport(d: Dispatch): GameDay.Report {
    var o, r, summaries := GameDayObservation(d), GameDayReview(d), GameDaySummaries();
    var ids := set x | x in GameDay.ParticipantIds(PARTICIPANTS);
    var review, failed := GameDay.SummarizeReview(r.value, "d", ids), GameDay.FailedIds(summaries);
    var blockers := GameDay.ScenarioBlockers(failed) + GameDay.ReviewBlockers(review);
    var clear := blockers == [];
    GameDay.Report(1, d.releaseCandidate, Source(d.commit, false), o.value.environment,
                   GameDay.Seconds(GameDay.MIN_EXERCISE, 0), 3, GameDay.Roles(PARTICIPANTS), o.Sha(), r.Sha(),
                   Sha256([]), review, summaries, failed, blockers, clear, clear, clear, false)
  }

  lemma RoleTexts()
    ensures GameDay.IsExerciseId(COMMANDER) && GameDay.IsExerciseId(OPERATOR) && GameDay.IsExerciseId(OBSERVER)
    ensures GameDay.IsExerciseId("a") && GameDay.IsExerciseId("b") && GameDay.IsExerciseId("c")
    ensures GameDay.IsExerciseId("d")
  {
  }

  lemma RolesKnown()
    ensures GameDay.REQUIRED_ROLES == {COMMANDER, OPERATOR, OBSERVER} && GameDay.REQUIRED_ROLES <= GameDay.ALLOWED_ROLES
  {
  }

  lemma Roles()
    ensures GameDay.ParticipantsOk("d", PARTICIPANTS) && GameDay.ParticipantIds(PARTICIPANTS) == ["a", "b", "c"]
  {
    hide COMMANDER, OPERATOR, OBSERVER, GameDay.IsExerciseId, GameDay.REQUIRED_ROLES, GameDay.ALLOWED_ROLES;
    RoleTexts();
    RolesKnown();
    assert GameDay.ParticipantIds(PARTICIPANTS) == ["a", "b", "c"];
    assert "a"[0] == 'a' && "b"[0] == 'b' && "c"[0] == 'c';
    assert PARTICIPANTS[0] in PARTICIPANTS && PARTICIPANTS[1] in PARTICIPANTS && PARTICIPANTS[2] in PARTICIPANTS;
  }

  lemma ScenarioNames()
    ensures forall i | 0 <= i < |GameDay.SCENARIO_IDS| :: GameDay.IsExerciseId(GameDay.SCENARIO_IDS[i])
  {
  }

  lemma ScenariosFit()
    ensures GameDay.ScenariosOk(GameDayScenarios(), 0, GameDay.MIN_EXERCISE)
    ensures forall i | 0 <= i < |GameDayScenarios()| :: GameDay.Summarize(GameDayScenarios()[i]).passed
  {
    hide GameDay.SCENARIO_IDS, GameDay.IsExerciseId, GameDay.Summarize;
    ScenarioNames();
    forall i | 0 <= i < |GameDayScenarios()| ensures GameDay.Summarize(GameDayScenarios()[i]).passed {
      GameDay.ScenarioPasses(GameDayScenarios()[i]);
    }
  }

  lemma OtherNames()
    ensures GameDay.IsExerciseId("x86_64") && GameDay.IsExerciseId("exercise") && GameDay.IsExerciseId("e")
    ensures "e" !in ["a", "b", "c", "d"]
  {
    assert "e"[0] == 'e' && "a"[0] == 'a' && "b"[0] == 'b' && "c"[0] == 'c' && "d"[0] == 'd';
  }

  lemma GameDayIsReported(d: Dispatch)
    requires GameDay.DispatchOk(d)
    ensures Verdicts.GameDayReported(GameDayObservation(d), GameDayReview(d), d, GameDayReport(d))
  {
    hide GameDay.SCENARIO_IDS, GameDay.IsExerciseId, GameDay.ParticipantsOk, GameDay.ScenariosOk, GameDay.Summarize;
    hide PARTICIPANTS, IsReleaseTag, IsCommit, GameDay.REVIEW_CHECK_IDS, GameDay.Roles, GameDay.SummarizeReview;
    Roles();
    ScenariosFit();
    OtherNames();
    assert AllTrueOf(GameDay.REVIEW_CHECK_IDS).Keys == GameDay.REVIEW_CHECK_IDS;
    ParticipantCount();
  }

  lemma ParticipantCount()
    ensures |PARTICIPANTS| == 3
  {
  }

  lemma GameDayEligible(d: Dispatch)
    requires GameDay.DispatchOk(d)
    ensures GameDayReport(d).eligible
  {
    hide GameDay.SCENARIO_IDS, GameDay.Summarize, GameDay.DispatchOk, GameDay.ObservationOk, GameDay.ReviewOk;
    hide GameDay.IsReport, GameDayReport, GameDay.REVIEW_CHECK_IDS, PARTICIPANTS;
    GameDayIsReported(d);
    ScenariosFit();
    OtherNames();
    Roles();
    GameDay.EligibleMeans(GameDayObservation(d), GameDayReview(d), d, GameDayReport(d));
    forall p | p in PARTICIPANTS ensures p.id in ["a", "b", "c"] {
      var i :| 0 <= i < |PARTICIPANTS| && PARTICIPANTS[i] == p;
      assert GameDay.ParticipantIds(PARTICIPANTS)[i] == p.id;
    }
  }

  // ----- the service levels --------------------------------------------------------------

  function SampleRequests(window: int, n: nat): ReleaseSlo.Requests { ReleaseSlo.Requests(window, n, 0, 0, 0) }

  function SampleSlis(gameDay: Bytes): ReleaseSlo.Slis {
    ReleaseSlo.Slis(SampleRequests(ReleaseSlo.MONTH, 100_000), ReleaseSlo.DAY, 0.0, 10_000, 0.0, 1_000, ReleaseSlo.DAY,
                    0.0, 10_000, 0, SampleRequests(ReleaseSlo.DAY, 1_000), 0, true, Sha256([]),
                    SampleRequests(ReleaseSlo.DAY, 1_000), 0, 100, 0, ReleaseSlo.MONTH, 0, 0.0, true, 100, 100, 0, 0,
                    100, 0, true, Some(Sha256(gameDay)))
  }

  function SampleSoak(d: Dispatch): ReleaseSlo.Soak {
    ReleaseSlo.Soak(1, Source(d.commit, false), d.environment, "release", false, true, false, ReleaseSlo.DAY, true,
                    ReleaseSlo.DAY as real, 1_000, map["ok" := true])
  }

  function SampleDrill(id: string): ReleaseSlo.DrillScenario {
    ReleaseSlo.DrillScenario(id, true, [ReleaseSlo.Command(true, true)])
  }

  function SampleIncident(d: Dispatch): ReleaseSlo.Incident {
    var ids := GameDay.SCENARIO_IDS;
    ReleaseSlo.Incident(1, Source(d.commit, false), true, true, true, false,
                        seq(|ids|, i requires 0 <= i < |ids| => SampleDrill(ids[i])))
  }

  function SloInputs(d: Dispatch, soak: Bytes, gameDay: Bytes): ReleaseSlo.Inputs {
    var sha := Sha256([]);
    ReleaseSlo.Inputs(
      File([5], ReleaseSlo.Observation(d.releaseCandidate, Source(d.commit, false), d.environment, "linux", sha, sha,
                                       0, ReleaseSlo.MONTH * SECOND, [], SampleSlis(gameDay))),
      File(soak, SampleSoak(d)), File([6], SampleIncident(d)), File(gameDay, GameDayReport(d)))
  }

  lemma SlisPass(gameDay: Bytes)
    ensures forall t | t in ReleaseSlo.Targets(SampleSlis(gameDay)) :: t.passed
  {
    hide ReleaseSlo.AvailabilityTarget, ReleaseSlo.LatencyTarget, ReleaseSlo.QueueTarget, ReleaseSlo.LlmTarget;
    hide ReleaseSlo.ToolTarget, ReleaseSlo.DenialTarget, ReleaseSlo.DurabilityTarget, ReleaseSlo.RecoveryTarget;
    hide ReleaseSlo.IsolationTarget;
    var s := SampleSlis(gameDay);
    ReleaseSlo.RequestTargetsMean(s);
    ReleaseSlo.OtherTargetsMean(s);
  }

  lemma SlisFit(gameDay: Bytes)
    ensures ReleaseSlo.SlisOk(SampleSlis(gameDay))
    ensures forall t | t in ReleaseSlo.Targets(SampleSlis(gameDay)) :: ReleaseSlo.WindowFits(t, ReleaseSlo.MONTH)
  {
    hide ReleaseSlo.Failing, ReleaseSlo.RatioAtLeast;
    var s := SampleSlis(gameDay);
    var ts := ReleaseSlo.Targets(s);
    assert ts[0].window == Some(ReleaseSlo.MONTH);
    assert ts[1].window == ts[2].window == ts[3].window == ts[4].window == Some(ReleaseSlo.DAY);
    assert ts[5].window == ts[6].window == ts[7].window == ts[8].window == None;
  }

  lemma DrillPasses(d: Dispatch)
    ensures ReleaseSlo.IncidentFailures(SampleIncident(d)) == []
  {
    hide GameDay.SCENARIO_IDS;
    ScenarioCount();
    var i := SampleIncident(d);
    assert ReleaseSlo.DrillIds(i.scenarios) == GameDay.SCENARIO_IDS;
    forall x | x in i.scenarios ensures x.passed && ReleaseSlo.DrillComplete(x) { }
  }

  lemma ScenarioCount()
    ensures |GameDay.SCENARIO_IDS| == 6
  {
  }

  lemma SloAccepts(d: Dispatch, soak: Bytes, gameDay: Bytes)
    requires DispatchFits(d)
    ensures ReleaseSlo.Accepted(SloInputs(d, soak, gameDay), d)
  {
    hide ReleaseSlo.Targets, ReleaseSlo.SlisOk, SampleSlis, GameDayReport, ReleaseSlo.DispatchAccepted, SampleIncident;
    hide GameDay.DispatchOk, ExternalDeletion.DispatchBinds;
    SlisFit(gameDay);
    SampleWindow(gameDay);
    assert "ok" in SampleSoak(d).checks;
    GameDayIsReported(d);
    GameDayEligible(d);
    Verdicts.GameDayClearsSlo(GameDayObservation(d), GameDayReview(d), d, File(gameDay, GameDayReport(d)),
                              Some(Sha256(gameDay)));
    IncidentIsAccepted(d);
  }

  lemma SampleWindow(gameDay: Bytes)
    ensures SampleSlis(gameDay).healthySeconds == ReleaseSlo.MONTH
    ensures SampleSlis(gameDay).gameDaySha == Some(Sha256(gameDay))
  {
  }

  lemma IncidentIsAccepted(d: Dispatch)
    ensures ReleaseSlo.IncidentAccepted(SampleIncident(d), d)
  {
    hide GameDay.SCENARIO_IDS;
  }

  lemma SloEligible(d: Dispatch, soak: Bytes, gameDay: Bytes)
    requires DispatchFits(d)
    ensures ReleaseSlo.ReportOf(SloInputs(d, soak, gameDay), d).eligible
  {
    hide ReleaseSlo.Targets, ReleaseSlo.ReportOf, SampleSlis, GameDayReport, SampleIncident, ReleaseSlo.SoakFailures;
    hide ReleaseSlo.IncidentFailures, ReleaseSlo.GameDayFailures, ReleaseSlo.DispatchAccepted;
    hide GameDay.DispatchOk, ExternalDeletion.DispatchBinds;
    SlisPass(gameDay);
    SampleWindow(gameDay);
    DrillPasses(d);
    ReleaseSlo.SoakClears(SampleSoak(d));
    GameDayIsReported(d);
    GameDayEligible(d);
    Verdicts.GameDayClearsSlo(GameDayObservation(d), GameDayReview(d), d, File(gameDay, GameDayReport(d)),
                              Some(Sha256(gameDay)));
    ReleaseSlo.EligibleMeans(SloInputs(d, soak, gameDay), d);
  }

  // ----- all of them ---------------------------------------------------------------------

  /** Evaluations for a dispatch, with the given soak and game-day files. */
  ghost function SourcesFor(d: Dispatch, soak: Bytes, gameDay: Bytes, storageChecks: set<string>,
                            deletionChecks: set<string>): Sources
  {
    var x := ExternalDeletion.Setting(ExternalDeletion.LoadedFrom(DC.SixBoundaries(ExternalDeletion.DeleteApi, "e")),
                                      Sha256([]), d, deletionChecks);
    Sources(StorageObservation(d), StorageReview(d, storageChecks), storageChecks, DC.ObservationFor(x, 0, [7]),
            DC.ReviewFor(x, 0, [7], [8]), x, SloInputs(d, soak, gameDay), GameDayObservation(d), GameDayReview(d))
  }

  lemma DeletionEligible(d: Dispatch, deletionChecks: set<string>)
    requires ExternalDeletion.DispatchBinds(d) && |deletionChecks| == 8
    ensures var x := ExternalDeletion.Setting(
              ExternalDeletion.LoadedFrom(DC.SixBoundaries(ExternalDeletion.DeleteApi, "e")), Sha256([]), d,
              deletionChecks);
            && ExternalDeletion.Accepted(DC.ObservationFor(x, 0, [7]), DC.ReviewFor(x, 0, [7], [8]), x)
            && ExternalDeletion.ReportOf(DC.ObservationFor(x, 0, [7]), DC.ReviewFor(x, 0, [7], [8]), x).eligible
  {
    hide ExternalDeletion.Accepted, ExternalDeletion.ReportOf, DC.Admits, ExternalDeletion.ContractOk, DC.SixBoundaries;
    hide ExternalDeletion.DispatchBinds, DC.ObservationFor, DC.ReviewFor, ExternalDeletion.Loads;
    var x := ExternalDeletion.Setting(
      ExternalDeletion.LoadedFrom(DC.SixBoundaries(ExternalDeletion.DeleteApi, "e")), Sha256([]), d, deletionChecks);
    DC.SixAdmit(ExternalDeletion.DeleteApi, "e", d, Sha256([]), deletionChecks);
    DC.AdmittedIsAccepted(x, 0, [7], [8]);
  }

  /** Every dispatch that no evaluator refuses has eligible evaluations. */
  lemma SourcesAreEligible(d: Dispatch, soak: Bytes, gameDay: Bytes, storageChecks: set<string>,
                           deletionChecks: set<string>)
    requires DispatchFits(d) && |deletionChecks| == 8
    ensures Eligible(SourcesFor(d, soak, gameDay, storageChecks, deletionChecks), d)
  {
    hide ExternalDeletion.Accepted, ExternalDeletion.ReportOf, StorageProfile.Evaluate, ReleaseSlo.Accepted;
    hide ReleaseSlo.ReportOf, Verdicts.GameDayReported, DC.ObservationFor, DC.ReviewFor, DC.SixBoundaries;
    hide StorageObservation, StorageReview, GameDayObservation, GameDayReview, ExternalDeletion.DispatchBinds;
    hide ReleaseSlo.DispatchAccepted, GameDay.DispatchOk, GameDayReport, SampleSlis, SampleIncident, SampleSoak;
    hide ExternalDeletion.LoadedFrom;
    StorageEligible(d, storageChecks);
    DeletionEligible(d, deletionChecks);
    SloAccepts(d, soak, gameDay);
    SloEligible(d, soak, gameDay);
    GameDayIsReported(d);
  }
}

/** Verdicts across stages: what an evaluator calls eligible, later stages accept without a blocker. */
module Verdicts {
  import opened Primitives
  import opened Campaign
  import GameDay
  import ReleaseSlo
  import StorageProfile
  import ExternalDeletion
  import Promotion
  import Review
  import CP = CampaignProvenance
  import WA = WorkflowAgreement
  import RP = ReviewProvenance

  /** Observation, review and dispatch that the game-day evaluator accepts, with its report. */
  ghost predicate GameDayReported(o: File<GameDay.Observation>, r: File<GameDay.Review>, d: Dispatch,
                                  g: GameDay.Report) {
    && GameDay.DispatchOk(d) && GameDay.ObservationOk(o.value, d)
    && GameDay.ReviewOk(r.value, o.Sha(), o.value.endedAt, d)
    && GameDay.IsReport(o, r, d, g)
  }

  lemma PassedSummary(s: GameDay.Scenario, start: Micros, end: Micros)
    requires GameDay.ScenarioFieldsOk(s, start, end) && GameDay.Summarize(s).passed
    ensures ReleaseSlo.SummaryPasses(GameDay.Summarize(s))
  {
    hide GameDay.Failed, GameDay.IsExerciseId;
    GameDay.NoneFailed(GameDay.CheckResults(s));
    assert GameDay.SCENARIO_CHECKS[0] == GameDay.PositiveRecovery && GameDay.SCENARIO_CHECKS[1] == GameDay.RtoMet;
    assert GameDay.SCENARIO_CHECKS[2] == GameDay.RpoMet && GameDay.SCENARIO_CHECKS[3] == GameDay.StepsCompleted;
    assert GameDay.SCENARIO_CHECKS[4] == GameDay.NoTenantAccess && GameDay.SCENARIO_CHECKS[5] == GameDay.NoFindings;
  }

  lemma ScenariosClear(o: File<GameDay.Observation>, r: File<GameDay.Review>, d: Dispatch, g: GameDay.Report)
    requires GameDayReported(o, r, d, g) && g.eligible
    ensures ReleaseSlo.SummaryIds(g.scenarios) == GameDay.SCENARIO_IDS && g.scenarios != []
    ensures forall s | s in g.scenarios :: ReleaseSlo.SummaryPasses(s)
  {
    hide GameDay.Summarize, GameDay.ReviewOk, GameDay.DispatchOk, GameDay.EnvironmentOk, GameDay.ParticipantsOk;
    hide GameDay.ScenarioFieldsOk, ReleaseSlo.SummaryPasses;
    GameDay.EligibleMeans(o, r, d, g);
    forall s | s in g.scenarios ensures ReleaseSlo.SummaryPasses(s) {
      var i :| 0 <= i < |g.scenarios| && g.scenarios[i] == s;
      PassedSummary(o.value.scenarios[i], o.value.startedAt, o.value.endedAt);
    }
    forall i | 0 <= i < |g.scenarios| ensures g.scenarios[i].id == GameDay.SCENARIO_IDS[i] {
      SummaryKeepsId(o.value.scenarios[i]);
    }
  }

  lemma SummaryKeepsId(s: GameDay.Scenario)
    ensures GameDay.Summarize(s).id == s.id
  {
  }

  /** An eligible game-day report passes the service-level stage: it is accepted exactly on the two
      supported architectures, and then fails nothing exactly when the observation cites its bytes. */
  lemma GameDayClearsSlo(o: File<GameDay.Observation>, r: File<GameDay.Review>, d: Dispatch, g: File<GameDay.Report>,
                         cited: Option<Digest>)
    requires GameDayReported(o, r, d, g.value) && g.value.eligible
    ensures ReleaseSlo.GameDayAccepted(g.value, d) <==> o.value.environment.arch in ["x86_64", "aarch64"]
    ensures ReleaseSlo.GameDayFailures(g.value, g.Sha(), cited) == [] <==> cited == Some(g.Sha())
  {
    hide GameDay.Summarize, GameDay.IsExerciseId, GameDay.ScenariosOk, ReleaseSlo.SummaryPasses, IsCommit;
    hide GameDay.FailedIds;
    hide ReleaseSlo.Failing;
    ScenariosClear(o, r, d, g.value);
    GameDay.EligibleMeans(o, r, d, g.value);
    assert g.value.duration >= 3_600.0;
    assert ReleaseSlo.ReviewClears(g.value.review);
    assert |g.value.blockers| == 0;
    var checks := ReleaseSlo.GameDayChecks(g.value, g.Sha(), cited, true, true);
    assert checks[0] == (ReleaseSlo.ExactBinding, cited == Some(g.Sha()));
  }

  // ----- at the promotion stage ----------------------------------------------------------

  /** A game-day report blocks promotion exactly when it is not eligible. */
  lemma GameDayAtPromotion(o: File<GameDay.Observation>, r: File<GameDay.Review>, d: Dispatch, g: GameDay.Report)
    requires GameDayReported(o, r, d, g)
    ensures Promotion.ValidateGameDay(g, d).Accept?
    ensures Promotion.ValidateGameDay(g, d) == Accept([]) <==> g.eligible
  {
    hide GameDay.Summarize, GameDay.IsExerciseId, GameDay.ScenariosOk, IsCommit, GameDay.FailedIds;
    hide GameDay.ParticipantsOk;
    GameDay.EligibleMeans(o, r, d, g);
    if g.eligible { assert |g.blockers| == 0; }
  }

  /** A service-level report blocks promotion exactly when it is not eligible. */
  lemma SloAtPromotion(inp: ReleaseSlo.Inputs, d: Dispatch)
    ensures Promotion.ValidateSlo(ReleaseSlo.ReportOf(inp, d), d).Accept?
    ensures Promotion.ValidateSlo(ReleaseSlo.ReportOf(inp, d), d) == Accept([])
            <==> ReleaseSlo.ReportOf(inp, d).eligible
  {
    hide ReleaseSlo.Targets, ReleaseSlo.AllBlockers, ReleaseSlo.Failing, ReleaseSlo.FailedTargets;
    hide ReleaseSlo.SoakFailures;
    hide ReleaseSlo.IncidentFailures, ReleaseSlo.GameDayFailures, ReleaseSlo.Unresolved;
    var report := ReleaseSlo.ReportOf(inp, d);
    NineTargets(inp.observation.value.slis);
    if report.eligible { NoFailedTargets(inp); }
    var checks := Promotion.SloChecks(report);
    assert checks[1] == (Promotion.Eligible, report.eligible);
    assert report.eligible ==> forall i | 0 <= i < |checks| :: checks[i].1;
  }

  lemma NineTargets(s: ReleaseSlo.Slis)
    ensures |ReleaseSlo.Targets(s)| == 9
  {
    hide ReleaseSlo.MakeTarget, ReleaseSlo.RequestTarget;
  }

  lemma NoFailedTargets(inp: ReleaseSlo.Inputs)
    requires ReleaseSlo.BlockersOf(inp) == []
    ensures ReleaseSlo.FailedTargets(ReleaseSlo.Targets(inp.observation.value.slis)) == []
  {
    hide ReleaseSlo.Targets, ReleaseSlo.FailedTargets, ReleaseSlo.SoakFailures, ReleaseSlo.IncidentFailures;
    hide ReleaseSlo.GameDayFailures, ReleaseSlo.Unresolved;
    assert |ReleaseSlo.BlockersOf(inp)| == 0;
  }

  /** A storage report blocks promotion exactly when it is not eligible. */
  lemma StorageAtPromotion(o: File<StorageProfile.Observation>, r: File<StorageProfile.Review>, d: Dispatch,
                           checkIds: set<string>)
    requires StorageProfile.Evaluate(o, r, d, checkIds).Accept?
    ensures var report := StorageProfile.Evaluate(o, r, d, checkIds).value;
            && Promotion.ValidateStorage(report, d).Accept?
            && (Promotion.ValidateStorage(report, d) == Accept([]) <==> report.eligible)
  {
    hide StorageProfile.Summaries, StorageProfile.Seconds, IsCommit;
  }

  /** An external-deletion report blocks promotion exactly when it is not eligible. */
  lemma DeletionAtPromotion(o: File<ExternalDeletion.Observation>, r: File<ExternalDeletion.Review>,
                            x: ExternalDeletion.Setting)
    requires ExternalDeletion.ObservationBinds(o.value, x)
    ensures var report := ExternalDeletion.ReportOf(o, r, x);
            && Promotion.ValidateDeletion(report, x.dispatch).Accept?
            && (Promotion.ValidateDeletion(report, x.dispatch) == Accept([]) <==> report.eligible)
  {
    hide ExternalDeletion.FailedSystems, StorageProfile.Seconds, IsCommit;
  }

  /** An eligible service-level report answers for its prerequisites: the soak and the game-day
      report it hashed clear promotion as well. */
  lemma SloCoversPrerequisites(inp: ReleaseSlo.Inputs, d: Dispatch)
    requires ReleaseSlo.Accepted(inp, d) && ReleaseSlo.ReportOf(inp, d).eligible
    ensures Promotion.ValidateSoak(inp.soak.value, d) == Accept([])
    ensures Promotion.ValidateGameDay(inp.gameDay.value, d) == Accept([])
  {
    hide ReleaseSlo.Targets, ReleaseSlo.FailedTargets, ReleaseSlo.IncidentFailures, ReleaseSlo.Unresolved;
    hide ReleaseSlo.ObservationAccepted, ReleaseSlo.DispatchAccepted;
    var soak, gameDay := ReleaseSlo.SoakFailures(inp.soak.value),
        ReleaseSlo.GameDayFailures(inp.gameDay.value, inp.gameDay.Sha(), inp.observation.value.slis.gameDaySha);
    assert |ReleaseSlo.BlockersOf(inp)| == 0;
    assert |soak| == 0 && |gameDay| == 0;
    SoakClears(inp.soak.value, d);
    GameDayFailuresClear(inp.gameDay.value, inp.gameDay.Sha(), inp.observation.value.slis.gameDaySha, d);
  }

  lemma SoakClears(s: ReleaseSlo.Soak, d: Dispatch)
    requires ReleaseSlo.SoakAccepted(s, d) && ReleaseSlo.SoakFailures(s) == []
    ensures Promotion.ValidateSoak(s, d) == Accept([])
  {
    hide ReleaseSlo.Failing;
    var checks := ReleaseSlo.SoakChecksOf(s);
    assert checks[0].1 && checks[1].1 && checks[2].1 && checks[3].1 && checks[4].1 && checks[6].1 && checks[7].1;
  }

  lemma GameDayFailuresClear(g: GameDay.Report, sha: Digest, cited: Option<Digest>, d: Dispatch)
    requires ReleaseSlo.GameDayAccepted(g, d) && ReleaseSlo.GameDayFailures(g, sha, cited) == []
    ensures Promotion.ValidateGameDay(g, d) == Accept([])
  {
    hide ReleaseSlo.Failing, ReleaseSlo.ExerciseValid, ReleaseSlo.SummaryPasses;
    var checks := ReleaseSlo.GameDayChecks(g, sha, cited, ReleaseSlo.SummaryIds(g.scenarios) == GameDay.SCENARIO_IDS,
                                           forall s | s in g.scenarios :: ReleaseSlo.SummaryPasses(s));
    assert checks[1].1 && checks[2].1 && checks[3].1 && checks[4].1 && checks[8].1 && checks[10].1;
  }

  /** Bytes that are `f`'s decode to `f`'s value. */
  predicate DecodesAs(e: File<Promotion.Evidence>, bytes: Bytes, value: Promotion.Evidence) {
    e.bytes == bytes ==> e.value == value
  }

  /** When a decision reads an eligible service-level report, the soak and game-day files it reads are
      byte for byte the ones that report was computed from, and all three clear promotion. */
  lemma SloBindingCarriesOver(k: Contract, inp: Promotion.Inputs, d: Dispatch, now: Micros, x: ReleaseSlo.Inputs,
                              slo: Artifact, soak: Artifact, gameDay: Artifact)
    requires StageIds(k) && Promotion.Decidable(k, inp, d, now)
    requires var records := Records(inp.campaign.value.artifacts);
             && SLO_ID in records && SOAK_ID in records && GAME_DAY_ID in records
             && records[SLO_ID] == slo && records[SOAK_ID] == soak && records[GAME_DAY_ID] == gameDay
    requires slo.path in inp.evidence && soak.path in inp.evidence && gameDay.path in inp.evidence
    requires ReleaseSlo.Accepted(x, d) && ReleaseSlo.ReportOf(x, d).eligible
    requires inp.evidence[slo.path].value == Promotion.SloEvidence(ReleaseSlo.ReportOf(x, d))
    requires DecodesAs(inp.evidence[soak.path], x.soak.bytes, Promotion.SoakEvidence(x.soak.value))
    requires DecodesAs(inp.evidence[gameDay.path], x.gameDay.bytes, Promotion.GameDayEvidence(x.gameDay.value))
    ensures inp.evidence[soak.path].bytes == x.soak.bytes && inp.evidence[gameDay.path].bytes == x.gameDay.bytes
    ensures forall a | a in {slo, soak, gameDay} :: Promotion.Verdict(k, inp, d, a) == Accept([])
  {
    hide ReleaseSlo.Accepted, ReleaseSlo.BlockersOf, ReleaseSlo.Targets, ReleaseSlo.FailedTargets, CampaignOk, Records;
    hide WA.ProvenanceOk;
    hide Promotion.ValidateSoak, Promotion.ValidateSlo, Promotion.ValidateGameDay, Review.ReviewAccepted;
    hide CP.ProvenanceOk;
    hide RP.ProvenanceAccepted;
    assert Promotion.Verdict(k, inp, d, slo).Accept? && Promotion.Verdict(k, inp, d, soak).Accept?;
    assert Promotion.Verdict(k, inp, d, gameDay).Accept?;
    SloAtPromotion(x, d);
    SloCoversPrerequisites(x, d);
  }
}

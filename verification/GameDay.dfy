/** scripts/game_day_qualification.py: the human incident exercise, recomputed from its timelines. */
module GameDay {
  import opened Primitives
  import opened Campaign

  const MIN_EXERCISE: Micros := 3_600 * SECOND
  const SCENARIO_IDS: seq<string> :=
    ["credential-compromise", "tenant-leak", "malicious-package", "node-loss", "corrupt-database", "provider-outage"]
  const REQUIRED_ROLES: set<string> := {"incident_commander", "operator", "observer"}
  const ALLOWED_ROLES: set<string> := REQUIRED_ROLES + {"facilitator", "security", "database", "provider"}
  const REVIEW_CHECK_IDS: set<string> :=
    {"exact_release_candidate_exercised", "timeline_and_measurements_reviewed", "runbook_steps_reviewed",
     "rpo_rto_results_reviewed", "tenant_boundaries_preserved", "raw_evidence_retained"}
  const NON_TARGETS: set<string> := {"local", "smoke", "fixture", "test", "development", "dev"}

  predicate IsExerciseId(s: string) {
    0 < |s| <= 100 && IsAlnum(s[0]) && forall i | 0 <= i < |s| :: IsAlnum(s[i]) || s[i] in "._:@/-"
  }

  function Seconds(later: Micros, earlier: Micros): real { (later - earlier) as real / 1_000_000.0 }

  // ----- records -------------------------------------------------------------------------

  datatype Environment = Environment(environmentId: string, deploymentMode: string, os: string, arch: string,
                                     configurationSha: Digest)

  datatype Participant = Participant(id: string, role: string)

  datatype Scenario = Scenario(
    id: string, startedAt: Micros, detectedAt: Micros, mitigatedAt: Micros, recoveredAt: Micros, targetRto: real,
    targetRpo: real, dataLoss: real, stepsTotal: int, stepsCompleted: int, tenantAccesses: int,
    unresolvedFindings: int, evidenceSha: Digest)

  datatype Observation = Observation(
    releaseCandidate: string, source: Source, environment: Environment, exerciseId: string, startedAt: Micros,
    endedAt: Micros, facilitator: string, participants: seq<Participant>, scenarios: seq<Scenario>)

  datatype Review = Review(
    releaseCandidate: string, source: Source, environmentId: string, observationSha: Digest, reviewer: string,
    reviewedAt: Micros, decision: string, attestationSha: Digest, scenarioIds: seq<string>, checks: map<string, bool>,
    findings: seq<string>)

  datatype ScenarioCheck = PositiveRecovery | RtoMet | RpoMet | StepsCompleted | NoTenantAccess | NoFindings

  const SCENARIO_CHECKS: seq<ScenarioCheck> := [PositiveRecovery, RtoMet, RpoMet, StepsCompleted, NoTenantAccess,
                                                NoFindings]

  datatype Summary = Summary(
    id: string, elapsed: real, rto: real, targetRto: real, dataLoss: real, targetRpo: real, stepsTotal: int,
    stepsCompleted: int, tenantAccesses: int, unresolvedFindings: int, evidenceSha: Digest,
    checks: map<ScenarioCheck, bool>, failedChecks: seq<ScenarioCheck>, passed: bool)

  datatype ReviewSummary = ReviewSummary(
    independent: bool, decision: string, reviewedChecks: map<string, bool>, openFindings: nat, approved: bool,
    everyCheckPassed: bool, noOpenFindings: bool, passed: bool)

  datatype Blocker = FailedScenario(id: string) | NotIndependent | NotApproved | ReviewCheckFailed | OpenFindings

  datatype Report = Report(
    schemaVersion: int, releaseCandidate: string, source: Source, environment: Environment, duration: real,
    participantCount: nat, roles: set<string>, observationSha: Digest, reviewSha: Digest, attestationSha: Digest,
    review: ReviewSummary, scenarios: seq<Summary>, failedScenarios: seq<string>, blockers: seq<Blocker>,
    passed: bool, completed: bool, eligible: bool, productionClaim: bool)

  // ----- participants --------------------------------------------------------------------

  function ParticipantIds(ps: seq<Participant>): (ids: seq<string>)
    ensures |ids| == |ps| && forall i | 0 <= i < |ids| :: ids[i] == ps[i].id
  {
    seq(|ps|, i requires 0 <= i < |ps| => ps[i].id)
  }

  predicate RoleAllowed(role: string) { role in ALLOWED_ROLES }

  predicate RolesCovered(roles: set<string>) { REQUIRED_ROLES <= roles }

  function Roles(ps: seq<Participant>): set<string> { set p | p in ps :: p.role }

  ghost predicate ParticipantsOk(facilitator: string, ps: seq<Participant>) {
    && IsExerciseId(facilitator) && 3 <= |ps| <= 20
    && NoDuplicates(ParticipantIds(ps))
    && (forall p | p in ps :: IsExerciseId(p.id) && IsExerciseId(p.role) && RoleAllowed(p.role))
    && RolesCovered(Roles(ps))
  }

  method ValidateParticipants(facilitator: string, ps: seq<Participant>)
    returns (ok: bool, ids: set<string>, roles: set<string>)
    ensures ok <==> ParticipantsOk(facilitator, ps)
    ensures ok ==> ids == (set x | x in ParticipantIds(ps)) && roles == Roles(ps) && |ids| == |ps|
  {
    hide IsExerciseId, RoleAllowed, RolesCovered;
    ok, ids, roles := false, {}, {};
    if !IsExerciseId(facilitator) || !(3 <= |ps| <= 20) { return; }
    ghost var all := ParticipantIds(ps);
    for i := 0 to |ps|
      invariant ids == (set x | x in all[..i]) && NoDuplicates(all[..i])
      invariant roles == Roles(ps[..i])
      invariant forall p | p in ps[..i] :: IsExerciseId(p.id) && IsExerciseId(p.role) && RoleAllowed(p.role)
    {
      var p := ps[i];
      assert all[..i + 1] == all[..i] + [p.id];
      assert ps[..i + 1] == ps[..i] + [p];
      if !IsExerciseId(p.id) || !IsExerciseId(p.role) || !RoleAllowed(p.role) { return; }
      if p.id in ids {
        assert all[i] in all[..i];
        return;
      }
      forall j | 0 <= j < i ensures all[j] != p.id { assert all[..i][j] in all[..i]; }
      ids := ids + {p.id};
      roles := roles + {p.role};
    }
    assert all[..|ps|] == all && ps[..|ps|] == ps;
    DistinctCardinality(all);
    ok := RolesCovered(roles);
  }

  // ----- scenarios -----------------------------------------------------------------------

  predicate ScenarioFieldsOk(s: Scenario, start: Micros, end: Micros) {
    && IsExerciseId(s.id)
    && start <= s.startedAt <= s.detectedAt <= s.mitigatedAt <= s.recoveredAt <= end
    && s.targetRto >= 1.0 && s.targetRpo >= 0.0 && s.dataLoss >= 0.0
    && s.stepsTotal >= 1 && 0 <= s.stepsCompleted <= s.stepsTotal
    && s.tenantAccesses >= 0 && s.unresolvedFindings >= 0 && s.evidenceSha.Sha256?
  }

  function CheckResults(s: Scenario): map<ScenarioCheck, bool> {
    var rto := Seconds(s.recoveredAt, s.detectedAt);
    map[PositiveRecovery := rto > 0.0, RtoMet := rto <= s.targetRto, RpoMet := s.dataLoss <= s.targetRpo,
        StepsCompleted := s.stepsCompleted == s.stepsTotal, NoTenantAccess := s.tenantAccesses == 0,
        NoFindings := s.unresolvedFindings == 0]
  }

  function Failed(checks: map<ScenarioCheck, bool>, order: seq<ScenarioCheck>): (r: seq<ScenarioCheck>)
    ensures r == [] <==> forall c | c in order :: c in checks && checks[c]
  {
    if order == [] then []
    else
      var rest := Failed(checks, order[1..]);
      if order[0] in checks && checks[order[0]] then rest else [order[0]] + rest
  }

  function Summarize(s: Scenario): Summary {
    var checks := CheckResults(s);
    var failed := Failed(checks, SCENARIO_CHECKS);
    Summary(s.id, Seconds(s.recoveredAt, s.startedAt), Seconds(s.recoveredAt, s.detectedAt), s.targetRto, s.dataLoss,
            s.targetRpo, s.stepsTotal, s.stepsCompleted, s.tenantAccesses, s.unresolvedFindings, s.evidenceSha,
            checks, failed, failed == [])
  }

  ghost predicate ScenariosOk(scenarios: seq<Scenario>, start: Micros, end: Micros) {
    && |scenarios| == |SCENARIO_IDS|
    && (forall i | 0 <= i < |scenarios| :: ScenarioFieldsOk(scenarios[i], start, end))
    && (forall i | 0 <= i < |scenarios| :: scenarios[i].id == SCENARIO_IDS[i])
  }

  method ValidateScenarios(scenarios: seq<Scenario>, start: Micros, end: Micros)
    returns (ok: bool, summaries: seq<Summary>)
    ensures ok <==> ScenariosOk(scenarios, start, end)
    ensures ok ==> |summaries| == |scenarios| && forall i | 0 <= i < |scenarios| ::
            summaries[i] == Summarize(scenarios[i])
  {
    hide ScenarioFieldsOk, Summarize;
    ok, summaries := false, [];
    var ids: seq<string> := [];
    if |scenarios| != |SCENARIO_IDS| { return; }
    for i := 0 to |scenarios|
      invariant |ids| == |summaries| == i
      invariant forall j | 0 <= j < i :: ids[j] == scenarios[j].id && summaries[j] == Summarize(scenarios[j])
      invariant forall j | 0 <= j < i :: ScenarioFieldsOk(scenarios[j], start, end)
    {
      if !ScenarioFieldsOk(scenarios[i], start, end) { return; }
      ids := ids + [scenarios[i].id];
      summaries := summaries + [Summarize(scenarios[i])];
    }
    ok := ids == SCENARIO_IDS;
  }

  // ----- observation and review ----------------------------------------------------------

  predicate EnvironmentOk(e: Environment, expected: string) {
    && IsExerciseId(e.environmentId) && e.environmentId == expected
    && IsExerciseId(e.arch) && e.deploymentMode == "single-node" && e.os == "linux" && e.configurationSha.Sha256?
  }

  ghost predicate ObservationOk(o: Observation, d: Dispatch) {
    && o.releaseCandidate == d.releaseCandidate && o.source == Source(d.commit, false)
    && EnvironmentOk(o.environment, d.environment) && IsExerciseId(o.exerciseId)
    && o.endedAt - o.startedAt >= MIN_EXERCISE
    && ParticipantsOk(o.facilitator, o.participants)
    && ScenariosOk(o.scenarios, o.startedAt, o.endedAt)
  }

  predicate ReviewOk(r: Review, observationSha: Digest, endedAt: Micros, d: Dispatch) {
    && r.releaseCandidate == d.releaseCandidate && r.source == Source(d.commit, false)
    && IsExerciseId(r.environmentId) && r.environmentId == d.environment
    && r.observationSha == observationSha && IsExerciseId(r.reviewer)
    && 0 <= r.reviewedAt - endedAt <= THIRTY_DAYS
    && (r.decision == "approved" || r.decision == "rejected")
    && r.scenarioIds == SCENARIO_IDS && r.checks.Keys == REVIEW_CHECK_IDS
    && AreCleanTexts(r.findings, 50, 200) && r.attestationSha.Sha256?
  }

  predicate AllTrue(checks: map<string, bool>) { forall c | c in checks :: checks[c] }

  function SummarizeReview(r: Review, facilitator: string, participantIds: set<string>): ReviewSummary {
    var independent := r.reviewer !in participantIds + {facilitator};
    var approved, everyCheck, noFindings := r.decision == "approved", AllTrue(r.checks), r.findings == [];
    ReviewSummary(independent, r.decision, r.checks, |r.findings|, approved, everyCheck, noFindings,
                  independent && approved && everyCheck && noFindings)
  }

  function FailedIds(summaries: seq<Summary>): (r: seq<string>)
    ensures r == [] <==> forall i | 0 <= i < |summaries| :: summaries[i].passed
  {
    if summaries == [] then []
    else
      var rest := FailedIds(summaries[1..]);
      assert forall i | 1 <= i < |summaries| :: summaries[i] == summaries[1..][i - 1];
      if summaries[0].passed then rest else [summaries[0].id] + rest
  }

  function ReviewBlockers(s: ReviewSummary): seq<Blocker> {
    (if s.independent then [] else [NotIndependent]) + (if s.approved then [] else [NotApproved]) +
    (if s.everyCheckPassed then [] else [ReviewCheckFailed]) + (if s.noOpenFindings then [] else [OpenFindings])
  }

  function ScenarioBlockers(ids: seq<string>): (r: seq<Blocker>)
    ensures |r| == |ids| && forall i | 0 <= i < |r| :: r[i] == FailedScenario(ids[i])
  {
    seq(|ids|, i requires 0 <= i < |ids| => FailedScenario(ids[i]))
  }

  predicate DispatchOk(d: Dispatch) {
    && IsReleaseTag(d.releaseCandidate, 50) && IsCommit(d.commit)
    && IsExerciseId(d.environment) && Fold(d.environment) !in NON_TARGETS
  }

  /** The report of an accepted observation and review. */
  ghost predicate IsReport(o: File<Observation>, r: File<Review>, d: Dispatch, report: Report) {
    var ids := set x | x in ParticipantIds(o.value.participants);
    && report.schemaVersion == 1 && report.releaseCandidate == d.releaseCandidate
        && report.source == Source(d.commit, false)
    && report.environment == o.value.environment
    && report.duration == Seconds(o.value.endedAt, o.value.startedAt)
    && report.participantCount == |o.value.participants| && report.roles == Roles(o.value.participants)
    && report.observationSha == o.Sha() && report.reviewSha == r.Sha()
    && report.attestationSha == r.value.attestationSha
    && report.review == SummarizeReview(r.value, o.value.facilitator, ids)
    && |report.scenarios| == |o.value.scenarios|
    && (forall i | 0 <= i < |report.scenarios| :: report.scenarios[i] == Summarize(o.value.scenarios[i]))
    && report.failedScenarios == FailedIds(report.scenarios)
    && report.blockers == ScenarioBlockers(report.failedScenarios) + ReviewBlockers(report.review)
    && report.passed == report.completed == report.eligible == (report.blockers == []) && !report.productionClaim
  }

  method Evaluate(o: File<Observation>, r: File<Review>, d: Dispatch) returns (report: Outcome<Report>)
    ensures report.Accept? <==>
              DispatchOk(d) && ObservationOk(o.value, d) && ReviewOk(r.value, o.Sha(), o.value.endedAt, d)
    ensures report.Accept? ==> IsReport(o, r, d, report.value)
  {
    hide EnvironmentOk, ParticipantsOk, ScenariosOk, ReviewOk, DispatchOk, IsExerciseId, Summarize;
    var ob := o.value;
    if !DispatchOk(d) { return Reject; }
    if ob.releaseCandidate != d.releaseCandidate || ob.source != Source(d.commit, false) { return Reject; }
    if !EnvironmentOk(ob.environment, d.environment) || !IsExerciseId(ob.exerciseId) { return Reject; }
    if ob.endedAt - ob.startedAt < MIN_EXERCISE { return Reject; }
    var participantsOk, ids, roles := ValidateParticipants(ob.facilitator, ob.participants);
    if !participantsOk { return Reject; }
    var scenariosOk, summaries := ValidateScenarios(ob.scenarios, ob.startedAt, ob.endedAt);
    if !scenariosOk { return Reject; }
    if !ReviewOk(r.value, o.Sha(), ob.endedAt, d) { return Reject; }
    var review := SummarizeReview(r.value, ob.facilitator, ids);
    var failed := FailedIds(summaries);
    var blockers := ScenarioBlockers(failed) + ReviewBlockers(review);
    var eligible := blockers == [];
    report := Accept(Report(1, d.releaseCandidate, ob.source, ob.environment, Seconds(ob.endedAt, ob.startedAt), |ids|,
                            roles, o.Sha(), r.Sha(), r.value.attestationSha, review, summaries, failed, blockers,
                            eligible, eligible, eligible, false));
  }

  /** A scenario passes exactly when it recovered in a positive time within its targets with every
      step done, no foreign access and nothing left open. */
  lemma ScenarioPasses(s: Scenario)
    ensures Summarize(s).passed <==>
              && s.detectedAt < s.recoveredAt && (s.recoveredAt - s.detectedAt) as real <= s.targetRto * 1_000_000.0
              && s.dataLoss <= s.targetRpo && s.stepsCompleted == s.stepsTotal
              && s.tenantAccesses == 0 && s.unresolvedFindings == 0
  {
    hide Failed;
    NoneFailed(CheckResults(s));
    var rto := Seconds(s.recoveredAt, s.detectedAt);
    assert rto * 1_000_000.0 == (s.recoveredAt - s.detectedAt) as real;
  }

  lemma NoneFailed(checks: map<ScenarioCheck, bool>)
    requires PositiveRecovery in checks && RtoMet in checks && RpoMet in checks && StepsCompleted in checks
    requires NoTenantAccess in checks && NoFindings in checks
    ensures Failed(checks, SCENARIO_CHECKS) == [] <==>
              checks[PositiveRecovery] && checks[RtoMet] && checks[RpoMet] && checks[StepsCompleted] &&
              checks[NoTenantAccess] && checks[NoFindings]
  {
    hide Failed;
    forall c: ScenarioCheck ensures c in SCENARIO_CHECKS && c in checks {
      match c
      case PositiveRecovery => assert SCENARIO_CHECKS[0] == c;
      case RtoMet => assert SCENARIO_CHECKS[1] == c;
      case RpoMet => assert SCENARIO_CHECKS[2] == c;
      case StepsCompleted => assert SCENARIO_CHECKS[3] == c;
      case NoTenantAccess => assert SCENARIO_CHECKS[4] == c;
      case NoFindings => assert SCENARIO_CHECKS[5] == c;
    }
  }

  /** A report is eligible exactly when every scenario passes and the reviewer, who took no part,
      approved with every check and no finding. */
  lemma EligibleMeans(o: File<Observation>, r: File<Review>, d: Dispatch, report: Report)
    requires IsReport(o, r, d, report)
    ensures report.eligible <==>
              && (forall i | 0 <= i < |o.value.scenarios| :: Summarize(o.value.scenarios[i]).passed)
              && r.value.reviewer != o.value.facilitator && (forall p | p in o.value.participants ::
                  p.id != r.value.reviewer)
              && r.value.decision == "approved" && AllTrue(r.value.checks) && r.value.findings == []
    ensures report.eligible ==> report.failedScenarios == [] && report.review.passed
  {
    hide Summarize;
    var ids := ParticipantIds(o.value.participants);
    assert r.value.reviewer in ids <==> exists p :: p in o.value.participants && p.id == r.value.reviewer by {
      if p :| p in o.value.participants && p.id == r.value.reviewer {
        var i :| 0 <= i < |ids| && o.value.participants[i] == p;
        assert ids[i] == r.value.reviewer;
      }
    }
    assert report.eligible <==> |report.failedScenarios| == 0 && |ReviewBlockers(report.review)| == 0;
  }
}

/** scripts/storage_profile_qualification.py: destructive storage scenarios with recomputed RPO and RTO. */
module StorageProfile {
  import opened Primitives
  import opened Campaign

  const TARGET_RPO: int := 300
  const TARGET_RTO: int := 3_600
  const MAX_EXERCISE: int := 48 * 60 * 60
  const MAX_REVIEW_DELAY: int := 30 * 24 * 60 * 60

  datatype ScenarioId = HostPowerLoss | TornWrite | DeviceLoss
  datatype Mechanism = PowerCut | TornBlock | DeviceDetached | OtherMechanism(text: string)
  datatype RecoverySource = LocalJournal | RemoteBackup | OtherSource(text: string)

  const SCENARIO_IDS: seq<ScenarioId> := [HostPowerLoss, TornWrite, DeviceLoss]

  datatype Scenario = Scenario(
    id: ScenarioId, startedAt: Micros, lastAck: Micros, faultAt: Micros, recoveryAt: Micros, newest: Micros,
    healthyAt: Micros, mechanism: Mechanism, recoverySource: RecoverySource, preBoot: Digest, postBoot: Digest,
    faultObserved: bool, quickCheckOk: bool, identityVerified: bool, artifactVerified: bool, rearmed: bool,
    tenantAccesses: int, evidenceSha: Digest)

  datatype Summary = Summary(id: ScenarioId, rpo: int, rto: int, passed: bool)

  /** Whole, non-negative seconds between two instants, or a refusal. */
  function Seconds(later: Micros, earlier: Micros): Outcome<int> {
    if later < earlier || (later - earlier) % SECOND != 0 then Reject else Accept((later - earlier) / SECOND)
  }

  function RequiredMechanism(id: ScenarioId): Mechanism {
    match id case HostPowerLoss => PowerCut case TornWrite => TornBlock case DeviceLoss => DeviceDetached
  }

  predicate SourceAllowed(id: ScenarioId, source: RecoverySource) {
    source == RemoteBackup || (id == HostPowerLoss && source == LocalJournal)
  }

  function ValidateScenario(s: Scenario, start: Micros, end: Micros): Outcome<Summary> {
    if !(start <= s.startedAt <= s.newest <= s.lastAck <= s.faultAt <= s.recoveryAt <= s.healthyAt <= end) then Reject
    else if s.mechanism != RequiredMechanism(s.id) || !SourceAllowed(s.id, s.recoverySource) then Reject
    else if !s.preBoot.Sha256? || !s.postBoot.Sha256? || !s.evidenceSha.Sha256? || s.tenantAccesses < 0 then Reject
    else if s.id == HostPowerLoss && s.preBoot == s.postBoot then Reject
    else
      var rpo :- Seconds(s.lastAck, s.newest);
      var rto :- Seconds(s.healthyAt, s.faultAt);
      Accept(Summary(s.id, rpo, rto,
                     s.faultObserved && rpo <= TARGET_RPO && rto <= TARGET_RTO && s.quickCheckOk &&
                     s.identityVerified && s.artifactVerified && s.rearmed && s.tenantAccesses == 0))
  }

  datatype Observation = Observation(
    releaseCandidate: string, source: Source, environmentId: string, deploymentMode: string, os: string, arch: string,
    startedAt: Micros, endedAt: Micros, operator: string, harness: string, scenarios: seq<Scenario>)

  datatype Review = Review(
    releaseCandidate: string, source: Source, environmentId: string, observationSha: Digest, reviewer: string,
    reviewedAt: Micros, decision: string, attestationSha: Digest, scenarioIds: seq<ScenarioId>,
    checks: map<string, bool>, findings: seq<string>)

  datatype Report = Report(
    releaseCandidate: string, source: Source, environmentId: string, durationSeconds: int, scenarios: seq<Summary>,
    observationSha: Digest, reviewSha: Digest, reviewDelay: int, independent: bool, decision: string,
    allChecksPassed: bool, openFindings: nat, completed: bool, eligible: bool, passed: bool, productionClaim: bool)

  predicate AllTrue(checks: map<string, bool>) { forall c | c in checks :: checks[c] }

  /** The scenario summaries, provided each validates. */
  function Summaries(scenarios: seq<Scenario>, start: Micros, end: Micros): (r: Outcome<seq<Summary>>)
    ensures r.Accept? ==> |r.value| == |scenarios|
    ensures r.Accept? ==> forall i | 0 <= i < |scenarios| ::
              ValidateScenario(scenarios[i], start, end) == Accept(r.value[i])
  {
    if scenarios == [] then Accept([])
    else
      var first :- ValidateScenario(scenarios[0], start, end);
      var rest :- Summaries(scenarios[1..], start, end);
      Accept([first] + rest)
  }

  predicate AllPassed(scenarios: seq<Summary>) { forall i | 0 <= i < |scenarios| :: scenarios[i].passed }

  function Ids(scenarios: seq<Summary>): (ids: seq<ScenarioId>)
    ensures |ids| == |scenarios| && forall i | 0 <= i < |ids| :: ids[i] == scenarios[i].id
  {
    seq(|scenarios|, i requires 0 <= i < |scenarios| => scenarios[i].id)
  }

  /** evaluate, from parsed records; `checkIds` is the review check list. */
  function Evaluate(o: File<Observation>, r: File<Review>, d: Dispatch, checkIds: set<string>): Outcome<Report> {
    var ob, re := o.value, r.value;
    if !IsReleaseTag(d.releaseCandidate, 200) || !IsCommit(d.commit) || !IsTargetId(d.environment) then Reject
    else if ob.releaseCandidate != d.releaseCandidate || ob.source != Source(d.commit, false) then Reject
    else if ob.environmentId != d.environment then Reject
    else if ob.deploymentMode != "single-node" || ob.os != "linux" || ob.arch != "x86_64" then Reject
    else
      var duration :- Seconds(ob.endedAt, ob.startedAt);
      if duration <= 0 || duration > MAX_EXERCISE || |ob.scenarios| != |SCENARIO_IDS| then Reject
      else if !IsStableId(ob.operator) || !IsTargetId(ob.harness) then Reject
      else
        var scenarios :- Summaries(ob.scenarios, ob.startedAt, ob.endedAt);
        if Ids(scenarios) != SCENARIO_IDS then Reject
        else if re.releaseCandidate != d.releaseCandidate || re.source != Source(d.commit, false) then Reject
        else if re.environmentId != d.environment || re.observationSha != o.Sha() then Reject
        else if !IsStableId(re.reviewer) || re.scenarioIds != SCENARIO_IDS || re.checks.Keys != checkIds then Reject
        else if !AreCleanTexts(re.findings, 20, 300) || !re.attestationSha.Sha256? then Reject
        else
          var delay :- Seconds(re.reviewedAt, ob.endedAt);
          if delay > MAX_REVIEW_DELAY || (re.decision != "approved" && re.decision != "rejected") then Reject
          else
            var independent := Fold(re.reviewer) != Fold(ob.operator) && Fold(re.reviewer) != Fold(ob.harness);
            var completed := AllPassed(scenarios);
            var approved := re.decision == "approved" && AllTrue(re.checks) && re.findings == [];
            var eligible := completed && independent && approved;
            Accept(Report(d.releaseCandidate, ob.source, ob.environmentId, duration, scenarios, o.Sha(), r.Sha(), delay,
                          independent, re.decision, AllTrue(re.checks), |re.findings|, completed, eligible, eligible,
                          false))
  }

  // ----- durations -----------------------------------------------------------------------

  /** A derived duration is the exact distance between the instants. */
  lemma SecondsExact(later: Micros, earlier: Micros)
    ensures Seconds(later, earlier).Accept? ==>
              Seconds(later, earlier).value >= 0 && Seconds(later, earlier).value * SECOND == later - earlier
    ensures Seconds(later, earlier).Accept? <==> earlier <= later && exists n: int :: n * SECOND == later - earlier
  {
    if n: int :| n * SECOND == later - earlier {
      assert (n * SECOND) % SECOND == 0;
    }
    if later >= earlier && (later - earlier) % SECOND == 0 {
      assert (later - earlier) / SECOND * SECOND == later - earlier;
    }
  }

  lemma ScenarioDurations(s: Scenario, start: Micros, end: Micros)
    requires ValidateScenario(s, start, end).Accept?
    ensures var v := ValidateScenario(s, start, end).value;
            && v.id == s.id && v.rpo >= 0 && v.rto >= 0
            && v.rpo * SECOND == s.lastAck - s.newest && v.rto * SECOND == s.healthyAt - s.faultAt
            && (v.rpo + v.rto) * SECOND <= end - start
            && (v.passed ==>
                  s.lastAck - s.newest <= TARGET_RPO * SECOND && s.healthyAt - s.faultAt <= TARGET_RTO * SECOND)
  {
    SecondsExact(s.lastAck, s.newest);
    SecondsExact(s.healthyAt, s.faultAt);
  }

  /** In an accepted evaluation each scenario's data loss and recovery times are the exact
      distances on its timeline, and together fit the exercise, which lasts at most 48 hours; the
      scenarios are the contract's, in order. */
  lemma AcceptedDurations(o: File<Observation>, r: File<Review>, d: Dispatch, checkIds: set<string>,
                          i: nat)
    requires Evaluate(o, r, d, checkIds).Accept? && i < |SCENARIO_IDS|
    ensures var report, ob := Evaluate(o, r, d, checkIds).value, o.value;
            && |report.scenarios| == |ob.scenarios| == |SCENARIO_IDS|
            && report.durationSeconds * SECOND == ob.endedAt - ob.startedAt
            && 0 < report.durationSeconds <= MAX_EXERCISE
            && report.scenarios[i].id == ob.scenarios[i].id == SCENARIO_IDS[i]
            && report.scenarios[i].rpo * SECOND == ob.scenarios[i].lastAck - ob.scenarios[i].newest
            && report.scenarios[i].rto * SECOND == ob.scenarios[i].healthyAt - ob.scenarios[i].faultAt
            && report.scenarios[i].rpo + report.scenarios[i].rto <= report.durationSeconds
            && report.reviewDelay * SECOND == r.value.reviewedAt - ob.endedAt
            && 0 <= report.reviewDelay <= MAX_REVIEW_DELAY
  {
    var report, ob := Evaluate(o, r, d, checkIds).value, o.value;
    SecondsExact(ob.endedAt, ob.startedAt);
    SecondsExact(r.value.reviewedAt, ob.endedAt);
    assert ValidateScenario(ob.scenarios[i], ob.startedAt, ob.endedAt) == Accept(report.scenarios[i]);
    ScenarioDurations(ob.scenarios[i], ob.startedAt, ob.endedAt);
    assert Ids(report.scenarios)[i] == SCENARIO_IDS[i];
  }

  /** A scenario whose fault was seen and whose recovery lost at most five minutes of data and took at
      most an hour, with an intact, re-armed store and no foreign access. */
  predicate Recovered(s: Scenario) {
    && s.faultObserved && s.lastAck - s.newest <= 300 * SECOND && s.healthyAt - s.faultAt <= 3_600 * SECOND
    && s.quickCheckOk && s.identityVerified && s.artifactVerified && s.rearmed && s.tenantAccesses == 0
  }

  /** A report is eligible exactly when every scenario recovered and an independent review approved it
      with every check true and nothing open. */
  lemma EligibleMeans(o: File<Observation>, r: File<Review>, d: Dispatch, checkIds: set<string>)
    requires Evaluate(o, r, d, checkIds).Accept?
    ensures Evaluate(o, r, d, checkIds).value.eligible <==>
              && (forall i | 0 <= i < |o.value.scenarios| :: Recovered(o.value.scenarios[i]))
              && Fold(r.value.reviewer) !in {Fold(o.value.operator), Fold(o.value.harness)}
              && r.value.decision == "approved" && AllTrue(r.value.checks) && r.value.findings == []
  {
    hide Seconds, ValidateScenario, Recovered, Fold, IsCommit;
    var report, ob := Evaluate(o, r, d, checkIds).value, o.value;
    forall i | 0 <= i < |ob.scenarios| ensures report.scenarios[i].passed <==> Recovered(ob.scenarios[i]) {
      assert ValidateScenario(ob.scenarios[i], ob.startedAt, ob.endedAt) == Accept(report.scenarios[i]);
      ScenarioPasses(ob.scenarios[i], ob.startedAt, ob.endedAt);
    }
  }

  lemma ScenarioPasses(s: Scenario, start: Micros, end: Micros)
    requires ValidateScenario(s, start, end).Accept?
    ensures ValidateScenario(s, start, end).value.passed <==> Recovered(s)
  {
    SecondsExact(s.lastAck, s.newest);
    SecondsExact(s.healthyAt, s.faultAt);
  }
}

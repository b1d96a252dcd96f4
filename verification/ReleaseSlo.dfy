/** scripts/release_slo_qualification.py: service-level targets recomputed from raw counts. Ratios and
    means are exact rationals. */
module ReleaseSlo {
  import opened Primitives
  import opened Campaign
  import GameDay

  const DAY: int := 86_400
  const MONTH: int := 2_592_000

  // ----- raw observation -----------------------------------------------------------------

  datatype Requests = Requests(window: int, success: int, failed: int, timedOut: int, cancelled: int)
  {
    function Total(): int { success + failed + timedOut + cancelled }
    predicate Ok() { window >= 0 && success >= 0 && failed >= 0 && timedOut >= 0 && cancelled >= 0 }
  }

  datatype Slis = Slis(
    availability: Requests, latencyWindow: int, controlP95: real, controlRequests: int, agentP95: real,
    agentRequests: int, queueWindow: int, waitSeconds: real, admissions: int, starvation: int, llm: Requests,
    llmRejected: int, liveProviderPassed: bool, liveProviderSha: Digest, tool: Requests, toolRejected: int,
    denialAttempts: int, unexpectedAllows: int, healthySeconds: int, unhealthySeconds: int, backupAge: real,
    restorePassed: bool, attempted: int, recovered: int, safeRejected: int, crossTenant: int, isolationAttempts: int,
    violations: int, gameDayCompleted: bool, gameDaySha: Option<Digest>)

  predicate SlisOk(s: Slis) {
    && s.availability.Ok() && s.llm.Ok() && s.tool.Ok() && s.llmRejected >= 0 && s.toolRejected >= 0
    && s.latencyWindow >= 0 && s.controlP95 >= 0.0 && s.controlRequests >= 0 && s.agentP95 >= 0.0
    && s.agentRequests >= 0
    && s.queueWindow >= 0 && s.waitSeconds >= 0.0 && s.admissions >= 0 && s.starvation >= 0
    && s.liveProviderSha.Sha256? && s.denialAttempts >= 0 && s.unexpectedAllows >= 0
    && s.healthySeconds >= 0 && s.unhealthySeconds >= 0 && s.backupAge >= 0.0
    && s.attempted >= 0 && s.recovered >= 0 && s.safeRejected >= 0 && s.crossTenant >= 0
    && s.recovered + s.safeRejected <= s.attempted
    && s.isolationAttempts >= 0 && s.violations >= 0
    && (if s.gameDayCompleted then s.gameDaySha.Some? && s.gameDaySha.value.Sha256? else s.gameDaySha.None?)
  }

  // ----- targets -------------------------------------------------------------------------

  datatype TargetId = Availability | SyscallLatency | QueueWait | LlmSuccess | ToolSuccess | Denial | Durability
    | Recovery | Isolation

  datatype Check =
    | Window | Volume | AgentVolume | SuccessRatio | ControlP95 | AgentP95 | MeanWait | ZeroStarvation | LiveProvider
    | ZeroAllows | LedgerObserved | LedgerHealthy | BackupFresh | RestorePassed | AllAccounted | ZeroCrossTenant
    | ZeroViolations | GameDayDone

  datatype Target = Target(id: TargetId, window: Option<int>, passed: bool, failedChecks: seq<Check>)

  function Failing<C(!new)>(checks: seq<(C, bool)>): (r: seq<C>)
    ensures r == [] <==> forall i | 0 <= i < |checks| :: checks[i].1
    ensures forall c :: c in r <==> exists i :: 0 <= i < |checks| && checks[i] == (c, false)
  {
    if checks == [] then []
    else
      var rest := Failing(checks[1..]);
      assert forall i | 1 <= i < |checks| :: checks[i] == checks[1..][i - 1];
      if checks[0].1 then rest else [checks[0].0] + rest
  }

  function MakeTarget(id: TargetId, window: Option<int>, checks: seq<(Check, bool)>): (t: Target)
    ensures t.passed <==> forall i | 0 <= i < |checks| :: checks[i].1
  {
    var failed := Failing(checks);
    Target(id, window, failed == [], failed)
  }

  /** success / total, when there was any traffic. */
  predicate RatioAtLeast(r: Requests, threshold: real) {
    r.Total() > 0 && r.success as real / r.Total() as real >= threshold
  }

  function RequestTarget(id: TargetId, r: Requests, minWindow: int, minVolume: int, threshold: real,
                         extra: seq<(Check, bool)>): Target {
    MakeTarget(id, Some(r.window),
               [(Window, r.window >= minWindow), (Volume, r.Total() >= minVolume),
                   (SuccessRatio, RatioAtLeast(r, threshold))] + extra)
  }

  function AvailabilityTarget(s: Slis): Target {
    RequestTarget(Availability, s.availability, MONTH, 100_000, 0.995, [])
  }

  function LatencyTarget(s: Slis): Target {
    MakeTarget(SyscallLatency, Some(s.latencyWindow),
               [(Window, s.latencyWindow >= DAY), (Volume, s.controlRequests >= 10_000),
                (AgentVolume, s.agentRequests >= 1_000), (ControlP95, s.controlP95 < 1.0),
                (AgentP95, s.agentP95 < 30.0)])
  }

  function QueueTarget(s: Slis): Target {
    MakeTarget(QueueWait, Some(s.queueWindow),
               [(Window, s.queueWindow >= DAY), (Volume, s.admissions >= 10_000),
                (MeanWait, s.admissions > 0 && s.waitSeconds / s.admissions as real < 0.25),
                (ZeroStarvation, s.starvation == 0)])
  }

  function LlmTarget(s: Slis): Target {
    RequestTarget(LlmSuccess, s.llm, DAY, 1_000, 0.99, [(LiveProvider, s.liveProviderPassed)])
  }

  function ToolTarget(s: Slis): Target { RequestTarget(ToolSuccess, s.tool, DAY, 1_000, 0.995, []) }

  function DenialTarget(s: Slis): Target {
    MakeTarget(Denial, None, [(Volume, s.denialAttempts >= 100), (ZeroAllows, s.unexpectedAllows == 0)])
  }

  function DurabilityTarget(s: Slis): Target {
    MakeTarget(Durability, None,
               [(LedgerObserved, s.healthySeconds >= MONTH), (LedgerHealthy, s.unhealthySeconds == 0),
                (BackupFresh, s.backupAge <= 90_000.0), (RestorePassed, s.restorePassed)])
  }

  function RecoveryTarget(s: Slis): Target {
    MakeTarget(Recovery, None,
               [(Volume, s.attempted >= 100), (AllAccounted, s.recovered + s.safeRejected == s.attempted),
                (ZeroCrossTenant, s.crossTenant == 0)])
  }

  function IsolationTarget(s: Slis): Target {
    MakeTarget(Isolation, None,
               [(Volume, s.isolationAttempts >= 100), (ZeroViolations, s.violations == 0),
                (GameDayDone, s.gameDayCompleted)])
  }

  function Targets(s: Slis): seq<Target> {
    [AvailabilityTarget(s), LatencyTarget(s), QueueTarget(s), LlmTarget(s), ToolTarget(s), DenialTarget(s),
     DurabilityTarget(s), RecoveryTarget(s), IsolationTarget(s)]
  }

  // ----- alerts --------------------------------------------------------------------------

  datatype Alert = Alert(name: string, critical: bool, firedAt: Micros, resolvedAt: Option<Micros>)

  predicate AlertOk(a: Alert, start: Micros, end: Micros) {
    && IsSafeId(a.name) && start <= a.firedAt <= end
    && (a.resolvedAt.Some? ==> a.firedAt <= a.resolvedAt.value <= end)
  }

  predicate IsSafeId(s: string) {
    && 0 < |s| <= 100 && IsAlnum(s[0]) && Fold(s) !in GameDay.NON_TARGETS
    && forall i | 0 <= i < |s| :: IsAlnum(s[i]) || s[i] in "._-"
  }

  function Unresolved(alerts: seq<Alert>): nat {
    if alerts == [] then 0
    else Unresolved(alerts[..|alerts| - 1]) + if alerts[|alerts| - 1].resolvedAt.None? then 1 else 0
  }

  lemma {:induction false} UnresolvedNone(alerts: seq<Alert>)
    ensures Unresolved(alerts) == 0 <==> forall a | a in alerts :: a.resolvedAt.Some?
  {
    if alerts != [] {
      var n := |alerts| - 1;
      UnresolvedNone(alerts[..n]);
      assert alerts == alerts[..n] + [alerts[n]];
    }
  }

  method ValidateAlerts(alerts: seq<Alert>, start: Micros, end: Micros) returns (ok: bool, unresolved: nat)
    ensures ok <==> |alerts| <= 1000 && forall a | a in alerts :: AlertOk(a, start, end)
    ensures ok ==> unresolved == Unresolved(alerts)
  {
    hide AlertOk;
    ok, unresolved := false, 0;
    if |alerts| > 1000 { return; }
    for i := 0 to |alerts|
      invariant forall j | 0 <= j < i :: AlertOk(alerts[j], start, end)
      invariant unresolved == Unresolved(alerts[..i])
    {
      if !AlertOk(alerts[i], start, end) { return; }
      assert alerts[..i + 1][..i] == alerts[..i];
      if alerts[i].resolvedAt.None? { unresolved := unresolved + 1; }
    }
    assert alerts[..|alerts|] == alerts;
    ok := true;
  }

  // ----- prerequisites -------------------------------------------------------------------

  datatype Soak = Soak(
    schemaVersion: int, source: Source, environmentId: string, buildProfile: string, smokeScaled: bool,
    eligible: bool, productionClaim: bool, durationSeconds: int, passed: bool, elapsedSeconds: real, samples: nat,
    checks: map<string, bool>)

  datatype SoakCheck =
    | ReleaseBuild | NotSmoke | SoakEligible | SoakClaimFalse | SoakPassed | SoakChecks | Configured24h | Elapsed24h
    | Samples

  predicate SoakAccepted(s: Soak, d: Dispatch) {
    s.source == Source(d.commit, false) && s.schemaVersion == 1 && s.environmentId == d.environment &&
    s.durationSeconds >= 0 && s.elapsedSeconds >= 0.0 && s.checks != map[]
  }

  function SoakChecksOf(s: Soak): seq<(SoakCheck, bool)> {
    [(ReleaseBuild, s.buildProfile == "release"), (NotSmoke, !s.smokeScaled), (SoakEligible, s.eligible),
     (SoakClaimFalse, !s.productionClaim), (SoakPassed, s.passed), (SoakChecks, GameDay.AllTrue(s.checks)),
     (Configured24h, s.durationSeconds >= DAY), (Elapsed24h, s.elapsedSeconds >= DAY as real),
     (Samples, s.samples >= 1_000)]
  }

  function SoakFailures(s: Soak): seq<SoakCheck> { Failing(SoakChecksOf(s)) }

  datatype Command = Command(passed: bool, evidenceValid: bool)
  datatype DrillScenario = DrillScenario(id: string, passed: bool, commands: seq<Command>)
  datatype Incident = Incident(
    schemaVersion: int, source: Source, automatedScope: bool, drillPassed: bool, passed: bool, productionClaim: bool,
    scenarios: seq<DrillScenario>)

  datatype IncidentCheck = AutomatedScope | DrillPassed | IncidentPassed | IncidentClaimFalse | ExactScenarios
    | EveryScenario | EveryCommand

  predicate IncidentAccepted(i: Incident, d: Dispatch) { i.source == Source(d.commit, false) && i.schemaVersion == 1 }

  predicate DrillComplete(s: DrillScenario) {
    s.commands != [] && forall c | c in s.commands :: c.passed && c.evidenceValid
  }

  function DrillIds(scenarios: seq<DrillScenario>): (ids: seq<string>)
    ensures |ids| == |scenarios| && forall i | 0 <= i < |ids| :: ids[i] == scenarios[i].id
  {
    seq(|scenarios|, i requires 0 <= i < |scenarios| => scenarios[i].id)
  }

  function IncidentFailures(i: Incident): seq<IncidentCheck> {
    Failing([(AutomatedScope, i.automatedScope), (DrillPassed, i.drillPassed), (IncidentPassed, i.passed),
             (IncidentClaimFalse, !i.productionClaim), (ExactScenarios, DrillIds(i.scenarios) == GameDay.SCENARIO_IDS),
             (EveryScenario, i.scenarios != [] && forall s | s in i.scenarios :: s.passed),
             (EveryCommand, i.scenarios != [] && forall s | s in i.scenarios :: DrillComplete(s))])
  }

  // ----- the human game day --------------------------------------------------------------

  datatype GameDayCheck =
    | ExactBinding | ReportPassed | Completed | ProofEligible | ClaimFalse | ExerciseMet | ExactIds | ScenariosPassed
    | ReviewPassed | HashesValid | ZeroBlockers

  /** The report identity _validate_game_day insists on. */
  predicate GameDayAccepted(g: GameDay.Report, d: Dispatch) {
    && g.source == Source(d.commit, false) && g.schemaVersion == 1 && g.releaseCandidate == d.releaseCandidate
    && g.environment.environmentId == d.environment && g.environment.deploymentMode == "single-node"
    && g.environment.os == "linux" && (g.environment.arch == "x86_64" || g.environment.arch == "aarch64")
    && g.environment.configurationSha.Sha256? && g.duration >= 0.0
  }

  predicate ExerciseValid(g: GameDay.Report) {
    g.duration >= 3_600.0 && g.participantCount >= 3 && GameDay.RolesCovered(g.roles)
  }

  predicate MeasurementsValid(s: GameDay.Summary) {
    && s.rto > 0.0 && s.targetRto > 0.0 && s.rto <= s.targetRto
    && s.dataLoss >= 0.0 && s.targetRpo >= 0.0 && s.dataLoss <= s.targetRpo
    && s.stepsTotal >= 1 && s.stepsCompleted == s.stepsTotal && s.tenantAccesses == 0 && s.unresolvedFindings == 0
    && s.evidenceSha.Sha256?
  }

  predicate EveryCheckTrue(checks: map<GameDay.ScenarioCheck, bool>) {
    && (forall c | c in GameDay.SCENARIO_CHECKS :: c in checks)
    && (forall c | c in checks :: c in GameDay.SCENARIO_CHECKS && checks[c])
  }

  /** A scenario summary whose verdict and raw numbers agree on a pass. */
  predicate SummaryPasses(s: GameDay.Summary) {
    s.passed && s.failedChecks == [] && EveryCheckTrue(s.checks) && MeasurementsValid(s)
  }

  predicate ReviewClears(r: GameDay.ReviewSummary) {
    && r.passed && r.independent && r.decision == "approved" && r.openFindings == 0
    && r.approved && r.everyCheckPassed && r.noOpenFindings
    && r.reviewedChecks.Keys == GameDay.REVIEW_CHECK_IDS && GameDay.AllTrue(r.reviewedChecks)
  }

  function SummaryIds(ss: seq<GameDay.Summary>): (ids: seq<string>)
    ensures |ids| == |ss| && forall i | 0 <= i < |ids| :: ids[i] == ss[i].id
  {
    seq(|ss|, i requires 0 <= i < |ss| => ss[i].id)
  }

  function GameDayChecks(g: GameDay.Report, sha: Digest, cited: Option<Digest>, idsExact: bool, allPass: bool)
    : seq<(GameDayCheck, bool)>
  {
    [(ExactBinding, cited == Some(sha)), (ReportPassed, g.passed), (Completed, g.completed),
     (ProofEligible, g.eligible),
     (ClaimFalse, !g.productionClaim), (ExerciseMet, ExerciseValid(g)), (ExactIds, idsExact),
     (ScenariosPassed, g.scenarios != [] && allPass), (ReviewPassed, ReviewClears(g.review)),
     (HashesValid, g.observationSha.Sha256? && g.reviewSha.Sha256? && g.attestationSha.Sha256?),
     (ZeroBlockers, g.failedScenarios == [] && g.blockers == [])]
  }

  function GameDayFailures(g: GameDay.Report, sha: Digest, cited: Option<Digest>): seq<GameDayCheck> {
    Failing(GameDayChecks(g, sha, cited, SummaryIds(g.scenarios) == GameDay.SCENARIO_IDS,
                          forall s | s in g.scenarios :: SummaryPasses(s)))
  }

  method ValidateGameDay(g: GameDay.Report, sha: Digest, cited: Option<Digest>, d: Dispatch)
    returns (r: Outcome<seq<GameDayCheck>>)
    ensures r.Accept? <==> GameDayAccepted(g, d)
    ensures r.Accept? ==> r.value == GameDayFailures(g, sha, cited)
  {
    hide SummaryPasses, GameDayAccepted, GameDayChecks;
    if !GameDayAccepted(g, d) { return Reject; }
    var ids: seq<string>, passes: seq<bool> := [], [];
    for i := 0 to |g.scenarios|
      invariant |ids| == |passes| == i
      invariant forall j | 0 <= j < i :: ids[j] == g.scenarios[j].id && passes[j] == SummaryPasses(g.scenarios[j])
    {
      ids := ids + [g.scenarios[i].id];
      passes := passes + [SummaryPasses(g.scenarios[i])];
    }
    assert ids == SummaryIds(g.scenarios);
    var allPass := forall j | 0 <= j < |passes| :: passes[j];
    assert allPass == forall s | s in g.scenarios :: SummaryPasses(s) by {
      if allPass {
        forall s | s in g.scenarios ensures SummaryPasses(s) {
          var j :| 0 <= j < |g.scenarios| && g.scenarios[j] == s;
          assert passes[j];
        }
      } else {
        var j :| 0 <= j < |passes| && !passes[j];
        assert g.scenarios[j] in g.scenarios;
      }
    }
    r := Accept(Failing(GameDayChecks(g, sha, cited, ids == GameDay.SCENARIO_IDS, allPass)));
  }

  // ----- the report ----------------------------------------------------------------------

  datatype Observation = Observation(
    releaseCandidate: string, source: Source, environmentId: string, os: string, configurationSha: Digest,
    datasetSha: Digest, start: Micros, end: Micros, alerts: seq<Alert>, slis: Slis)

  datatype Blocker =
    | TargetFailed(id: TargetId) | UnresolvedAlerts | SoakBlocker(check: SoakCheck)
        | IncidentBlocker(incident: IncidentCheck)
    | GameDayBlocker(gameDay: GameDayCheck)

  datatype Report = Report(
    schemaVersion: int, releaseCandidate: string, source: Source, environmentId: string, generated: bool,
    eligible: bool, productionClaim: bool, observationSha: Digest, soakSha: Digest, incidentSha: Digest,
    gameDaySha: Digest, targets: seq<Target>, failedTargets: seq<TargetId>, blockers: seq<Blocker>)

  function Envelope(o: Observation): int { (o.end - o.start) / SECOND }

  predicate WindowFits(t: Target, envelope: int) { t.window.Some? ==> t.window.value <= envelope }

  predicate ObservationAccepted(o: Observation, d: Dispatch) {
    && o.releaseCandidate == d.releaseCandidate && o.source == Source(d.commit, false)
    && o.environmentId == d.environment && o.os == "linux" && o.configurationSha.Sha256? && o.datasetSha.Sha256?
    && o.start < o.end && Envelope(o) >= MONTH
    && |o.alerts| <= 1000 && (forall a | a in o.alerts :: AlertOk(a, o.start, o.end))
    && SlisOk(o.slis)
    && (forall t | t in Targets(o.slis) :: WindowFits(t, Envelope(o))) && o.slis.healthySeconds <= Envelope(o)
  }

  predicate DispatchAccepted(d: Dispatch) {
    IsReleaseTag(d.releaseCandidate, 50) && IsCommit(d.commit) && IsSafeId(d.environment)
  }

  function FailedTargets(ts: seq<Target>): (r: seq<TargetId>)
    ensures r == [] <==> forall t | t in ts :: t.passed
    ensures forall id :: id in r <==> exists t :: t in ts && !t.passed && t.id == id
  {
    if ts == [] then []
    else
      var rest := FailedTargets(ts[1..]);
      assert ts == [ts[0]] + ts[1..];
      if ts[0].passed then rest else [ts[0].id] + rest
  }

  function Tag<A, B>(xs: seq<A>, f: A -> B): (r: seq<B>)
    ensures |r| == |xs| && forall i | 0 <= i < |xs| :: r[i] == f(xs[i])
  {
    seq(|xs|, i requires 0 <= i < |xs| => f(xs[i]))
  }

  function TargetBlockers(targets: seq<TargetId>): seq<Blocker> { Tag(targets, id => TargetFailed(id)) }

  function AllBlockers(targets: seq<TargetId>, unresolved: nat, soak: seq<SoakCheck>, incident: seq<IncidentCheck>,
                       gameDay: seq<GameDayCheck>): seq<Blocker>
  {
    TargetBlockers(targets) + (if unresolved != 0 then [UnresolvedAlerts] else []) +
    Tag(soak, c => SoakBlocker(c)) + Tag(incident, c => IncidentBlocker(c)) + Tag(gameDay, c => GameDayBlocker(c))
  }

  datatype Inputs = Inputs(
    observation: File<Observation>, soak: File<Soak>, incident: File<Incident>, gameDay: File<GameDay.Report>)

  predicate Accepted(inp: Inputs, d: Dispatch) {
    && DispatchAccepted(d) && ObservationAccepted(inp.observation.value, d)
    && SoakAccepted(inp.soak.value, d) && IncidentAccepted(inp.incident.value, d)
    && GameDayAccepted(inp.gameDay.value, d)
  }

  function BlockersOf(inp: Inputs): seq<Blocker> {
    AllBlockers(FailedTargets(Targets(inp.observation.value.slis)), Unresolved(inp.observation.value.alerts),
                SoakFailures(inp.soak.value), IncidentFailures(inp.incident.value),
                GameDayFailures(inp.gameDay.value, inp.gameDay.Sha(), inp.observation.value.slis.gameDaySha))
  }

  function ReportOf(inp: Inputs, d: Dispatch): Report {
    var targets, blockers := Targets(inp.observation.value.slis), BlockersOf(inp);
    Report(1, d.releaseCandidate, Source(d.commit, false), d.environment, true, blockers == [], false,
           inp.observation.Sha(), inp.soak.Sha(), inp.incident.Sha(), inp.gameDay.Sha(), targets,
           FailedTargets(targets), blockers)
  }

  method Evaluate(inp: Inputs, d: Dispatch) returns (r: Outcome<Report>)
    ensures r.Accept? <==> Accepted(inp, d)
    ensures r.Accept? ==> r.value == ReportOf(inp, d)
  {
    hide DispatchAccepted, SoakAccepted, IncidentAccepted, GameDayAccepted, AlertOk, SlisOk, Targets, SoakFailures;
    hide IncidentFailures, GameDayFailures, AllBlockers, FailedTargets;
    var o := inp.observation.value;
    if !DispatchAccepted(d) { return Reject; }
    if o.releaseCandidate != d.releaseCandidate || o.source != Source(d.commit, false) { return Reject; }
    if o.environmentId != d.environment || o.os != "linux" { return Reject; }
    if !o.configurationSha.Sha256? || !o.datasetSha.Sha256? { return Reject; }
    if o.end <= o.start || Envelope(o) < MONTH { return Reject; }
    var alertsOk, unresolved := ValidateAlerts(o.alerts, o.start, o.end);
    if !alertsOk || !SlisOk(o.slis) { return Reject; }
    var targets := Targets(o.slis);
    if exists t | t in targets :: !WindowFits(t, Envelope(o)) { return Reject; }
    if o.slis.healthySeconds > Envelope(o) { return Reject; }
    if !SoakAccepted(inp.soak.value, d) || !IncidentAccepted(inp.incident.value, d) { return Reject; }
    var gameDay :- ValidateGameDay(inp.gameDay.value, inp.gameDay.Sha(), o.slis.gameDaySha, d);
    var failed := FailedTargets(targets);
    var blockers := AllBlockers(failed, unresolved, SoakFailures(inp.soak.value), IncidentFailures(inp.incident.value),
                                gameDay);
    r := Accept(Report(1, d.releaseCandidate, o.source, o.environmentId, true, blockers == [], false,
                       inp.observation.Sha(), inp.soak.Sha(), inp.incident.Sha(), inp.gameDay.Sha(), targets, failed,
                       blockers));
  }

  // ----- monotonicity --------------------------------------------------------------------

  /** The same traffic with no fewer successes: requests moved from failed, timed out or cancelled. */
  predicate NoWorse(r: Requests, r': Requests) {
    r'.window == r.window && r'.Total() == r.Total() && r'.success >= r.success && r'.Ok()
  }

  /** Only request outcomes improve and only policy-rejection counts change freely. */
  predicate Improves(s: Slis, s': Slis) {
    && NoWorse(s.availability, s'.availability) && NoWorse(s.llm, s'.llm) && NoWorse(s.tool, s'.tool)
    && s'.llmRejected >= 0 && s'.toolRejected >= 0
    && s' == s.(availability := s'.availability, llm := s'.llm, tool := s'.tool,
                llmRejected := s'.llmRejected, toolRejected := s'.toolRejected)
  }

  lemma RatioMonotone(r: Requests, r': Requests, threshold: real)
    requires NoWorse(r, r') && RatioAtLeast(r, threshold)
    ensures RatioAtLeast(r', threshold)
  {
    var t := r.Total() as real;
    var a, b := r.success as real, r'.success as real;
    assert a / t * t == a && b / t * t == b;
    assert b / t >= a / t;
  }

  lemma RequestTargetMonotone(id: TargetId, r: Requests, r': Requests, w: int, v: int, threshold: real,
                              extra: seq<(Check, bool)>)
    requires NoWorse(r, r')
    ensures NoWorseTarget(RequestTarget(id, r, w, v, threshold, extra), RequestTarget(id, r', w, v, threshold, extra))
  {
    var base := [(Window, r.window >= w), (Volume, r.Total() >= v), (SuccessRatio, RatioAtLeast(r, threshold))];
    var base' := [(Window, r'.window >= w), (Volume, r'.Total() >= v), (SuccessRatio, RatioAtLeast(r', threshold))];
    if RequestTarget(id, r, w, v, threshold, extra).passed {
      assert (base + extra)[0].1 && (base + extra)[1].1 && (base + extra)[2].1;
      RatioMonotone(r, r', threshold);
      forall i | 0 <= i < |base' + extra| ensures (base' + extra)[i].1 {
        if i >= 3 { assert (base' + extra)[i] == (base + extra)[i]; }
      }
    }
  }

  lemma TargetsMonotone(s: Slis, s': Slis)
    requires Improves(s, s')
    ensures |Targets(s)| == |Targets(s')| == 9
    ensures forall i | 0 <= i < 9 ::
              Targets(s)[i].id == Targets(s')[i].id && Targets(s)[i].window == Targets(s')[i].window
    ensures forall i | 0 <= i < 9 :: Targets(s)[i].passed ==> Targets(s')[i].passed
  {
    hide AvailabilityTarget, LatencyTarget, QueueTarget, LlmTarget, ToolTarget, DenialTarget, DurabilityTarget;
    hide RecoveryTarget, IsolationTarget, Improves;
    RequestTargetsMonotone(s, s');
    OtherTargetsKept(s, s');
    var ts, ts' := Targets(s), Targets(s');
    forall i | 0 <= i < 9
      ensures ts[i].id == ts'[i].id && ts[i].window == ts'[i].window && (ts[i].passed ==> ts'[i].passed)
    {
      assert i == 0 || i == 1 || i == 2 || i == 3 || i == 4 || i == 5 || i == 6 || i == 7 || i == 8;
    }
  }

  lemma RequestTargetsMonotone(s: Slis, s': Slis)
    requires Improves(s, s')
    ensures NoWorseTarget(AvailabilityTarget(s), AvailabilityTarget(s'))
    ensures NoWorseTarget(LlmTarget(s), LlmTarget(s'))
    ensures NoWorseTarget(ToolTarget(s), ToolTarget(s'))
  {
    hide NoWorse, MakeTarget, Failing, RatioAtLeast;
    RequestTargetMonotone(Availability, s.availability, s'.availability, MONTH, 100_000, 0.995, []);
    RequestTargetMonotone(LlmSuccess, s.llm, s'.llm, DAY, 1_000, 0.99, [(LiveProvider, s.liveProviderPassed)]);
    RequestTargetMonotone(ToolSuccess, s.tool, s'.tool, DAY, 1_000, 0.995, []);
  }

  predicate NoWorseTarget(t: Target, t': Target) { t.id == t'.id && t.window == t'.window && (t.passed ==> t'.passed) }

  lemma OtherTargetsKept(s: Slis, s': Slis)
    requires Improves(s, s')
    ensures LatencyTarget(s) == LatencyTarget(s') && QueueTarget(s) == QueueTarget(s')
    ensures DenialTarget(s) == DenialTarget(s') && DurabilityTarget(s) == DurabilityTarget(s')
    ensures RecoveryTarget(s) == RecoveryTarget(s')
    ensures IsolationTarget(s) == IsolationTarget(s')
  {
    hide MakeTarget, Failing, NoWorse;
  }

  lemma FewerFailedTargets(ts: seq<Target>, ts': seq<Target>)
    requires |ts| == |ts'| && forall i | 0 <= i < |ts| :: ts[i].id == ts'[i].id && (ts[i].passed ==> ts'[i].passed)
    ensures forall id | id in FailedTargets(ts') :: id in FailedTargets(ts)
  {
    hide FailedTargets;
    forall id | id in FailedTargets(ts') ensures id in FailedTargets(ts) {
      var t :| t in ts' && !t.passed && t.id == id;
      var i :| 0 <= i < |ts'| && ts'[i] == t;
      assert ts[i] in ts && !ts[i].passed && ts[i].id == id;
    }
  }

  lemma FewerTargetBlockers(xs: seq<TargetId>, ys: seq<TargetId>)
    requires forall x | x in xs :: x in ys
    ensures forall b | b in TargetBlockers(xs) :: b in TargetBlockers(ys)
  {
    forall b | b in TargetBlockers(xs) ensures b in TargetBlockers(ys) {
      var i :| 0 <= i < |xs| && TargetBlockers(xs)[i] == b;
      assert xs[i] in ys;
      var j :| 0 <= j < |ys| && ys[j] == xs[i];
      assert TargetBlockers(ys)[j] == b;
    }
  }

  /** Improving request outcomes, or changing only rejection counts, keeps the observation accepted,
      never fails a target that passed and never adds a blocker. */
  lemma EvaluationMonotone(inp: Inputs, inp': Inputs, d: Dispatch)
    requires Accepted(inp, d)
    requires inp'.observation.value == inp.observation.value.(slis := inp'.observation.value.slis)
    requires Improves(inp.observation.value.slis, inp'.observation.value.slis)
    requires inp'.soak == inp.soak && inp'.incident == inp.incident && inp'.gameDay == inp.gameDay
    ensures Accepted(inp', d)
    ensures forall i | 0 <= i < |Targets(inp.observation.value.slis)| ::
              i < |Targets(inp'.observation.value.slis)| &&
              (Targets(inp.observation.value.slis)[i].passed ==> Targets(inp'.observation.value.slis)[i].passed)
    ensures forall b | b in ReportOf(inp', d).blockers :: b in ReportOf(inp, d).blockers
    ensures ReportOf(inp, d).eligible ==> ReportOf(inp', d).eligible
  {
    hide Targets, FailedTargets, SoakFailures, IncidentFailures, GameDayFailures, AlertOk, GameDayAccepted;
    hide SoakAccepted;
    hide DispatchAccepted, IsSafeId;
    var s, s' := inp.observation.value.slis, inp'.observation.value.slis;
    TargetsMonotone(s, s');
    FewerFailedTargets(Targets(s), Targets(s'));
    FewerTargetBlockers(FailedTargets(Targets(s')), FailedTargets(Targets(s)));
    forall t | t in Targets(s') ensures WindowFits(t, Envelope(inp'.observation.value)) {
      var i :| 0 <= i < 9 && Targets(s')[i] == t;
      assert Targets(s)[i] in Targets(s);
    }
    OtherBlockersKept(inp, inp');
    if ReportOf(inp', d).blockers != [] { assert ReportOf(inp', d).blockers[0] in ReportOf(inp, d).blockers; }
  }

  lemma OtherBlockersKept(inp: Inputs, inp': Inputs)
    requires inp'.observation.value == inp.observation.value.(slis := inp'.observation.value.slis)
    requires inp'.observation.value.slis.gameDaySha == inp.observation.value.slis.gameDaySha
    requires inp'.soak == inp.soak && inp'.incident == inp.incident && inp'.gameDay == inp.gameDay
    requires forall b | b in TargetBlockers(FailedTargets(Targets(inp'.observation.value.slis))) ::
               b in TargetBlockers(FailedTargets(Targets(inp.observation.value.slis)))
    ensures forall b | b in BlockersOf(inp') :: b in BlockersOf(inp)
  {
    hide Targets, FailedTargets, SoakFailures, IncidentFailures, GameDayFailures;
  }

  // ----- what the targets mean -----------------------------------------------------------

  lemma RatioMeans(r: Requests, numerator: int, denominator: int)
    requires denominator > 0
    ensures RatioAtLeast(r, numerator as real / denominator as real) <==>
            r.Total() > 0 && r.success * denominator >= numerator * r.Total()
  {
    if r.Total() > 0 {
      var t, q, n, s := r.Total() as real, denominator as real, numerator as real, r.success as real;
      assert s / t * t == s && n / q * q == n;
      assert (s / t - n / q) * (t * q) == s * q - n * t;
      if s / t >= n / q {
        assert (s / t - n / q) * (t * q) >= 0.0;
      } else {
        assert (n / q - s / t) * (t * q) > 0.0;
      }
      assert (r.success * denominator) as real == s * q && (numerator * r.Total()) as real == n * t;
    }
  }

  /** The request targets of the release contract, in whole-number arithmetic: 99.5% of at least
      100000 requests over 30 days; 99% of at least 1000 model calls over a day with the live
      provider qualified; 99.5% of at least 1000 tool calls over a day. */
  lemma RequestTargetsMean(s: Slis)
    ensures AvailabilityTarget(s).passed <==>
              s.availability.window >= 30 * DAY && s.availability.Total() >= 100_000 &&
              s.availability.success * 1000 >= 995 * s.availability.Total()
    ensures LlmTarget(s).passed <==>
              s.llm.window >= DAY && s.llm.Total() >= 1_000 &&
              s.llm.success * 100 >= 99 * s.llm.Total() && s.liveProviderPassed
    ensures ToolTarget(s).passed <==>
              s.tool.window >= DAY && s.tool.Total() >= 1_000 && s.tool.success * 1000 >= 995 * s.tool.Total()
  {
    hide Failing, RatioAtLeast;
    RatioMeans(s.availability, 995, 1000);
    RatioMeans(s.llm, 99, 100);
    RatioMeans(s.tool, 995, 1000);
    assert 995 as real / 1000 as real == 0.995 && 99 as real / 100 as real == 0.99;
    RequestTargetMeans(Availability, s.availability, MONTH, 100_000, 0.995, []);
    RequestTargetMeans(LlmSuccess, s.llm, DAY, 1_000, 0.99, [(LiveProvider, s.liveProviderPassed)]);
    RequestTargetMeans(ToolSuccess, s.tool, DAY, 1_000, 0.995, []);
  }

  lemma RequestTargetMeans(id: TargetId, r: Requests, w: int, v: int, threshold: real, extra: seq<(Check, bool)>)
    requires |extra| <= 1
    ensures RequestTarget(id, r, w, v, threshold, extra).passed <==>
              r.window >= w && r.Total() >= v && RatioAtLeast(r, threshold) && (extra != [] ==> extra[0].1)
  {
    hide Failing, RatioAtLeast;
    var checks := [(Window, r.window >= w), (Volume, r.Total() >= v),
                   (SuccessRatio, RatioAtLeast(r, threshold))] + extra;
    assert |checks| > 3 ==> checks[3] == extra[0];
    assert checks[0].1 == (r.window >= w) && checks[1].1 == (r.Total() >= v)
           && checks[2].1 == RatioAtLeast(r, threshold);
  }

  /** The other targets of the release contract: latency under a second and half a minute at the
      ninety-fifth percentile; a mean wait under a quarter second without starvation; no unexpected
      allow; a month of healthy ledger with a fresh backup; every interrupted turn accounted for;
      no isolation violation and a completed game day. */
  lemma OtherTargetsMean(s: Slis)
    ensures LatencyTarget(s).passed <==>
              s.latencyWindow >= DAY && s.controlRequests >= 10_000 && s.agentRequests >= 1_000 &&
              s.controlP95 < 1.0 && s.agentP95 < 30.0
    ensures QueueTarget(s).passed <==>
              s.queueWindow >= DAY && s.admissions >= 10_000 &&
              4.0 * s.waitSeconds < s.admissions as real && s.starvation == 0
    ensures DenialTarget(s).passed <==> s.denialAttempts >= 100 && s.unexpectedAllows == 0
    ensures DurabilityTarget(s).passed <==>
              s.healthySeconds >= 30 * DAY && s.unhealthySeconds == 0 && s.backupAge <= 90_000.0 && s.restorePassed
    ensures RecoveryTarget(s).passed <==>
              s.attempted >= 100 && s.recovered + s.safeRejected == s.attempted && s.crossTenant == 0
    ensures IsolationTarget(s).passed <==> s.isolationAttempts >= 100 && s.violations == 0 && s.gameDayCompleted
  {
    hide Failing, LatencyTarget, QueueTarget, DurabilityTarget;
    LatencyMeans(s);
    QueueMeans(s);
    DurabilityMeans(s);
    ThreeChecks([(Volume, s.attempted >= 100), (AllAccounted, s.recovered + s.safeRejected == s.attempted),
                 (ZeroCrossTenant, s.crossTenant == 0)]);
    ThreeChecks([(Volume, s.isolationAttempts >= 100), (ZeroViolations, s.violations == 0),
                 (GameDayDone, s.gameDayCompleted)]);
    TwoChecks([(Volume, s.denialAttempts >= 100), (ZeroAllows, s.unexpectedAllows == 0)]);
  }

  predicate AllHold(checks: seq<(Check, bool)>) { forall i | 0 <= i < |checks| :: checks[i].1 }

  lemma TwoChecks(c: seq<(Check, bool)>)
    requires |c| == 2
    ensures AllHold(c) <==> c[0].1 && c[1].1
  {
  }

  lemma ThreeChecks(c: seq<(Check, bool)>)
    requires |c| == 3
    ensures AllHold(c) <==> c[0].1 && c[1].1 && c[2].1
  {
  }

  lemma LatencyMeans(s: Slis)
    ensures LatencyTarget(s).passed <==>
              s.latencyWindow >= DAY && s.controlRequests >= 10_000 && s.agentRequests >= 1_000 &&
              s.controlP95 < 1.0 && s.agentP95 < 30.0
  {
    hide Failing;
    var c := [(Window, s.latencyWindow >= DAY), (Volume, s.controlRequests >= 10_000),
              (AgentVolume, s.agentRequests >= 1_000), (ControlP95, s.controlP95 < 1.0), (AgentP95, s.agentP95 < 30.0)];
    assert c[0].1 == (s.latencyWindow >= DAY) && c[1].1 == (s.controlRequests >= 10_000);
    assert c[2].1 == (s.agentRequests >= 1_000) && c[3].1 == (s.controlP95 < 1.0) && c[4].1 == (s.agentP95 < 30.0);
  }

  lemma QueueMeans(s: Slis)
    ensures QueueTarget(s).passed <==>
              s.queueWindow >= DAY && s.admissions >= 10_000 &&
              4.0 * s.waitSeconds < s.admissions as real && s.starvation == 0
  {
    hide Failing;
    MeanWaitMeans(s.waitSeconds, s.admissions);
    var c := [(Window, s.queueWindow >= DAY), (Volume, s.admissions >= 10_000),
              (MeanWait, s.admissions > 0 && s.waitSeconds / s.admissions as real < 0.25),
              (ZeroStarvation, s.starvation == 0)];
    assert c[0].1 == (s.queueWindow >= DAY) && c[1].1 == (s.admissions >= 10_000) && c[3].1 == (s.starvation == 0);
    assert c[2].1 == (s.admissions > 0 && s.waitSeconds / s.admissions as real < 0.25);
  }

  lemma DurabilityMeans(s: Slis)
    ensures DurabilityTarget(s).passed <==>
              s.healthySeconds >= 30 * DAY && s.unhealthySeconds == 0 && s.backupAge <= 90_000.0 && s.restorePassed
  {
    hide Failing;
    var c := [(LedgerObserved, s.healthySeconds >= MONTH), (LedgerHealthy, s.unhealthySeconds == 0),
              (BackupFresh, s.backupAge <= 90_000.0), (RestorePassed, s.restorePassed)];
    assert c[0].1 == (s.healthySeconds >= MONTH) && c[1].1 == (s.unhealthySeconds == 0);
    assert c[2].1 == (s.backupAge <= 90_000.0) && c[3].1 == s.restorePassed;
  }

  lemma MeanWaitMeans(wait: real, admissions: int)
    ensures admissions > 0 ==> (wait / admissions as real < 0.25 <==> 4.0 * wait < admissions as real)
  {
    if admissions > 0 {
      var n := admissions as real;
      assert wait / n * n == wait;
      assert (0.25 - wait / n) * n == 0.25 * n - wait;
    }
  }

  /** A report is eligible exactly when all nine targets pass, every alert is resolved and the soak, the
      incident drill and the human game day fail no check. */
  lemma EligibleMeans(inp: Inputs, d: Dispatch)
    ensures ReportOf(inp, d).eligible <==>
              && (forall t | t in Targets(inp.observation.value.slis) :: t.passed)
              && (forall a | a in inp.observation.value.alerts :: a.resolvedAt.Some?)
              && SoakFailures(inp.soak.value) == [] && IncidentFailures(inp.incident.value) == []
              && GameDayFailures(inp.gameDay.value, inp.gameDay.Sha(), inp.observation.value.slis.gameDaySha) == []
  {
    hide Targets, FailedTargets, SoakFailures, IncidentFailures, GameDayFailures;
    var failed := FailedTargets(Targets(inp.observation.value.slis));
    UnresolvedNone(inp.observation.value.alerts);
    assert ReportOf(inp, d).eligible <==> |BlockersOf(inp)| == 0;
    assert |TargetBlockers(failed)| == |failed|;
  }

  /** The soak clears exactly when an unscaled release build soaked a day with every check true. */
  lemma SoakClears(s: Soak)
    ensures SoakFailures(s) == [] <==>
              && s.buildProfile == "release" && !s.smokeScaled && s.eligible && !s.productionClaim && s.passed
              && GameDay.AllTrue(s.checks) && s.durationSeconds >= DAY && s.elapsedSeconds >= DAY as real
              && s.samples >= 1_000
  {
    hide Failing;
    var c := SoakChecksOf(s);
    assert c[0].1 == (s.buildProfile == "release") && c[1].1 == !s.smokeScaled && c[2].1 == s.eligible
           && c[3].1 == !s.productionClaim;
    assert c[4].1 == s.passed && c[5].1 == GameDay.AllTrue(s.checks) && c[6].1 == (s.durationSeconds >= DAY);
    assert c[7].1 == (s.elapsedSeconds >= DAY as real) && c[8].1 == (s.samples >= 1_000);
  }
}

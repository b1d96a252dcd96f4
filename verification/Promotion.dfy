/** scripts/phase1_promotion_qualification.py: evidence validators and the promotion decision. */
module Promotion {
  import opened Primitives
  import opened LiveProviderPlan
  import opened Campaign
  import WP = WorkflowProvenance
  import WA = WorkflowAgreement
  import CP = CampaignProvenance
  import Review
  import RP = ReviewProvenance
  import GameDay
  import ReleaseSlo
  import StorageProfile
  import ExternalDeletion

  /** The named boolean results of a report, at top level and by section. */
  datatype Flags = Flags(top: map<string, bool>, sections: map<string, map<string, bool>>)

  datatype Identity = Identity(releaseCandidate: string, source: Source, environmentId: string, productionClaim: bool)

  datatype Evidence =
    | LinuxCli(linux: Identity, linuxFlags: Flags)
    | ProviderPlan(commit: string, planClaim: bool, selected: seq<string>, available: Catalog, status: string)
    | Provider(provider: string, model: string, providerStatus: string, contentNonempty: bool, toolCalls: int)
    | OnDevice(device: Identity, deviceFlags: Flags)
    | RemoteBackup(backup: Identity, backupPassed: bool, backupEligible: bool)
    | Storage(storage: StorageProfile.Report)
    | Deletion(deletion: ExternalDeletion.Report)
    | SoakEvidence(soak: ReleaseSlo.Soak)
    | SloEvidence(slo: ReleaseSlo.Report)
    | GameDayEvidence(gameDay: GameDay.Report)

  datatype Check =
    | Flag(path: FlagPath) | Passed | Completed | Eligible | ReviewerIndependent | ReviewChecks | ReviewPassed
    | Decision | Status | Response | ReleaseProfile | ConfiguredDuration | ElapsedDuration | Generated | AllTargets
    | NoBlockers

  /** The results a path reads from; a missing section is refused, a missing flag only blocks. */
  function Section(flags: Flags, path: FlagPath): Outcome<map<string, bool>> {
    match path
    case Top(_) => Accept(flags.top)
    case In(section, _) => if section in flags.sections then Accept(flags.sections[section]) else Reject
  }

  predicate Holds(flags: Flags, path: FlagPath) {
    var section := Section(flags, path);
    section.Accept? && path.name in section.value && section.value[path.name]
  }

  /** The flags of a table that are not true, in table order. */
  function FailedFlags(flags: Flags, table: seq<FlagPath>): Outcome<seq<Check>> {
    if table == [] then Accept([])
    else
      var section :- Section(flags, table[0]);
      var rest :- FailedFlags(flags, table[1..]);
      Accept(if Holds(flags, table[0]) then rest else [Flag(table[0])] + rest)
  }

  predicate Identifies(x: Identity, d: Dispatch, environment: Option<string>) {
    && x.releaseCandidate == d.releaseCandidate && x.source == Source(d.commit, false) && !x.productionClaim
    && (environment.Some? ==> x.environmentId == environment.value)
  }

  function ValidateStorage(r: StorageProfile.Report, d: Dispatch): Outcome<seq<Check>> {
    if !Identifies(Identity(r.releaseCandidate, r.source, r.environmentId, r.productionClaim), d,
                   Some(d.environment)) then Reject
    else Accept(ReleaseSlo.Failing([(Passed, r.passed), (Completed, r.completed), (Eligible, r.eligible),
                                    (ReviewerIndependent, r.independent), (ReviewChecks, r.allChecksPassed),
                                    (Decision, r.decision == "approved")]))
  }

  function ValidateDeletion(r: ExternalDeletion.Report, d: Dispatch): Outcome<seq<Check>> {
    if !Identifies(Identity(r.releaseCandidate, r.source, r.environmentId, r.productionClaim), d,
                   Some(d.environment)) then Reject
    else Accept(ReleaseSlo.Failing([(Passed, r.passed), (Completed, r.inventoryComplete), (Eligible, r.eligible),
                                    (ReviewerIndependent, r.independent), (ReviewChecks, r.allChecksPassed),
                                    (Decision, r.decision == "approved")]))
  }

  function ValidateSoak(r: ReleaseSlo.Soak, d: Dispatch): Outcome<seq<Check>> {
    if r.schemaVersion != 1 || r.productionClaim then Reject
    else if r.source != Source(d.commit, false) || r.environmentId != d.environment then Reject
    else Accept(ReleaseSlo.Failing([(ReleaseProfile, r.buildProfile == "release" && !r.smokeScaled), (Passed, r.passed),
                                    (Eligible, r.eligible), (ConfiguredDuration, r.durationSeconds >= ReleaseSlo.DAY),
                                    (ElapsedDuration, r.elapsedSeconds >= ReleaseSlo.DAY as real)]))
  }

  function SloChecks(r: ReleaseSlo.Report): seq<(Check, bool)> {
    [(Generated, r.generated), (Eligible, r.eligible), (AllTargets, forall t | t in r.targets :: t.passed),
     (NoBlockers, r.failedTargets == [] && r.blockers == [])]
  }

  function ValidateSlo(r: ReleaseSlo.Report, d: Dispatch): Outcome<seq<Check>> {
    if !Identifies(Identity(r.releaseCandidate, r.source, r.environmentId, r.productionClaim), d,
                   Some(d.environment)) then Reject
    else if r.schemaVersion != 1 || |r.targets| != 9 then Reject
    else Accept(ReleaseSlo.Failing(SloChecks(r)))
  }

  function ValidateGameDay(r: GameDay.Report, d: Dispatch): Outcome<seq<Check>> {
    if !Identifies(Identity(r.releaseCandidate, r.source, r.environment.environmentId, r.productionClaim), d,
                   Some(d.environment)) then Reject
    else if r.schemaVersion != 1 then Reject
    else Accept(ReleaseSlo.Failing([(Passed, r.passed), (Completed, r.completed), (Eligible, r.eligible),
                                    (ReviewerIndependent, r.review.independent), (ReviewPassed, r.review.passed),
                                    (Decision, r.review.decision == "approved"),
                                    (NoBlockers, r.failedScenarios == [] && r.blockers == [])]))
  }

  /** What the decision asks of one report: a refusal, or the checks that block promotion. */
  function ValidateEvidence(k: Contract, id: string, e: Evidence, d: Dispatch, onDevice: string,
                            providers: seq<string>): Outcome<seq<Check>> {
    match EvidenceSpec(k, id)
    case None => Reject
    case Some(spec) =>
      match (spec.kind, e)
      case (LinuxCliKind, LinuxCli(x, flags)) => if Identifies(x, d, None) then FailedFlags(flags, k.linuxChecks)
      else Reject
      case (PlanKind, ProviderPlan(commit, claim, selected, available, status)) =>
        if commit != d.commit || claim || selected != providers || available != k.catalog then Reject
        else Accept(ReleaseSlo.Failing([(Status, status == "ready")]))
      case (ProviderKind, Provider(provider, model, status, contentNonempty, toolCalls)) =>
        if !IsProviderId(id) || provider != ProviderOf(id) || !IsBoundedText(model, 512) || toolCalls < 0 then Reject
        else Accept(ReleaseSlo.Failing([(Status, status == "passed"), (Response, contentNonempty || toolCalls > 0)]))
      case (OnDeviceKind, OnDevice(x, flags)) => if Identifies(x, d, Some(onDevice))
          then FailedFlags(flags, k.onDeviceChecks) else Reject
      case (BackupKind, RemoteBackup(x, passed, eligible)) =>
        if Identifies(x, d, Some(d.environment))
        then Accept(ReleaseSlo.Failing([(Passed, passed), (Eligible, eligible)])) else Reject
      case (StorageKind, Storage(r)) => ValidateStorage(r, d)
      case (DeletionKind, Deletion(r)) => ValidateDeletion(r, d)
      case (SoakKind, SoakEvidence(r)) => ValidateSoak(r, d)
      case (SloKind, SloEvidence(r)) => ValidateSlo(r, d)
      case (GameDayKind, GameDayEvidence(r)) => ValidateGameDay(r, d)
      case _ => Reject
  }

  /** A flag table clears exactly when every listed flag is true, and is refused exactly when a
      section is missing. */
  lemma {:induction false} FlagsClear(flags: Flags, table: seq<FlagPath>)
    ensures FailedFlags(flags, table).Accept? <==> forall i | 0 <= i < |table| :: Section(flags, table[i]).Accept?
    ensures FailedFlags(flags, table) == Accept([]) <==> forall i | 0 <= i < |table| :: Holds(flags, table[i])
  {
    if table != [] {
      FlagsClear(flags, table[1..]);
      assert forall i | 1 <= i < |table| :: table[i] == table[1..][i - 1];
    }
  }

  // ----- the decision --------------------------------------------------------------------

  datatype Inputs = Inputs(
    campaign: File<Manifest>, campaignProvenance: CP.Report, workflowProvenance: WP.Report, review: File<Review.Record>,
    reviewProvenance: RP.Provenance, evidence: map<string, File<Evidence>>, campaignRunId: int)

  datatype Blocker = EvidenceBlocker(id: string, check: Check) | ReviewBlocker(review: Review.Blocker)

  datatype Retained = Retained(evidenceId: string, sha256: Digest, workflow: string, runId: int, attempt: int)

  datatype Ruling = Ruling(ready: bool, blockers: seq<Blocker>, retained: seq<Retained>)

  /** The verdict on the report that backs one campaign entry. */
  function Verdict(k: Contract, inp: Inputs, d: Dispatch, a: Artifact): Outcome<seq<Check>> {
    if a.path !in inp.evidence || inp.evidence[a.path].Sha() != a.sha256 then Reject
    else ValidateEvidence(k, a.evidenceId, inp.evidence[a.path].value, d, inp.campaign.value.onDeviceEnvironment,
                          inp.campaign.value.providers)
  }

  function RetainedOf(a: Artifact): Retained { Retained(a.evidenceId, a.sha256, a.workflowPath, a.runId, a.runAttempt) }

  /** The service-level report hashed the very soak and game-day reports the campaign lists. */
  predicate SloBinds(inp: Inputs, records: map<string, Artifact>) {
    && SLO_ID in records && SOAK_ID in records && GAME_DAY_ID in records
    && records[SLO_ID].path in inp.evidence && inp.evidence[records[SLO_ID].path].value.SloEvidence?
    && inp.evidence[records[SLO_ID].path].value.slo.soakSha == records[SOAK_ID].sha256
    && inp.evidence[records[SLO_ID].path].value.slo.gameDaySha == records[GAME_DAY_ID].sha256
  }

  predicate OneRepository(inp: Inputs) {
    inp.campaignProvenance.repository == inp.review.value.workflow.repository == inp.workflowProvenance.repository
  }

  /** The inputs the decision is made on, rather than refused. */
  ghost predicate Decidable(k: Contract, inp: Inputs, d: Dispatch, now: Micros) {
    var c := inp.campaign.value;
    && IsReleaseCandidate(d.releaseCandidate) && IsCommit(d.commit) && IsIdentifier(d.environment)
    && CampaignOk(k, c, d, now)
    && CP.ProvenanceOk(k, inp.campaignProvenance, inp.campaign.Sha(), d, inp.campaignRunId, c.artifacts, now)
    && WA.ProvenanceOk(inp.workflowProvenance, inp.campaign.Sha(), d, c.artifacts, now)
    && (forall a | a in c.artifacts :: Verdict(k, inp, d, a).Accept?)
    && SloBinds(inp, Records(c.artifacts))
    && Review.ReviewAccepted(k, inp.review.value, inp.campaign, d, now)
    && RP.ProvenanceAccepted(inp.reviewProvenance, inp.campaign.Sha(), inp.review, d, now)
    && OneRepository(inp)
  }

  /** A release candidate is ready: decidable, no report is blocked and the review clears. */
  ghost predicate Ready(k: Contract, inp: Inputs, d: Dispatch, now: Micros) {
    && Decidable(k, inp, d, now)
    && (forall a | a in inp.campaign.value.artifacts :: Verdict(k, inp, d, a) == Accept([]))
    && Review.Clear(k, inp.review.value, inp.campaign)
  }

  function Tagged(id: string, checks: seq<Check>): (r: seq<Blocker>)
    ensures |r| == |checks| && forall i | 0 <= i < |r| :: r[i] == EvidenceBlocker(id, checks[i])
  {
    seq(|checks|, i requires 0 <= i < |checks| => EvidenceBlocker(id, checks[i]))
  }

  /** The evidence loop, over the records in id order. */
  method JudgeEvidence(records: map<string, Artifact>, verdict: Artifact -> Outcome<seq<Check>>,
                       ghost artifacts: seq<Artifact>)
    returns (r: Outcome<Ruling>)
    requires Ascending(Ids(artifacts)) && records == Records(artifacts)
    ensures r.Accept? <==> forall j | 0 <= j < |artifacts| :: verdict(artifacts[j]).Accept?
    ensures r.Accept? ==> (r.value.blockers == [] <==> forall j | 0 <= j < |artifacts| ::
        verdict(artifacts[j]) == Accept([]))
    ensures r.Accept? ==> |r.value.retained| == |artifacts| && forall i | 0 <= i < |artifacts| ::
        r.value.retained[i] == RetainedOf(artifacts[i])
  {
    hide RetainedOf, Records, TextLess;
    var ids := WP.SortedKeys(records, artifacts);
    AscendingIffSortedDistinct(ids);
    assert |ids| == |artifacts| && forall i | 0 <= i < |ids| :: ids[i] == artifacts[i].evidenceId;
    var blockers: seq<Blocker>, retained: seq<Retained> := [], [];
    for i := 0 to |ids|
      invariant forall j | 0 <= j < i :: verdict(artifacts[j]).Accept?
      invariant blockers == [] <==> forall j | 0 <= j < i :: verdict(artifacts[j]) == Accept([])
      invariant |retained| == i && forall j | 0 <= j < i :: retained[j] == RetainedOf(artifacts[j])
    {
      RecordsLookup(artifacts, i);
      var record := records[ids[i]];
      var checks := verdict(record);
      if checks.Reject? {
        return Reject;
      }
      blockers := blockers + Tagged(ids[i], checks.value);
      retained := retained + [RetainedOf(record)];
    }
    r := Accept(Ruling(blockers == [], blockers, retained));
  }

  /** The decision: `Ready` is exactly what it reports, whatever files it is given. */
  method Evaluate(k: Contract, inp: Inputs, d: Dispatch, now: Micros) returns (r: Outcome<Ruling>)
    requires NamedIds(k)
    ensures r.Accept? <==> Decidable(k, inp, d, now)
    ensures r.Accept? ==> (r.value.ready <==> Ready(k, inp, d, now)) && (r.value.ready <==> r.value.blockers == [])
    ensures r.Accept? ==> |r.value.retained| == |inp.campaign.value.artifacts|
    ensures r.Accept? ==> forall i | 0 <= i < |r.value.retained| ::
        r.value.retained[i] == RetainedOf(inp.campaign.value.artifacts[i])
  {
    hide CampaignOk, CP.ProvenanceOk, WA.ProvenanceOk, Verdict, SloBinds, Review.ReviewAccepted, RP.ProvenanceAccepted;
    hide OneRepository;
    hide Review.Clear, RetainedOf, Records, IsReleaseCandidate, IsCommit, IsIdentifier, Ids, WA.PlainEntry;
    if !IsReleaseCandidate(d.releaseCandidate) || !IsCommit(d.commit) || !IsIdentifier(d.environment) { return Reject; }
    var c := inp.campaign.value;
    var parsed :- ParseCampaign(k, c, d, now);
    EntriesArePlain(k, c, d, now);
    if !CP.ProvenanceOk(k, inp.campaignProvenance, inp.campaign.Sha(), d, inp.campaignRunId, c.artifacts,
                        now) { return Reject; }
    var workflowsOk := WA.ParseWorkflowProvenance(inp.workflowProvenance, inp.campaign.Sha(), d, parsed, now,
                                                  c.artifacts);
    if !workflowsOk { return Reject; }
    var judged :- JudgeEvidence(parsed.records, a => Verdict(k, inp, d, a), c.artifacts);
    if !SloBinds(inp, parsed.records) { return Reject; }
    var review :- Review.ParseReview(k, inp.review.value, inp.campaign, parsed, d, now);
    if !RP.ProvenanceAccepted(inp.reviewProvenance, inp.campaign.Sha(), inp.review, d, now) { return Reject; }
    if !OneRepository(inp) { return Reject; }
    var blockers := judged.blockers + seq(|review|, i requires 0 <= i < |review| => ReviewBlocker(review[i]));
    r := Accept(Ruling(blockers == [], blockers, judged.retained));
  }

  lemma EntriesArePlain(k: Contract, c: Manifest, d: Dispatch, now: Micros)
    requires CampaignOk(k, c, d, now)
    ensures Ascending(Ids(c.artifacts)) && c.artifacts != [] && |c.artifacts| <= MAX_ARTIFACTS
    ensures forall a | a in c.artifacts :: WA.PlainEntry(a)
  {
    hide IsIdentifier, EvidenceSpec;
    WP.CampaignAscends(k, c, d, now);
  }

  // ----- byte binding --------------------------------------------------------------------

  /** The bytes read for an evidence id. */
  function EvidenceBytes(inp: Inputs, a: Artifact): Bytes
    requires a.path in inp.evidence
  {
    inp.evidence[a.path].bytes
  }

  /** Every report a decision rests on has the bytes that the campaign and the workflow provenance name. */
  lemma ByteBinding(k: Contract, inp: Inputs, d: Dispatch, now: Micros)
    requires Decidable(k, inp, d, now)
    ensures var artifacts, verified := inp.campaign.value.artifacts, inp.workflowProvenance.artifacts;
            && |verified| == |artifacts|
            && (forall i | 0 <= i < |artifacts| ::
                  && artifacts[i].path in inp.evidence
                  && Sha256(EvidenceBytes(inp, artifacts[i])) == artifacts[i].sha256 == verified[i].sha256
                  && verified[i].evidenceId == artifacts[i].evidenceId
                  && (verified[i].runId, verified[i].attempt) == RunKey(artifacts[i]))
  {
    hide CampaignOk, WP.IsRunList, IsIdentifier, IsCommit, IsReleaseCandidate, ValidateEvidence, CP.ProvenanceOk;
    hide SloBinds;
    hide Review.ReviewAccepted, RP.ProvenanceAccepted, OneRepository;
    var artifacts := inp.campaign.value.artifacts;
    forall i | 0 <= i < |artifacts|
      ensures artifacts[i].path in inp.evidence && Sha256(EvidenceBytes(inp, artifacts[i])) == artifacts[i].sha256
    {
      assert Verdict(k, inp, d, artifacts[i]).Accept?;
    }
    assert WA.EntriesMatch(inp.workflowProvenance.artifacts, artifacts);
  }

  /** The soak and game-day bytes are those the service-level report hashed. */
  lemma SloBytesBinding(k: Contract, inp: Inputs, d: Dispatch, now: Micros)
    requires Decidable(k, inp, d, now)
    ensures var records := Records(inp.campaign.value.artifacts);
            && SLO_ID in records && SOAK_ID in records && GAME_DAY_ID in records
            && (var slo, soak, gameDay := records[SLO_ID].path, records[SOAK_ID].path, records[GAME_DAY_ID].path;
                && slo in inp.evidence && soak in inp.evidence && gameDay in inp.evidence
                && inp.evidence[slo].value.SloEvidence?
                && inp.evidence[slo].value.slo.soakSha == inp.evidence[soak].Sha()
                && inp.evidence[slo].value.slo.gameDaySha == inp.evidence[gameDay].Sha())
  {
    hide CampaignOk, CP.ProvenanceOk, WA.ProvenanceOk, Review.ReviewAccepted, RP.ProvenanceAccepted, OneRepository;
    hide IsIdentifier, IsCommit, IsReleaseCandidate, ValidateEvidence, Records, SLO_ID, SOAK_ID, GAME_DAY_ID;
    var records := Records(inp.campaign.value.artifacts);
    assert Verdict(k, inp, d, records[SOAK_ID]).Accept? && Verdict(k, inp, d, records[GAME_DAY_ID]).Accept?;
  }

  /** Two decisions on one campaign read the same bytes for every evidence id. */
  lemma DecisionsReadTheSameBytes(k: Contract, x: Inputs, y: Inputs, d: Dispatch, e: Dispatch, now: Micros,
                                  other: Micros, a: Artifact)
    requires Decidable(k, x, d, now) && Decidable(k, y, e, other)
    requires x.campaign == y.campaign && a in x.campaign.value.artifacts
    ensures a.path in x.evidence && a.path in y.evidence && EvidenceBytes(x, a) == EvidenceBytes(y, a)
  {
    hide CampaignOk, CP.ProvenanceOk, WA.ProvenanceOk, SloBinds, Review.ReviewAccepted, RP.ProvenanceAccepted;
    hide ValidateEvidence;
    assert Verdict(k, x, d, a).Accept? && Verdict(k, y, e, a).Accept?;
  }
}

/** scripts/phase1_independent_review.py and its consumer in scripts/phase1_promotion_qualification.py:
    the reviewer's record and the signed review made from it. */
module Review {
  import opened Primitives
  import opened LiveProviderPlan
  import opened Campaign
  import CampaignProvenance

  const OBSERVATION_SCHEMA := 1
  const REVIEW_SCHEMA := 2

  datatype Observation = Observation(
    schemaVersion: int, qualificationClass: Class, releaseCandidate: string, source: Source, profileId: string,
    targetEnvironment: string, onDeviceEnvironment: string, campaignSha: Digest, operators: seq<string>,
    reviewer: string, reviewedAt: Micros, decision: string, checks: map<string, bool>, findings: seq<string>)

  datatype ReviewWorkflow = ReviewWorkflow(
    repository: string, workflow: string, event: string, runId: int, attempt: int, headSha: string)

  datatype Record = Record(
    schemaVersion: int, qualificationClass: Class, releaseCandidate: string, source: Source, profileId: string,
    targetEnvironment: string, onDeviceEnvironment: string, campaignSha: Digest, operators: seq<string>,
    reviewer: string, reviewedAt: Micros, decision: string, checks: map<string, bool>, findings: seq<string>,
    attestationSha: Digest, workflow: ReviewWorkflow)

  predicate FindingsOk(findings: seq<string>) {
    |findings| <= 20 && forall i | 0 <= i < |findings| :: IsBoundedText(findings[i], 300)
  }

  predicate Independent(k: Contract, reviewer: string, operators: seq<string>) {
    Fold(reviewer) !in FoldedMembers(operators) && Fold(reviewer) !in k.reserved
  }

  // ----- the producer --------------------------------------------------------------------

  /** Fields of the observation that bind it to the campaign and its reviewer. */
  predicate ObservationBinds(k: Contract, o: Observation, campaign: File<Manifest>, d: Dispatch, actor: string) {
    && o.schemaVersion == OBSERVATION_SCHEMA && o.qualificationClass == ObservationClass
    && o.releaseCandidate == d.releaseCandidate && o.source == Source(d.commit, false) && o.profileId == k.profileId
    && o.targetEnvironment == d.environment && o.onDeviceEnvironment == campaign.value.onDeviceEnvironment
    && o.campaignSha == campaign.Sha()
    && CanonicalIds(o.operators, 1, 10) && o.operators == campaign.value.operators
    && IsLogin(o.reviewer) && Fold(o.reviewer) == Fold(actor)
    && Independent(k, o.reviewer, campaign.value.operators)
    && o.checks.Keys == Members(k.reviewChecks) && FindingsOk(o.findings)
    && (o.decision == "approved" || o.decision == "rejected")
  }

  /** The observation is timely: after every completion in `times`, at most thirty days after the
      last of them, and not from the future. */
  ghost predicate Timely(reviewedAt: Micros, times: seq<Micros>, now: Micros) {
    && reviewedAt <= now + CLOCK_SKEW
    && (forall t | t in times :: t <= reviewedAt)
    && (exists t :: t in times && reviewedAt - t <= THIRTY_DAYS)
  }

  datatype Inputs = Inputs(
    campaign: File<Manifest>, provenance: CampaignProvenance.Report, observation: File<Observation>, actor: string,
    repository: string, runId: int, attempt: int, campaignRunId: int)

  function ReviewTimes(inp: Inputs): seq<Micros> {
    CompletionTimes(inp.campaign.value.artifacts) + [inp.provenance.workflow.updatedAt]
  }

  /** The inputs build_review accepts at clock `now`. */
  ghost predicate CanReview(k: Contract, inp: Inputs, d: Dispatch, now: Micros) {
    && IsLogin(inp.actor) && IsRepository(inp.repository) && inp.runId > 0 && inp.attempt == 1
    && CampaignOk(k, inp.campaign.value, d, now)
    && CampaignProvenance.ProvenanceOk(k, inp.provenance, inp.campaign.Sha(), d, inp.campaignRunId,
                                       inp.campaign.value.artifacts, now)
    && ObservationBinds(k, inp.observation.value, inp.campaign, d, inp.actor)
    && Timely(inp.observation.value.reviewedAt, ReviewTimes(inp), now)
  }

  function ReviewOf(k: Contract, inp: Inputs, d: Dispatch): Record {
    var o := inp.observation.value;
    Record(REVIEW_SCHEMA, ReviewClass, d.releaseCandidate, Source(d.commit, false), k.profileId, d.environment,
           inp.campaign.value.onDeviceEnvironment, inp.campaign.Sha(), inp.campaign.value.operators,
           inp.actor, o.reviewedAt, o.decision, o.checks, o.findings, inp.observation.Sha(),
           ReviewWorkflow(inp.repository, k.reviewWorkflow, CampaignProvenance.DISPATCH_EVENT, inp.runId, inp.attempt,
                          d.commit))
  }

  lemma TimelyByLatest(reviewedAt: Micros, times: seq<Micros>, latest: Micros, now: Micros)
    requires IsMax(latest, times)
    ensures Timely(reviewedAt, times, now) <==>
            reviewedAt <= now + CLOCK_SKEW && latest <= reviewedAt && reviewedAt - latest <= THIRTY_DAYS
  {
  }

  method BuildReview(k: Contract, inp: Inputs, d: Dispatch, now: Micros) returns (r: Outcome<Record>)
    requires NamedIds(k)
    ensures r.Accept? <==> CanReview(k, inp, d, now)
    ensures r.Accept? ==> r.value == ReviewOf(k, inp, d)
  {
    hide CampaignOk, CampaignProvenance.ProvenanceOk, ObservationBinds, IsRepository, IsLogin, Timely, ReviewOf;
    if !IsLogin(inp.actor) || !IsRepository(inp.repository) || inp.runId <= 0 || inp.attempt != 1 { return Reject; }
    var parsed :- ParseCampaign(k, inp.campaign.value, d, now);
    if !CampaignProvenance.ProvenanceOk(k, inp.provenance, inp.campaign.Sha(), d, inp.campaignRunId,
                                        inp.campaign.value.artifacts, now) { return Reject; }
    var times := parsed.completionTimes + [inp.provenance.workflow.updatedAt];
    if !ObservationBinds(k, inp.observation.value, inp.campaign, d, inp.actor) { return Reject; }
    var latest := Max(times);
    var reviewedAt := inp.observation.value.reviewedAt;
    TimelyByLatest(reviewedAt, times, latest, now);
    if reviewedAt > now + CLOCK_SKEW || reviewedAt < latest || reviewedAt - latest > THIRTY_DAYS { return Reject; }
    r := Accept(ReviewOf(k, inp, d));
  }

  // ----- the consumer --------------------------------------------------------------------

  predicate RecordBinds(k: Contract, r: Record, campaign: File<Manifest>, d: Dispatch, now: Micros) {
    && r.schemaVersion == REVIEW_SCHEMA && r.qualificationClass == ReviewClass
    && r.releaseCandidate == d.releaseCandidate && r.source == Source(d.commit, false) && r.profileId == k.profileId
    && r.targetEnvironment == d.environment && r.onDeviceEnvironment == campaign.value.onDeviceEnvironment
    && r.campaignSha == campaign.Sha()
    && CanonicalIds(r.operators, 1, 10) && r.operators == campaign.value.operators
    && IsIdentifier(r.reviewer)
    && r.reviewedAt <= now + CLOCK_SKEW
    && r.checks.Keys == Members(k.reviewChecks) && FindingsOk(r.findings) && r.attestationSha.Sha256?
    && IsIdentifier(r.workflow.repository) && r.workflow.workflow == k.reviewWorkflow
    && r.workflow.event == CampaignProvenance.DISPATCH_EVENT
    && r.workflow.runId > 0 && r.workflow.attempt == 1 && r.workflow.headSha == d.commit
  }

  /** The reviews _parse_review accepts for a parsed campaign. */
  predicate ReviewAccepted(k: Contract, r: Record, campaign: File<Manifest>, d: Dispatch, now: Micros) {
    RecordBinds(k, r, campaign, d, now) && CampaignProvenance.NotBefore(campaign.value.artifacts, r.reviewedAt)
  }

  datatype Blocker = ReviewerIndependent | Decision | Check(id: string) | OpenFindings | ReviewDelay

  /** The failed checks, in the order of the check list. */
  function FailedChecks(ids: seq<string>, checks: map<string, bool>): seq<Blocker> {
    if ids == [] then []
    else (if ids[0] in checks && checks[ids[0]] then [] else [Check(ids[0])]) + FailedChecks(ids[1..], checks)
  }

  function Blockers(k: Contract, r: Record, operators: seq<string>, latest: Micros): seq<Blocker> {
    (if Independent(k, r.reviewer, operators) then [] else [ReviewerIndependent]) +
    (if r.decision == "approved" then [] else [Decision]) +
    FailedChecks(k.reviewChecks, r.checks) +
    (if r.findings == [] then [] else [OpenFindings]) +
    (if r.reviewedAt - latest > THIRTY_DAYS then [ReviewDelay] else [])
  }

  predicate AllChecksTrue(k: Contract, checks: map<string, bool>) {
    forall i | 0 <= i < |k.reviewChecks| :: k.reviewChecks[i] in checks && checks[k.reviewChecks[i]]
  }

  /** The review was made within thirty days of the last evidence. */
  ghost predicate Prompt(reviewedAt: Micros, artifacts: seq<Artifact>) {
    exists a :: a in artifacts && reviewedAt - a.completedAt <= THIRTY_DAYS
  }

  /** A review clears the promotion stage. */
  ghost predicate Clear(k: Contract, r: Record, campaign: File<Manifest>) {
    && Independent(k, r.reviewer, campaign.value.operators) && r.decision == "approved"
    && AllChecksTrue(k, r.checks) && r.findings == []
    && Prompt(r.reviewedAt, campaign.value.artifacts)
  }

  method ParseReview(k: Contract, r: Record, campaign: File<Manifest>, parsed: Parsed, d: Dispatch, now: Micros)
    returns (blockers: Outcome<seq<Blocker>>)
    requires parsed == ParsedOf(campaign.value) && campaign.value.artifacts != []
    ensures blockers.Accept? <==> ReviewAccepted(k, r, campaign, d, now)
    ensures blockers.Accept? ==> (blockers.value == [] <==> Clear(k, r, campaign))
  {
    hide RecordBinds, Independent, Clear, FailedChecks;
    if !RecordBinds(k, r, campaign, d, now) { return Reject; }
    var latest := Max(parsed.completionTimes);
    assert CompletionTimes(campaign.value.artifacts) == parsed.completionTimes;
    assert latest <= r.reviewedAt <==> CampaignProvenance.NotBefore(campaign.value.artifacts, r.reviewedAt);
    if r.reviewedAt < latest { return Reject; }
    blockers := Accept(Blockers(k, r, campaign.value.operators, latest));
    NoBlockers(k, r, campaign, latest);
  }

  lemma {:induction false} NoFailedChecks(ids: seq<string>, checks: map<string, bool>)
    ensures FailedChecks(ids, checks) == [] <==> forall i | 0 <= i < |ids| :: ids[i] in checks && checks[ids[i]]
  {
    if ids != [] {
      NoFailedChecks(ids[1..], checks);
      assert forall i | 1 <= i < |ids| :: ids[i] == ids[1..][i - 1];
    }
  }

  lemma NoBlockers(k: Contract, r: Record, campaign: File<Manifest>, latest: Micros)
    requires IsMax(latest, CompletionTimes(campaign.value.artifacts))
    ensures Blockers(k, r, campaign.value.operators, latest) == [] <==> Clear(k, r, campaign)
  {
    hide Independent, FailedChecks;
    NoFailedChecks(k.reviewChecks, r.checks);
    var times := CompletionTimes(campaign.value.artifacts);
    var i :| 0 <= i < |times| && times[i] == latest;
    assert campaign.value.artifacts[i] in campaign.value.artifacts;
    forall a | a in campaign.value.artifacts ensures a.completedAt <= latest {
      var j :| 0 <= j < |times| && campaign.value.artifacts[j] == a;
      assert times[j] == a.completedAt;
    }
  }

  // ----- the round trip ------------------------------------------------------------------

  /** Every review build_review writes is accepted for its campaign at any later clock, exactly when
      the repository fits an identifier; it then clears exactly when it approves, every check is
      true, nothing is open and it is prompt with respect to the evidence alone. The producer
      measures promptness from the later assembly time, so a review it accepts can still be late. */
  lemma ReviewRoundTrip(k: Contract, inp: Inputs, d: Dispatch, now: Micros, later: Micros)
    requires CanReview(k, inp, d, now) && now <= later
    ensures var r := ReviewOf(k, inp, d);
            && (ReviewAccepted(k, r, inp.campaign, d, later) <==> |inp.repository| <= MAX_IDENTIFIER)
            && (Clear(k, r, inp.campaign) <==>
                  && inp.observation.value.decision == "approved"
                  && AllChecksTrue(k, inp.observation.value.checks) && inp.observation.value.findings == []
                  && Prompt(inp.observation.value.reviewedAt, inp.campaign.value.artifacts))
  {
    hide CampaignOk, CampaignProvenance.ProvenanceOk, FindingsOk, CanonicalIds, IsIdentifier, IsRepository, IsLogin;
    RepositoryIsIdentifier(inp.repository);
    LoginIsIdentifier(inp.actor);
    var times := ReviewTimes(inp);
    forall i | 0 <= i < |inp.campaign.value.artifacts|
      ensures inp.campaign.value.artifacts[i].completedAt <= inp.observation.value.reviewedAt
    {
      assert times[i] in times;
    }
  }

  /** A built review lies between the assembly it reviews and its own clock. */
  lemma ReviewOrder(k: Contract, inp: Inputs, d: Dispatch, now: Micros)
    requires CanReview(k, inp, d, now)
    ensures forall a | a in inp.campaign.value.artifacts :: a.completedAt <= inp.provenance.workflow.updatedAt
    ensures inp.provenance.workflow.updatedAt <= ReviewOf(k, inp, d).reviewedAt <= now + CLOCK_SKEW
  {
    hide CampaignOk, ObservationBinds, IsIdentifier, IsRepository, IsLogin;
    var times := ReviewTimes(inp);
    assert times[|times| - 1] in times;
  }

  /** Evidence at one instant, then an assembly, then a review within thirty days of the assembly: timely
      for build_review, and prompt for promotion exactly when it is within thirty days of the evidence. */
  lemma TimelyAfterAssembly(artifacts: seq<Artifact>, completedAt: Micros, assembled: Micros, reviewedAt: Micros,
                            now: Micros)
    requires artifacts != [] && forall i | 0 <= i < |artifacts| :: artifacts[i].completedAt == completedAt
    requires completedAt <= assembled <= reviewedAt <= now && reviewedAt - assembled <= THIRTY_DAYS
    ensures Timely(reviewedAt, CompletionTimes(artifacts) + [assembled], now)
    ensures Prompt(reviewedAt, artifacts) <==> reviewedAt - completedAt <= THIRTY_DAYS
  {
    var times := CompletionTimes(artifacts) + [assembled];
    assert times[|artifacts|] in times && times[|artifacts|] == assembled;
    assert artifacts[0] in artifacts;
  }
}

/** scripts/phase1_review_provenance.py and its consumer in scripts/phase1_promotion_qualification.py:
    the signed review, tied to the reviewer's own workflow run. */
module ReviewProvenance {
  import opened Primitives
  import opened LiveProviderPlan
  import opened Campaign
  import opened GitHub
  import opened CP = CampaignProvenance
  import Review

  const REVIEW_FILE := "phase1-review.json"
  const REVIEW_SIGNATURE_FILE := "phase1-review.json.sigstore.json"

  datatype Provenance = Provenance(
    schemaVersion: int, qualificationClass: Class, generatedAt: Micros, repository: string, releaseCandidate: string,
    source: Source, campaignSha: Digest, reviewSha: Digest, workflow: WorkflowRun, signatureSha: Digest,
    identityAuthenticated: bool, workflowVerified: bool, bytesVerified: bool, signatureVerified: bool,
    productionClaim: bool)

  datatype Evidence = Evidence(
    repository: string, runId: int, metadata: RunMetadata, bundle: map<string, Bytes>, signatureAccepted: bool)

  predicate ReviewRunOk(k: Contract, m: RunMetadata, r: Review.Record, repository: string, now: Micros) {
    && m.id > 0 && m.id == r.workflow.runId && m.attempt > 0 && m.attempt == r.workflow.attempt
    && PathPart(m.path) == Accept(k.reviewWorkflow) && m.headSha == r.workflow.headSha && m.event == DISPATCH_EVENT
    && Succeeded(m, repository)
    && IsLogin(r.reviewer)
    && IsLogin(m.actor) && Fold(m.actor) == Fold(r.reviewer)
    && IsLogin(m.triggeringActor) && Fold(m.triggeringActor) == Fold(r.reviewer)
    && r.reviewedAt <= m.updatedAt <= now + CLOCK_SKEW
  }

  predicate ReviewBundleOk(review: File<Review.Record>, bundle: map<string, Bytes>) {
    && bundle.Keys == {REVIEW_FILE, REVIEW_SIGNATURE_FILE}
    && Sha256(bundle[REVIEW_FILE]) == review.Sha()
  }

  /** The inputs verify_provenance accepts for a campaign and a review that both parse. */
  predicate CanAuthenticate(k: Contract, review: File<Review.Record>, e: Evidence, now: Micros) {
    && IsRepository(e.repository) && e.runId > 0 && review.value.workflow.runId == e.runId
    && review.value.workflow.repository == e.repository
    && ReviewRunOk(k, e.metadata, review.value, e.repository, now)
    && ReviewBundleOk(review, e.bundle) && e.signatureAccepted
  }

  function ProvenanceOf(campaign: File<Manifest>, review: File<Review.Record>, d: Dispatch, e: Evidence,
                        now: Micros): Provenance
    requires REVIEW_SIGNATURE_FILE in e.bundle
  {
    var w := review.value.workflow;
    Provenance(SCHEMA_VERSION, ReviewProvenanceClass, Later(now, e.metadata.updatedAt), e.repository,
               d.releaseCandidate, Source(d.commit, false), campaign.Sha(), review.Sha(),
               WorkflowRun(w.runId, w.attempt, w.workflow, w.headSha, w.event, e.metadata.updatedAt),
               Sha256(e.bundle[REVIEW_SIGNATURE_FILE]), true, true, true, true, false)
  }

  method Authenticate(k: Contract, campaign: File<Manifest>, review: File<Review.Record>, d: Dispatch, e: Evidence,
                      now: Micros)
    returns (r: Outcome<Provenance>)
    requires NamedIds(k)
    ensures r.Accept? <==>
              && CampaignOk(k, campaign.value, d, now) && Review.ReviewAccepted(k, review.value, campaign, d, now)
              && CanAuthenticate(k, review, e, now)
    ensures r.Accept? ==> r.value == ProvenanceOf(campaign, review, d, e, now)
  {
    hide ArtifactOk, HeaderOk, Review.ReviewAccepted, ReviewRunOk, IsRepository;
    if !IsRepository(e.repository) { return Reject; }
    var parsed :- ParseCampaign(k, campaign.value, d, now);
    NonEmpty(k, campaign.value, d, now);
    var blockers :- Review.ParseReview(k, review.value, campaign, parsed, d, now);
    if !CanAuthenticate(k, review, e, now) { return Reject; }
    r := Accept(ProvenanceOf(campaign, review, d, e, now));
  }

  lemma NonEmpty(k: Contract, c: Manifest, d: Dispatch, now: Micros)
    requires CampaignOk(k, c, d, now)
    ensures c.artifacts != []
  {
    hide ArtifactOk, IsIdentifier, OperatorsOk;
  }

  /** The records the promotion stage accepts for a campaign and a review. */
  predicate ProvenanceAccepted(p: Provenance, campaignSha: Digest, review: File<Review.Record>, d: Dispatch,
                               now: Micros) {
    var r := review.value;
    && p.schemaVersion == SCHEMA_VERSION && p.qualificationClass == ReviewProvenanceClass
    && p.releaseCandidate == d.releaseCandidate && p.source == Source(d.commit, false)
    && IsIdentifier(p.repository) && p.repository == r.workflow.repository
    && p.campaignSha == campaignSha && p.reviewSha == review.Sha() && p.signatureSha.Sha256?
    && p.identityAuthenticated && p.workflowVerified && p.bytesVerified && p.signatureVerified && !p.productionClaim
    && p.generatedAt <= now + CLOCK_SKEW && r.reviewedAt <= p.generatedAt
    && p.workflow.runId > 0 && p.workflow.runId == r.workflow.runId
    && p.workflow.attempt > 0 && p.workflow.attempt == r.workflow.attempt
    && p.workflow.workflow == r.workflow.workflow && p.workflow.headSha == r.workflow.headSha
    && p.workflow.event == r.workflow.event
    && r.reviewedAt <= p.workflow.updatedAt && p.workflow.updatedAt <= p.generatedAt
  }

  /** Producer and consumer always agree on an accepted review, at any later clock; the record
      lies after the review and its workflow, and its reviewer ran that workflow. */
  lemma ProducerConsumerAgree(k: Contract, campaign: File<Manifest>, review: File<Review.Record>, d: Dispatch,
                              e: Evidence, now: Micros, later: Micros)
    requires Review.ReviewAccepted(k, review.value, campaign, d, now) && CanAuthenticate(k, review, e, now)
    requires now <= later
    ensures ProvenanceAccepted(ProvenanceOf(campaign, review, d, e, now), campaign.Sha(), review, d, later)
    ensures e.bundle[REVIEW_FILE] == review.bytes
    ensures Fold(e.metadata.actor) == Fold(review.value.reviewer) == Fold(e.metadata.triggeringActor)
  {
    hide IsIdentifier, IsRepository, IsLogin, PathPart, CanonicalIds, Review.FindingsOk, NotBefore;
  }
}

/** scripts/phase1_campaign_provenance.py and its consumer in scripts/phase1_promotion_qualification.py:
    the signed campaign bundle, tied to the assembly workflow run. */
module CampaignProvenance {
  import opened Primitives
  import opened LiveProviderPlan
  import opened Campaign
  import opened GitHub

  const CAMPAIGN_FILE := "campaign.json"
  const SIGNATURE_FILE := "campaign.json.sigstore.json"
  const DISPATCH_EVENT := "workflow_dispatch"

  datatype WorkflowRun = WorkflowRun(
    runId: int, attempt: int, workflow: string, headSha: string, event: string, updatedAt: Micros)

  datatype Report = Report(
    schemaVersion: int, qualificationClass: Class, generatedAt: Micros, repository: string, releaseCandidate: string,
    source: Source, campaignSha: Digest, workflow: WorkflowRun, signatureSha: Digest,
    workflowVerified: bool, bytesVerified: bool, signatureVerified: bool, productionClaim: bool)

  /** What the verifier is given besides the campaign; `signatureAccepted` is the signature tool's answer. */
  datatype Inputs = Inputs(
    repository: string, runId: int, metadata: RunMetadata, bundle: map<string, Bytes>, signatureAccepted: bool)

  function Later(a: Micros, b: Micros): Micros { if a < b then b else a }

  predicate NotBefore(artifacts: seq<Artifact>, t: Micros) {
    forall i | 0 <= i < |artifacts| :: artifacts[i].completedAt <= t
  }

  predicate AssemblyRunOk(k: Contract, m: RunMetadata, inp: Inputs, d: Dispatch, operators: seq<string>, now: Micros) {
    && m.id > 0 && m.id == inp.runId && m.attempt == 1
    && PathPart(m.path) == Accept(k.campaignWorkflow) && m.headSha == d.commit && m.event == DISPATCH_EVENT
    && Succeeded(m, inp.repository)
    && IsLogin(m.actor) && Fold(m.actor) in FoldedMembers(operators)
    && IsLogin(m.triggeringActor) && Fold(m.triggeringActor) in FoldedMembers(operators)
    && m.updatedAt <= now + CLOCK_SKEW
  }

  /** The downloaded bundle holds exactly the campaign, its signature and every listed report. */
  predicate BundleOk(campaign: File<Manifest>, bundle: map<string, Bytes>) {
    && bundle.Keys == {CAMPAIGN_FILE, SIGNATURE_FILE} + (set a | a in campaign.value.artifacts :: a.path)
    && CAMPAIGN_FILE in bundle && Sha256(bundle[CAMPAIGN_FILE]) == campaign.Sha()
    && (forall a | a in campaign.value.artifacts :: a.path in bundle && Sha256(bundle[a.path]) == a.sha256)
  }

  /** The inputs verify_provenance accepts for a campaign it has parsed. */
  predicate CanVerify(k: Contract, campaign: File<Manifest>, d: Dispatch, inp: Inputs, now: Micros) {
    && IsRepository(inp.repository) && inp.runId > 0
    && AssemblyRunOk(k, inp.metadata, inp, d, campaign.value.operators, now)
    && BundleOk(campaign, inp.bundle) && SIGNATURE_FILE in inp.bundle && inp.signatureAccepted
  }

  function ReportOf(k: Contract, campaign: File<Manifest>, d: Dispatch, inp: Inputs, now: Micros): Report
    requires SIGNATURE_FILE in inp.bundle
  {
    var updatedAt := inp.metadata.updatedAt;
    Report(SCHEMA_VERSION, CampaignProvenanceClass, Later(now, updatedAt), inp.repository, d.releaseCandidate,
           Source(d.commit, false), campaign.Sha(),
           WorkflowRun(inp.runId, 1, k.campaignWorkflow, d.commit, DISPATCH_EVENT, updatedAt),
           Sha256(inp.bundle[SIGNATURE_FILE]), true, true, true, false)
  }

  method VerifyProvenance(k: Contract, campaign: File<Manifest>, d: Dispatch, inp: Inputs, now: Micros)
    returns (r: Outcome<Report>)
    requires NamedIds(k)
    ensures r.Accept? <==> CampaignOk(k, campaign.value, d, now) && CanVerify(k, campaign, d, inp, now)
    ensures r.Accept? ==> r.value == ReportOf(k, campaign, d, inp, now)
  {
    hide CampaignOk, AssemblyRunOk, BundleOk;
    if !IsRepository(inp.repository) || inp.runId <= 0 { return Reject; }
    var parsed :- ParseCampaign(k, campaign.value, d, now);
    if !CanVerify(k, campaign, d, inp, now) { return Reject; }
    r := Accept(ReportOf(k, campaign, d, inp, now));
  }

  /** The reports the later stages accept for a campaign and an expected assembly run. */
  predicate ProvenanceOk(k: Contract, r: Report, campaignSha: Digest, d: Dispatch, runId: int,
                         artifacts: seq<Artifact>, now: Micros) {
    && r.schemaVersion == SCHEMA_VERSION && r.qualificationClass == CampaignProvenanceClass
    && r.releaseCandidate == d.releaseCandidate && r.source == Source(d.commit, false)
    && IsIdentifier(r.repository) && r.campaignSha == campaignSha && r.signatureSha.Sha256?
    && r.workflowVerified && r.bytesVerified && r.signatureVerified && !r.productionClaim
    && runId > 0 && r.workflow.runId == runId && r.workflow.attempt == 1
    && r.workflow.workflow == k.campaignWorkflow && r.workflow.event == DISPATCH_EVENT && r.workflow.headSha == d.commit
    && NotBefore(artifacts, r.workflow.updatedAt)
    && r.generatedAt <= now + CLOCK_SKEW && r.workflow.updatedAt <= r.generatedAt
  }

  /** Producer and consumer agree for the same dispatch at any later clock, exactly when the
      repository fits an identifier and the assembly finished no earlier than the evidence it
      lists; the producer does not check the second condition itself. */
  lemma ProducerConsumerAgree(k: Contract, campaign: File<Manifest>, d: Dispatch, inp: Inputs, now: Micros,
                              later: Micros)
    requires CanVerify(k, campaign, d, inp, now) && now <= later
    ensures ProvenanceOk(k, ReportOf(k, campaign, d, inp, now), campaign.Sha(), d, inp.runId, campaign.value.artifacts,
                         later) <==>
            |inp.repository| <= MAX_IDENTIFIER && NotBefore(campaign.value.artifacts, inp.metadata.updatedAt)
  {
    hide BundleOk, IsRepository, IsIdentifier, IsLogin, PathPart;
    RepositoryIsIdentifier(inp.repository);
  }

  /** The bundle that was authenticated is the campaign byte for byte, with every listed report. */
  lemma BundleIsCampaign(k: Contract, campaign: File<Manifest>, d: Dispatch, inp: Inputs, now: Micros)
    requires CanVerify(k, campaign, d, inp, now)
    ensures inp.bundle[CAMPAIGN_FILE] == campaign.bytes
    ensures forall a | a in campaign.value.artifacts :: a.path in inp.bundle && a.sha256 == Sha256(inp.bundle[a.path])
    ensures forall x | x in {inp.metadata.actor, inp.metadata.triggeringActor} ::
              exists o :: o in campaign.value.operators && Fold(o) == Fold(x)
  {
    hide IsRepository, IsLogin, PathPart;
    assert Fold(inp.metadata.actor) in FoldedMembers(campaign.value.operators);
    assert Fold(inp.metadata.triggeringActor) in FoldedMembers(campaign.value.operators);
  }
}

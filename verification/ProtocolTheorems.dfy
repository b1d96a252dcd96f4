/** Safety over every run of the evidence protocol, and what an honest run ends in. */
module ProtocolTheorems {
  import opened Primitives
  import opened LiveProviderPlan
  import opened Campaign
  import opened GitHub
  import opened Protocol
  import Assembly
  import AssemblyPlan
  import AT = AssemblyTheorems
  import CP = CampaignProvenance
  import WP = WorkflowProvenance
  import WA = WorkflowAgreement
  import Review
  import RP = ReviewProvenance
  import Promotion

  // ----- what a log entry says -----------------------------------------------------------

  lemma AssembledFacts(w: World, s: State, i: nat)
    requires Inv(w, s) && i < |s.log| && s.log[i].event.Assembled?
    ensures var e := s.log[i].event;
            && Assembly.CanAssemble(w.k, e.assembly, s.log[i].at)
            && Assembly.IsAssembly(w.k, e.assembly, e.campaign.value)
            && Assembly.ReportsMatch(e.campaign.value, e.reports) && e.campaign.value == w.manifest(e.campaign.bytes)
  {
    hide Assembly.CanAssemble, Assembly.IsAssembly, Assembly.ReportsMatch;
    assert Enabled(w, s.log[..i], s.log[i].event, s.log[i].at);
  }

  lemma CampaignVerifiedFacts(w: World, s: State, i: nat)
    requires Inv(w, s) && i < |s.log| && s.log[i].event.CampaignVerified?
    ensures var e := s.log[i].event;
            && e.bundle.metadata == w.assemblyRun(e.bundle.runId) && WasAssembled(s.log, e.campaign)
            && CampaignOk(w.k, e.campaign.value, e.dispatch, s.log[i].at)
            && CP.CanVerify(w.k, e.campaign, e.dispatch, e.bundle, s.log[i].at)
            && e.report == CP.ReportOf(w.k, e.campaign, e.dispatch, e.bundle, s.log[i].at)
  {
    hide CampaignOk, CP.AssemblyRunOk, CP.BundleOk;
    assert Enabled(w, s.log[..i], s.log[i].event, s.log[i].at);
  }

  lemma ReviewedFacts(w: World, s: State, i: nat)
    requires Inv(w, s) && i < |s.log| && s.log[i].event.Reviewed?
    ensures var e := s.log[i].event;
            && WasAssembled(s.log, e.observed.campaign) && HasCampaignReport(s.log, e.observed.provenance)
            && Review.CanReview(w.k, e.observed, e.dispatch, s.log[i].at)
            && e.review.value == Review.ReviewOf(w.k, e.observed, e.dispatch)
            && e.review.value == w.record(e.review.bytes)
  {
    hide Review.CanReview, Review.ReviewOf;
    assert Enabled(w, s.log[..i], s.log[i].event, s.log[i].at);
  }

  lemma DecidedFacts(w: World, s: State, i: nat)
    requires Inv(w, s) && i < |s.log| && s.log[i].event.Decided?
    ensures var e := s.log[i].event;
            && WasAssembled(s.log[..i], e.inputs.campaign) && HasCampaignReport(s.log, e.inputs.campaignProvenance)
            && WasReviewed(s.log, e.inputs.review) && HasReviewProvenance(s.log, e.inputs.reviewProvenance)
            && Promotion.Decidable(w.k, e.inputs, e.dispatch, s.log[i].at)
            && (e.ready <==> Promotion.Ready(w.k, e.inputs, e.dispatch, s.log[i].at))
  {
    hide Promotion.Decidable, Promotion.Ready;
    assert Enabled(w, s.log[..i], s.log[i].event, s.log[i].at);
  }

  lemma AuthenticatedFacts(w: World, s: State, i: nat)
    requires Inv(w, s) && i < |s.log| && s.log[i].event.Authenticated?
    ensures var e := s.log[i].event;
            && WasReviewed(s.log, e.review) && RP.CanAuthenticate(w.k, e.review, e.proof, s.log[i].at)
            && e.provenance == RP.ProvenanceOf(e.campaign, e.review, e.dispatch, e.proof, s.log[i].at)
  {
    hide CampaignOk, Review.ReviewAccepted, RP.ReviewRunOk, IsRepository;
    assert Enabled(w, s.log[..i], s.log[i].event, s.log[i].at);
  }

  /** A campaign's bytes determine it. */
  lemma AssembledDecodes(w: World, s: State, log: Log, c: File<Manifest>)
    requires Inv(w, s) && log <= s.log && WasAssembled(log, c)
    ensures c.value == w.manifest(c.bytes)
  {
    hide Enabled;
    var i :| 0 <= i < |log| && log[i].event.Assembled? && log[i].event.campaign == c;
    AssembledFacts(w, s, i);
  }

  lemma ReviewDecodes(w: World, s: State, review: File<Review.Record>)
    requires Inv(w, s) && WasReviewed(s.log, review)
    ensures review.value == w.record(review.bytes)
  {
    hide Enabled;
    var i :| 0 <= i < |s.log| && s.log[i].event.Reviewed? && s.log[i].event.review == review;
    ReviewedFacts(w, s, i);
  }

  // ----- separation of duties ------------------------------------------------------------

  /** In every run, the campaign of a ready decision was assembled before it, and its reviewer is,
      up to case, nobody who acted on that assembly or on any evidence run behind it. */
  lemma SeparationOfDuties(w: World, run: seq<State>, n: nat, i: nat, j: nat, login: string)
    requires IsRun(w, run) && n < |run| && i < |run[n].log| && j < |run[n].log|
    requires run[n].log[i].event.Decided? && run[n].log[i].event.ready
    requires run[n].log[j].event.Assembled?
    requires run[n].log[j].event.campaign.bytes == run[n].log[i].event.inputs.campaign.bytes
    requires login in Assembly.Logins(run[n].log[j].event.assembly)
    ensures WasAssembled(run[n].log[..i], run[n].log[i].event.inputs.campaign)
    ensures Fold(run[n].log[i].event.inputs.review.value.reviewer) != Fold(login)
  {
    hide Enabled, Inv, Assembly.Logins, Assembly.CanAssemble, Promotion.Decidable;
    RunKeepsInv(w, run, n);
    var s := run[n];
    var decision, assembled := s.log[i].event, s.log[j].event;
    DecidedFacts(w, s, i);
    AssembledFacts(w, s, j);
    AssembledDecodes(w, s, s.log[..i], decision.inputs.campaign);
    var c := decision.inputs.campaign.value;
    assert login in Members(c.operators);
    assert Fold(login) in FoldedMembers(c.operators);
    assert Review.Clear(w.k, decision.inputs.review.value, decision.inputs.campaign);
  }

  /** What the decision says about its campaign report. */
  lemma ReportBinds(k: Contract, inp: Promotion.Inputs, d: Dispatch, now: Micros)
    requires Promotion.Decidable(k, inp, d, now)
    ensures inp.campaignProvenance.workflow.runId == inp.campaignRunId
    ensures inp.campaignProvenance.campaignSha == inp.campaign.Sha()
  {
    hide CampaignOk, WA.ProvenanceOk, Promotion.Verdict, Promotion.SloBinds, Review.ReviewAccepted, IsIdentifier;
    hide IsCommit, IsReleaseCandidate, RP.ProvenanceAccepted, CP.NotBefore;
  }

  lemma AssemblyActors(k: Contract, campaign: File<Manifest>, d: Dispatch, inp: CP.Inputs, now: Micros)
    requires CP.CanVerify(k, campaign, d, inp, now)
    ensures Fold(inp.metadata.actor) in FoldedMembers(campaign.value.operators)
    ensures Fold(inp.metadata.triggeringActor) in FoldedMembers(campaign.value.operators)
  {
    hide CP.BundleOk, IsRepository, IsLogin, PathPart, FoldedMembers;
  }

  /** In every run, the reviewer of a ready decision is, up to case, neither the actor nor the
      triggering actor that GitHub records for the assembly run of that decision. */
  lemma ReviewerDidNotAssemble(w: World, run: seq<State>, n: nat, i: nat)
    requires IsRun(w, run) && n < |run| && i < |run[n].log|
    requires run[n].log[i].event.Decided? && run[n].log[i].event.ready
    ensures var inp := run[n].log[i].event.inputs;
            var m, reviewer := w.assemblyRun(inp.campaignRunId), inp.review.value.reviewer;
            Fold(reviewer) != Fold(m.actor) && Fold(reviewer) != Fold(m.triggeringActor)
  {
    hide Enabled, Inv, Promotion.Decidable, CampaignOk, CP.CanVerify, WasReviewed, HasReviewProvenance;
    RunKeepsInv(w, run, n);
    var s := run[n];
    var decision := s.log[i].event;
    DecidedFacts(w, s, i);
    ReportBinds(w.k, decision.inputs, decision.dispatch, s.log[i].at);
    var j :| 0 <= j < |s.log| && s.log[j].event.CampaignVerified?
             && s.log[j].event.report == decision.inputs.campaignProvenance;
    var e := s.log[j].event;
    CampaignVerifiedFacts(w, s, j);
    assert e.campaign.bytes == decision.inputs.campaign.bytes;
    AssembledDecodes(w, s, s.log, e.campaign);
    AssembledDecodes(w, s, s.log[..i], decision.inputs.campaign);
    AssemblyActors(w.k, e.campaign, e.dispatch, e.bundle, s.log[j].at);
    assert Review.Clear(w.k, decision.inputs.review.value, decision.inputs.campaign);
  }

  // ----- signed bytes --------------------------------------------------------------------

  lemma EvidenceIsListed(k: Contract, inp: Promotion.Inputs, d: Dispatch, now: Micros, a: Artifact)
    requires Promotion.Decidable(k, inp, d, now) && a in inp.campaign.value.artifacts
    ensures a.path in inp.evidence && Sha256(inp.evidence[a.path].bytes) == a.sha256
  {
    hide CampaignOk, CP.ProvenanceOk, WA.ProvenanceOk, Promotion.SloBinds, Review.ReviewAccepted, RP.ProvenanceAccepted;
    hide Promotion.ValidateEvidence, Promotion.OneRepository, IsIdentifier, IsCommit, IsReleaseCandidate;
    assert Promotion.Verdict(k, inp, d, a).Accept?;
  }

  /** In every run, a decision rests on a bundle that was downloaded from the assembly run it names and
      whose signature was accepted: the campaign and every report the decision read are, byte for byte,
      the files of that bundle. */
  lemma DecisionReadsSignedBundle(w: World, run: seq<State>, n: nat, i: nat) returns (j: nat)
    requires IsRun(w, run) && n < |run| && i < |run[n].log| && run[n].log[i].event.Decided?
    ensures j < |run[n].log| && run[n].log[j].event.CampaignVerified?
    ensures var inp, signed := run[n].log[i].event.inputs, run[n].log[j].event.bundle;
            && signed.runId == inp.campaignRunId && signed.signatureAccepted
            && CP.CAMPAIGN_FILE in signed.bundle && signed.bundle[CP.CAMPAIGN_FILE] == inp.campaign.bytes
            && (forall a | a in inp.campaign.value.artifacts ::
                  && a.path in signed.bundle && a.path in inp.evidence
                  && signed.bundle[a.path] == inp.evidence[a.path].bytes)
  {
    hide Enabled, Inv, Promotion.Decidable, CampaignOk, CP.AssemblyRunOk, WasReviewed, HasReviewProvenance;
    hide Promotion.Ready, IsRepository;
    RunKeepsInv(w, run, n);
    var s := run[n];
    var decision := s.log[i].event;
    DecidedFacts(w, s, i);
    ReportBinds(w.k, decision.inputs, decision.dispatch, s.log[i].at);
    j :| 0 <= j < |s.log| && s.log[j].event.CampaignVerified?
         && s.log[j].event.report == decision.inputs.campaignProvenance;
    var e := s.log[j].event;
    CampaignVerifiedFacts(w, s, j);
    assert e.campaign.bytes == decision.inputs.campaign.bytes;
    AssembledDecodes(w, s, s.log, e.campaign);
    AssembledDecodes(w, s, s.log[..i], decision.inputs.campaign);
    CP.BundleIsCampaign(w.k, e.campaign, e.dispatch, e.bundle, s.log[j].at);
    forall a | a in decision.inputs.campaign.value.artifacts
      ensures a.path in decision.inputs.evidence && Sha256(decision.inputs.evidence[a.path].bytes) == a.sha256
    {
      EvidenceIsListed(w.k, decision.inputs, decision.dispatch, s.log[i].at, a);
    }
  }

  // ----- time order ----------------------------------------------------------------------

  /** Two provenance reports of one assembly run agree on when it finished. */
  lemma OneFinishTime(w: World, s: State, p: CP.Report, q: CP.Report)
    requires Inv(w, s) && HasCampaignReport(s.log, p) && HasCampaignReport(s.log, q)
    requires p.workflow.runId == q.workflow.runId
    ensures p.workflow.updatedAt == q.workflow.updatedAt
  {
    hide Enabled, Inv, CampaignOk, CP.AssemblyRunOk, CP.BundleOk;
    var i :| 0 <= i < |s.log| && s.log[i].event.CampaignVerified? && s.log[i].event.report == p;
    var j :| 0 <= j < |s.log| && s.log[j].event.CampaignVerified? && s.log[j].event.report == q;
    CampaignVerifiedFacts(w, s, i);
    CampaignVerifiedFacts(w, s, j);
  }

  lemma RunIds(k: Contract, inp: Promotion.Inputs, d: Dispatch, now: Micros)
    requires Promotion.Decidable(k, inp, d, now)
    ensures inp.campaignProvenance.workflow.runId == inp.campaignRunId
    ensures forall a | a in inp.campaign.value.artifacts :: a.completedAt <= inp.campaignProvenance.workflow.updatedAt
    ensures inp.review.value.reviewedAt <= inp.reviewProvenance.workflow.updatedAt <= inp.reviewProvenance.generatedAt
    ensures inp.reviewProvenance.generatedAt <= now + CLOCK_SKEW
  {
    hide CampaignOk, WA.ProvenanceOk, Promotion.Verdict, Promotion.SloBinds, Review.ReviewAccepted, IsIdentifier;
    hide IsCommit, IsReleaseCandidate;
  }

  /** In every run, a decision whose review was dispatched for the same assembly run sees evidence,
      assembly, review, review workflow and review provenance in this order in time. */
  lemma TimeOrder(w: World, run: seq<State>, n: nat, i: nat, j: nat)
    requires IsRun(w, run) && n < |run| && i < |run[n].log| && j < |run[n].log|
    requires run[n].log[i].event.Decided? && run[n].log[j].event.Reviewed?
    requires run[n].log[j].event.review == run[n].log[i].event.inputs.review
    requires run[n].log[j].event.observed.campaignRunId == run[n].log[i].event.inputs.campaignRunId
    ensures var inp := run[n].log[i].event.inputs;
            && (forall a | a in inp.campaign.value.artifacts ::
                a.completedAt <= inp.campaignProvenance.workflow.updatedAt)
            && inp.campaignProvenance.workflow.updatedAt <= inp.review.value.reviewedAt
            && inp.review.value.reviewedAt <= inp.reviewProvenance.workflow.updatedAt
            && inp.reviewProvenance.workflow.updatedAt <= inp.reviewProvenance.generatedAt
            && inp.reviewProvenance.generatedAt <= run[n].log[i].at + CLOCK_SKEW
  {
    hide Enabled, Inv, Promotion.Decidable, Promotion.Ready, Review.CanReview;
    RunKeepsInv(w, run, n);
    var s := run[n];
    var decision, reviewed := s.log[i].event, s.log[j].event;
    DecidedFacts(w, s, i);
    ReviewedFacts(w, s, j);
    RunIds(w.k, decision.inputs, decision.dispatch, s.log[i].at);
    ReviewRunId(w.k, reviewed.observed, reviewed.dispatch, s.log[j].at);
    OneFinishTime(w, s, decision.inputs.campaignProvenance, reviewed.observed.provenance);
    Review.ReviewOrder(w.k, reviewed.observed, reviewed.dispatch, s.log[j].at);
  }

  lemma ReviewRunId(k: Contract, inp: Review.Inputs, d: Dispatch, now: Micros)
    requires Review.CanReview(k, inp, d, now)
    ensures inp.provenance.workflow.runId == inp.campaignRunId
  {
    hide CampaignOk, Review.ObservationBinds, Review.Timely, IsRepository, IsLogin, IsIdentifier;
  }

  // ----- who reviewed --------------------------------------------------------------------

  /** The login that ran the authenticated review workflow is the reviewer of the decided review. */
  lemma ReviewerRanTheReview(w: World, run: seq<State>, n: nat, i: nat, j: nat)
    requires IsRun(w, run) && n < |run| && i < |run[n].log| && j < |run[n].log|
    requires run[n].log[i].event.Decided? && run[n].log[j].event.Authenticated?
    requires run[n].log[j].event.provenance == run[n].log[i].event.inputs.reviewProvenance
    ensures var reviewer, m := run[n].log[i].event.inputs.review.value.reviewer, run[n].log[j].event.proof.metadata;
            Fold(m.actor) == Fold(reviewer) == Fold(m.triggeringActor)
    ensures run[n].log[j].event.review == run[n].log[i].event.inputs.review
  {
    hide Enabled, Inv, Promotion.Ready;
    hide CampaignOk, CP.ProvenanceOk, WA.ProvenanceOk, Promotion.Verdict, Promotion.SloBinds, Review.ReviewAccepted;
    hide IsRepository, IsLogin, PathPart, IsIdentifier, IsCommit, IsReleaseCandidate;
    RunKeepsInv(w, run, n);
    var s := run[n];
    DecidedFacts(w, s, i);
    AuthenticatedFacts(w, s, j);
    ReviewDecodes(w, s, s.log[i].event.inputs.review);
    ReviewDecodes(w, s, s.log[j].event.review);
  }

  // ----- the honest run ------------------------------------------------------------------

  /** One entry per stage, the campaign report the decision is made on, which need not be the one the
      reviewer saw, and the evidence directory handed to the decision. */
  datatype Trail = Trail(
    assembled: Entry, verified: Entry, workflows: Entry, reviewed: Entry, authenticated: Entry, decidedOn: Entry,
    evidence: map<string, File<Promotion.Evidence>>)

  function TrailDispatch(t: Trail): Dispatch
    requires t.assembled.event.Assembled?
  {
    AT.DispatchOf(t.assembled.event.assembly.request.value)
  }

  predicate Staged(t: Trail) {
    && t.assembled.event.Assembled? && t.verified.event.CampaignVerified? && t.workflows.event.WorkflowsVerified?
    && t.reviewed.event.Reviewed? && t.authenticated.event.Authenticated? && t.decidedOn.event.CampaignVerified?
  }

  /** The campaign and dispatch of every stage are those of the assembly. */
  predicate OneCampaign(t: Trail)
    requires Staged(t)
  {
    var c, d := t.assembled.event.campaign, TrailDispatch(t);
    && t.verified.event.campaign == c && t.verified.event.dispatch == d
    && t.workflows.event.campaign == c && t.workflows.event.dispatch == d
    && t.reviewed.event.observed.campaign == c && t.reviewed.event.dispatch == d
    && t.authenticated.event.campaign == c && t.authenticated.event.dispatch == d
    && t.decidedOn.event.campaign == c && t.decidedOn.event.dispatch == d
  }

  predicate Logged(log: Log, t: Trail) {
    && t.assembled in log && t.verified in log && t.workflows in log && t.reviewed in log && t.authenticated in log
    && t.decidedOn in log
  }

  /** The stages ran for one dispatch, campaign and repository, each on what the one before wrote,
      and the evidence directory holds the assembled reports. */
  predicate Honest(s: State, t: Trail) {
    && Staged(t) && Logged(s.log, t) && OneCampaign(t)
    && t.reviewed.event.observed.provenance == t.verified.event.report
    && t.authenticated.event.review == t.reviewed.event.review
    && t.verified.event.bundle.repository == t.reviewed.event.observed.repository
    && t.workflows.event.sources.repository == t.reviewed.event.observed.repository
    && t.decidedOn.event.bundle.repository == t.reviewed.event.observed.repository
    && t.evidence.Keys == t.assembled.event.reports.Keys
    && (forall path | path in t.evidence :: t.evidence[path].bytes == t.assembled.event.reports[path])
  }

  function InputsOf(t: Trail): Promotion.Inputs
    requires Staged(t)
  {
    Promotion.Inputs(
      t.assembled.event.campaign, t.decidedOn.event.report, t.workflows.event.workflows, t.reviewed.event.review,
      t.authenticated.event.provenance, t.evidence, t.decidedOn.event.bundle.runId)
  }

  /** What the report of a campaign entry says about promotion. */
  function ReportVerdict(k: Contract, t: Trail, a: Artifact): Outcome<seq<Promotion.Check>>
    requires t.assembled.event.Assembled?
  {
    if a.path !in t.evidence then Reject
    else Promotion.ValidateEvidence(k, a.evidenceId, t.evidence[a.path].value, TrailDispatch(t),
                                    t.assembled.event.campaign.value.onDeviceEnvironment,
                                    t.assembled.event.campaign.value.providers)
  }

  lemma CampaignLater(k: Contract, c: Manifest, d: Dispatch, now: Micros, later: Micros)
    requires CampaignOk(k, c, d, now) && now <= later
    ensures CampaignOk(k, c, d, later)
  {
    hide EvidenceSpec, IsIdentifier, HeaderOk, ArtifactsOk;
  }

  lemma WorkflowsFacts(w: World, s: State, i: nat)
    requires Inv(w, s) && i < |s.log| && s.log[i].event.WorkflowsVerified?
    ensures var e := s.log[i].event;
            && CampaignOk(w.k, e.campaign.value, e.dispatch, s.log[i].at) && IsRepository(e.sources.repository)
            && WP.IsReport(w.k, e.campaign, e.dispatch, e.sources.repository, s.log[i].at, e.workflows)
  {
    hide CampaignOk, WP.IsReport, IsRepository, WP.Unmixed, WP.IsRunOf, WP.BytesHeld, Records;
    assert Enabled(w, s.log[..i], s.log[i].event, s.log[i].at);
  }

  lemma EntryAt(s: State, e: Entry) returns (i: nat)
    requires e in s.log
    ensures i < |s.log| && s.log[i] == e
  {
    i :| 0 <= i < |s.log| && s.log[i] == e;
  }

  /** Along an honest trail the campaign stays accepted, and the campaign report of the decision is
      accepted exactly when its assembly run finished after the evidence. */
  lemma CampaignStage(w: World, s: State, t: Trail, now: Micros)
    requires Inv(w, s) && Honest(s, t) && s.clock <= now
    ensures CampaignOk(w.k, t.assembled.event.campaign.value, TrailDispatch(t), now)
    ensures var inp := InputsOf(t);
            CP.ProvenanceOk(w.k, inp.campaignProvenance, inp.campaign.Sha(), TrailDispatch(t), inp.campaignRunId,
                            inp.campaign.value.artifacts, now) <==>
              CP.NotBefore(inp.campaign.value.artifacts, t.decidedOn.event.bundle.metadata.updatedAt)
    ensures |t.reviewed.event.observed.repository| <= MAX_IDENTIFIER
  {
    hide Enabled, CampaignOk, CP.NotBefore, CP.AssemblyRunOk, CP.BundleOk, CP.ProvenanceOk, Review.CanReview;
    hide IsRepository;
    var i := EntryAt(s, t.decidedOn);
    CampaignVerifiedFacts(w, s, i);
    CampaignLater(w.k, t.assembled.event.campaign.value, TrailDispatch(t), t.decidedOn.at, now);
    ReviewedRepository(w, s, t);
    CP.ProducerConsumerAgree(w.k, t.decidedOn.event.campaign, TrailDispatch(t), t.decidedOn.event.bundle,
                             t.decidedOn.at, now);
  }

  lemma ReviewedRepository(w: World, s: State, t: Trail)
    requires Inv(w, s) && Honest(s, t)
    ensures |t.reviewed.event.observed.repository| <= MAX_IDENTIFIER
  {
    hide Enabled, CampaignOk, Review.ReviewOf, Review.ObservationBinds, Review.Timely, IsRepository, IsLogin;
    hide CP.NotBefore;
    hide CP.AssemblyRunOk, CP.BundleOk;
    var i := EntryAt(s, t.verified);
    var j := EntryAt(s, t.reviewed);
    CampaignVerifiedFacts(w, s, i);
    ReviewedFacts(w, s, j);
  }

  /** Along an honest trail the workflow report is accepted exactly when its clock had passed every
      completion and the artifact names fit. */
  lemma WorkflowStage(w: World, s: State, t: Trail, now: Micros)
    requires ValidContract(w.k) && Inv(w, s) && Honest(s, t) && s.clock <= now
    ensures var c, d := t.assembled.event.campaign, TrailDispatch(t);
            WA.ProvenanceOk(t.workflows.event.workflows, c.Sha(), d, c.value.artifacts, now) <==>
              && (forall a | a in c.value.artifacts :: a.completedAt <= t.workflows.at)
              && (forall a | a in c.value.artifacts :: |WA.NameOf(w.k, d, a)| <= MAX_IDENTIFIER)
    ensures IsReleaseCandidate(TrailDispatch(t).releaseCandidate) && IsCommit(TrailDispatch(t).commit)
    ensures IsIdentifier(TrailDispatch(t).environment)
  {
    hide Enabled, CampaignOk, ValidContract, WP.IsReport, WA.ProvenanceOk, WA.NameOf, IsReleaseCandidate, IsCommit;
    hide IsIdentifier;
    hide IsRepository, CP.ProvenanceOk, Assembly.IsAssembly, Assembly.Gathered, AssemblyPlan.IsPlan;
    CampaignStage(w, s, t, now);
    var i := EntryAt(s, t.workflows);
    var j := EntryAt(s, t.assembled);
    WorkflowsFacts(w, s, i);
    AssembledFacts(w, s, j);
    WA.ProducerConsumerAgree(w.k, t.assembled.event.campaign, TrailDispatch(t), t.workflows.event.sources.repository,
                             t.workflows.at, now, t.workflows.event.workflows);
  }

  /** Along an honest trail the review and its provenance are accepted, and the review clears exactly
      when it approves, is complete and is prompt. */
  lemma ReviewStage(w: World, s: State, t: Trail, now: Micros)
    requires Inv(w, s) && Honest(s, t) && s.clock <= now
    ensures var inp, d := InputsOf(t), TrailDispatch(t);
            && Review.ReviewAccepted(w.k, inp.review.value, inp.campaign, d, now)
            && RP.ProvenanceAccepted(inp.reviewProvenance, inp.campaign.Sha(), inp.review, d, now)
            && Promotion.OneRepository(inp)
    ensures var o := t.reviewed.event.observed.observation.value;
            Review.Clear(w.k, InputsOf(t).review.value, InputsOf(t).campaign) <==>
              && o.decision == "approved" && Review.AllChecksTrue(w.k, o.checks) && o.findings == []
              && Review.Prompt(o.reviewedAt, t.assembled.event.campaign.value.artifacts)
  {
    hide Enabled, CampaignOk, Review.CanReview, Review.Prompt, Review.AllChecksTrue, CP.ProvenanceOk;
    hide RP.ProvenanceAccepted, CP.CanVerify, RP.ReviewRunOk, RP.ReviewBundleOk, Review.ReviewAccepted, Review.Clear;
    CampaignStage(w, s, t, now);
    var i := EntryAt(s, t.reviewed);
    var j := EntryAt(s, t.authenticated);
    var m := EntryAt(s, t.decidedOn);
    ReviewedFacts(w, s, i);
    AuthenticatedFacts(w, s, j);
    CampaignVerifiedFacts(w, s, m);
    HonestWorkflowRepository(w, s, t);
    var e := t.reviewed.event;
    Review.ReviewRoundTrip(w.k, e.observed, e.dispatch, t.reviewed.at, now);
    AuthenticatedReview(w, s, j);
    RP.ProducerConsumerAgree(w.k, t.assembled.event.campaign, e.review, e.dispatch, t.authenticated.event.proof,
                             t.authenticated.at, now);
  }

  lemma AuthenticatedReview(w: World, s: State, i: nat)
    requires Inv(w, s) && i < |s.log| && s.log[i].event.Authenticated?
    ensures Review.ReviewAccepted(w.k, s.log[i].event.review.value, s.log[i].event.campaign, s.log[i].event.dispatch,
                                  s.log[i].at)
  {
    hide CampaignOk, Review.ReviewAccepted, RP.ReviewRunOk, IsRepository;
    assert Enabled(w, s.log[..i], s.log[i].event, s.log[i].at);
  }

  lemma HonestWorkflowRepository(w: World, s: State, t: Trail)
    requires Inv(w, s) && Honest(s, t)
    ensures t.workflows.event.workflows.repository == t.reviewed.event.observed.repository
  {
    hide Enabled, WP.IsRunList, CampaignOk;
    var i := EntryAt(s, t.workflows);
    WorkflowsFacts(w, s, i);
  }

  /** Along an honest trail the decision reads exactly the assembled bytes. */
  lemma EvidenceStage(w: World, s: State, t: Trail, a: Artifact)
    requires Inv(w, s) && Honest(s, t) && a in t.assembled.event.campaign.value.artifacts
    ensures Promotion.Verdict(w.k, InputsOf(t), TrailDispatch(t), a) == ReportVerdict(w.k, t, a) && a.path in t.evidence
  {
    hide Enabled, Promotion.ValidateEvidence, Assembly.CanAssemble, Assembly.IsAssembly;
    var i := EntryAt(s, t.assembled);
    AssembledFacts(w, s, i);
    assert t.evidence[a.path].Sha() == a.sha256;
  }

  /** Whether an honest trail can be decided: the assembly run finished and the workflow stage ran
      after every completion, the artifact names fit, every report is admissible and the
      service-level report binds the others. */
  ghost predicate TrailDecidable(k: Contract, t: Trail)
    requires Staged(t)
  {
    var c := t.assembled.event.campaign.value;
    && CP.NotBefore(c.artifacts, t.decidedOn.event.bundle.metadata.updatedAt)
    && (forall a | a in c.artifacts :: a.completedAt <= t.workflows.at)
    && (forall a | a in c.artifacts :: |WA.NameOf(k, TrailDispatch(t), a)| <= MAX_IDENTIFIER)
    && (forall a | a in c.artifacts :: ReportVerdict(k, t, a).Accept?)
    && Promotion.SloBinds(InputsOf(t), Records(c.artifacts))
  }

  /** No report is blocked and the reviewer approved promptly and completely. */
  ghost predicate TrailClear(k: Contract, t: Trail)
    requires Staged(t)
  {
    var c, o := t.assembled.event.campaign.value, t.reviewed.event.observed.observation.value;
    && (forall a | a in c.artifacts :: ReportVerdict(k, t, a) == Accept([]))
    && o.decision == "approved" && Review.AllChecksTrue(k, o.checks) && o.findings == []
    && Review.Prompt(o.reviewedAt, c.artifacts)
  }

  /** An honest run ends in a decision, exactly under the conditions above, and the decision is
      ready exactly when nothing is blocked. */
  lemma HonestRunDecides(w: World, run: seq<State>, n: nat, t: Trail, now: Micros, ready: bool)
    requires ValidContract(w.k) && IsRun(w, run) && n < |run| && Honest(run[n], t) && run[n].clock <= now
    ensures Enabled(w, run[n].log, Decided(InputsOf(t), TrailDispatch(t), ready), now) <==>
              TrailDecidable(w.k, t) && (ready <==> TrailClear(w.k, t))
  {
    hide CampaignOk, CP.ProvenanceOk, WA.ProvenanceOk, Promotion.Verdict, Promotion.SloBinds, Review.ReviewAccepted;
    hide RP.ProvenanceAccepted, Promotion.OneRepository, Review.Clear, Review.Prompt, Review.AllChecksTrue;
    hide ReportVerdict;
    hide ValidContract, IsCommit, IsReleaseCandidate, IsIdentifier, WA.NameOf, Records, Inv, CP.NotBefore, OneCampaign;
    RunKeepsInv(w, run, n);
    var s := run[n];
    CampaignStage(w, s, t, now);
    WorkflowStage(w, s, t, now);
    ReviewStage(w, s, t, now);
    forall a | a in t.assembled.event.campaign.value.artifacts
      ensures Promotion.Verdict(w.k, InputsOf(t), TrailDispatch(t), a) == ReportVerdict(w.k, t, a)
    {
      EvidenceStage(w, s, t, a);
    }
  }

  // ----- the time order needs one run id -------------------------------------------------

  /** The bundle of the reviewed campaign, downloaded again from another assembly run. */
  function OtherBundle(w: World, t: Trail, runId: int): CP.Inputs
    requires Staged(t)
  {
    t.verified.event.bundle.(runId := runId, metadata := w.assemblyRun(runId))
  }

  function OtherReport(w: World, t: Trail, runId: int, now: Micros): Entry
    requires Staged(t) && CP.SIGNATURE_FILE in t.verified.event.bundle.bundle
  {
    var e := t.verified.event;
    var bundle := OtherBundle(w, t, runId);
    Entry(CampaignVerified(e.campaign, e.dispatch, bundle, CP.ReportOf(w.k, e.campaign, e.dispatch, bundle, now)), now)
  }

  lemma OtherRunVerifies(w: World, s: State, t: Trail, runId: int, now: Micros)
    requires Inv(w, s) && Honest(s, t) && s.clock <= now
    requires CP.AssemblyRunOk(w.k, w.assemblyRun(runId), OtherBundle(w, t, runId), TrailDispatch(t),
                              t.assembled.event.campaign.value.operators, now)
    ensures CP.SIGNATURE_FILE in t.verified.event.bundle.bundle
    ensures Enabled(w, s.log, OtherReport(w, t, runId, now).event, now)
  {
    hide Inv, CampaignOk, CP.BundleOk, CP.CanVerify, CP.ReportOf, IsRepository, CP.AssemblyRunOk;
    var i := EntryAt(s, t.verified);
    CampaignVerifiedFacts(w, s, i);
    LogInOrder(w, s, i);
    CampaignLater(w.k, t.assembled.event.campaign.value, TrailDispatch(t), t.verified.at, now);
    OtherBundleVerifies(w, t.verified, runId, now);
  }

  lemma LogInOrder(w: World, s: State, i: nat)
    requires Inv(w, s) && i < |s.log|
    ensures s.log[i].at <= s.clock
  {
    hide Enabled;
  }

  lemma OtherBundleVerifies(w: World, verified: Entry, runId: int, now: Micros)
    requires verified.event.CampaignVerified?
    requires var e := verified.event; CP.CanVerify(w.k, e.campaign, e.dispatch, e.bundle, verified.at)
    requires var e := verified.event;
             CP.AssemblyRunOk(w.k, w.assemblyRun(runId),
                              e.bundle.(runId := runId, metadata := w.assemblyRun(runId)), e.dispatch,
                              e.campaign.value.operators, now)
    ensures var e := verified.event;
            && CP.SIGNATURE_FILE in e.bundle.bundle
            && CP.CanVerify(w.k, e.campaign, e.dispatch, e.bundle.(runId := runId, metadata := w.assemblyRun(runId)),
                            now)
  {
    hide CP.BundleOk, IsRepository, IsLogin, PathPart;
  }

  /** The last entry is a ready decision on a review whose assembly run is another one, and that run
      finished after the review. */
  predicate AssemblyFollowsReview(log: Log, reviewed: Entry) {
    && log != [] && reviewed in log && reviewed.event.Reviewed?
    && (var e := log[|log| - 1].event;
        && e.Decided? && e.ready && e.inputs.review == reviewed.event.review
        && e.inputs.campaignRunId != reviewed.event.observed.campaignRunId
        && e.inputs.review.value.reviewedAt < e.inputs.campaignProvenance.workflow.updatedAt)
  }

  /** The reviewed run is the one named at the review, and finished between evidence and review. */
  lemma ReviewedRun(w: World, s: State, t: Trail)
    requires Inv(w, s) && Honest(s, t)
    ensures w.assemblyRun(t.reviewed.event.observed.campaignRunId).updatedAt <= t.reviewed.event.review.value.reviewedAt
    ensures CP.NotBefore(t.assembled.event.campaign.value.artifacts, t.reviewed.event.review.value.reviewedAt)
  {
    hide Enabled, Review.CanReview, CampaignOk, CP.AssemblyRunOk, CP.BundleOk;
    var i := EntryAt(s, t.verified);
    var j := EntryAt(s, t.reviewed);
    CampaignVerifiedFacts(w, s, i);
    ReviewedFacts(w, s, j);
    ReviewRunId(w.k, t.reviewed.event.observed, t.reviewed.event.dispatch, t.reviewed.at);
    Review.ReviewOrder(w.k, t.reviewed.event.observed, t.reviewed.event.dispatch, t.reviewed.at);
  }

  lemma OtherTrail(k: Contract, t: Trail, entry: Entry)
    requires Staged(t) && TrailDecidable(k, t) && TrailClear(k, t) && entry.event.CampaignVerified?
    requires CP.NotBefore(t.assembled.event.campaign.value.artifacts, entry.event.bundle.metadata.updatedAt)
    ensures var t1 := t.(decidedOn := entry); TrailDecidable(k, t1) && TrailClear(k, t1)
  {
    hide CP.NotBefore, WA.NameOf, Records, Promotion.ValidateEvidence, Review.Prompt, Review.AllChecksTrue;
    var t1 := t.(decidedOn := entry);
    forall a | a in t.assembled.event.campaign.value.artifacts
      ensures ReportVerdict(k, t1, a) == ReportVerdict(k, t, a)
    {
    }
  }

  lemma StepRuns(w: World, run: seq<State>, e: Event, now: Micros)
    requires IsRun(w, run) && run[|run| - 1].clock <= now && Enabled(w, run[|run| - 1].log, e, now)
    ensures IsRun(w, run + [State(now, run[|run| - 1].log + [Entry(e, now)])])
  {
    hide Enabled;
  }

  /** Every honest run whose trail is ready goes on, as soon as GitHub records a second assembly run
      that finished after the review, to a ready decision on that second run: run ids that differ
      allow the assembly after the review. */
  lemma ReviewBeforeAssembly(w: World, run: seq<State>, t: Trail, runId: int, now: Micros)
    requires ValidContract(w.k) && IsRun(w, run) && run[|run| - 1].clock <= now && Honest(run[|run| - 1], t)
    requires TrailDecidable(w.k, t) && TrailClear(w.k, t)
    requires CP.AssemblyRunOk(w.k, w.assemblyRun(runId), OtherBundle(w, t, runId), TrailDispatch(t),
                              t.assembled.event.campaign.value.operators, now)
    requires t.reviewed.event.review.value.reviewedAt < w.assemblyRun(runId).updatedAt
    ensures exists s1, s2 :: IsRun(w, run + [s1] + [s2]) && AssemblyFollowsReview(s2.log, t.reviewed)
  {
    hide Enabled, Inv, CampaignOk, CP.AssemblyRunOk, CP.BundleOk, ValidContract, TrailDecidable, TrailClear;
    hide OneCampaign;
    var s := run[|run| - 1];
    RunKeepsInv(w, run, |run| - 1);
    OtherRunVerifies(w, s, t, runId, now);
    ReviewedRun(w, s, t);
    var entry := OtherReport(w, t, runId, now);
    var s1, t1 := State(now, s.log + [entry]), t.(decidedOn := entry);
    StepRuns(w, run, entry.event, now);
    OtherTrail(w.k, t, entry);
    StillHonest(s, t, entry);
    HonestRunDecides(w, run + [s1], |run|, t1, now, true);
    var decision := Decided(InputsOf(t1), TrailDispatch(t1), true);
    StepRuns(w, run + [s1], decision, now);
    var s2 := State(now, s1.log + [Entry(decision, now)]);
    assert AssemblyFollowsReview(s2.log, t.reviewed);
  }

  lemma StillHonest(s: State, t: Trail, entry: Entry)
    requires Honest(s, t) && entry.event.CampaignVerified?
    requires entry.event.campaign == t.verified.event.campaign && entry.event.dispatch == t.verified.event.dispatch
    requires entry.event.bundle.repository == t.verified.event.bundle.repository
    ensures Honest(State(entry.at, s.log + [entry]), t.(decidedOn := entry))
  {
  }
}

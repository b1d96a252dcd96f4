/** Runs of the evidence protocol that go through every stage. */
module WitnessRuns {
  import opened Primitives
  import opened LiveProviderPlan
  import opened Campaign
  import opened GitHub
  import opened Protocol
  import opened W = Witnesses
  import PT = ProtocolTheorems
  import Assembly
  import AT = AssemblyTheorems
  import CP = CampaignProvenance
  import WP = WorkflowProvenance
  import WA = WorkflowAgreement
  import Review
  import RP = ReviewProvenance
  import Promotion

  /** A setting, its instants, the clock the stages run at, and two assembly runs that GitHub records: the
      one under review, and another that finishes at `late`. */
  datatype Story = Story(s: Setting, t: Times, now: Micros, runId: int, second: int, late: Micros)

  ghost predicate StoryOk(y: Story) {
    SettingOk(y.s) && TimesOk(y.t) && y.t.review <= y.now && y.runId > 0 && y.second > 0 && y.runId != y.second
  }

  function CampaignOf(y: Story): File<Manifest> { CampaignFor(y.s, y.t.evidence) }

  function WorldOf(y: Story): World {
    World(y.s.k, bytes => CampaignOf(y).value, bytes => ReviewFor(y.s, y.t, y.runId, y.now).value,
          id => AssemblyRun(y.s, id, if id == y.second then y.late else y.t.assembly))
  }

  // ----- the stages ----------------------------------------------------------------------

  function AssembledBy(y: Story): Event {
    Assembled(AssemblyFor(y.s, y.t.evidence), CampaignOf(y), ReportsFor(y.s, y.t.evidence))
  }

  function VerifiedBy(y: Story): Event {
    var bundle := BundleFor(y.s, y.t.evidence, y.runId, y.t.assembly);
    CampaignVerified(CampaignOf(y), y.s.d, bundle, CP.ReportOf(y.s.k, CampaignOf(y), y.s.d, bundle, y.now))
  }

  function WorkflowsBy(y: Story, workflows: WP.Report): Event {
    WorkflowsVerified(CampaignOf(y), y.s.d, SourcesFor(y.s, y.t.evidence), workflows)
  }

  function ReviewedBy(y: Story): Event {
    Reviewed(ReviewInputs(y.s, y.t, y.runId, y.now), y.s.d, ReviewFor(y.s, y.t, y.runId, y.now))
  }

  function AuthenticatedBy(y: Story): Event {
    var review, proof := ReviewFor(y.s, y.t, y.runId, y.now), ProofFor(y.s, y.t);
    Authenticated(CampaignOf(y), review, y.s.d, proof, RP.ProvenanceOf(CampaignOf(y), review, y.s.d, proof, y.now))
  }

  lemma AssembledEnabled(y: Story, log: Log)
    requires StoryOk(y)
    ensures Enabled(WorldOf(y), log, AssembledBy(y), y.now)
  {
    hide SettingOk, Assembly.CanAssemble, Assembly.IsAssembly, Assembly.ReportsMatch, AssemblyFor, ReportsFor;
    hide CampaignFor;
    Assembles(y.s, y.t.evidence, y.now);
    IsAssembled(y.s, y.t.evidence);
    ReportsAreMatched(y.s, y.t.evidence);
  }

  lemma VerifiedEnabled(y: Story, log: Log)
    requires StoryOk(y) && WasAssembled(log, CampaignOf(y))
    ensures Enabled(WorldOf(y), log, VerifiedBy(y), y.now)
  {
    hide SettingOk, CampaignOk, CP.CanVerify, CampaignFor, CP.ReportOf, Paths, BundleFile;
    CampaignParses(y.s, y.t.evidence, y.now);
    BundleVerifies(y.s, y.t.evidence, y.runId, y.t.assembly, y.now);
  }

  lemma WorkflowsEnabled(y: Story, log: Log, workflows: WP.Report)
    requires StoryOk(y) && WasAssembled(log, CampaignOf(y))
    requires WP.IsReport(y.s.k, CampaignOf(y), y.s.d, y.s.repository, y.now, workflows)
    ensures Enabled(WorldOf(y), log, WorkflowsBy(y, workflows), y.now)
  {
    hide SettingOk, CampaignOk, WP.CanVerify, CampaignFor, WP.IsReport, AttemptMetadata, Records, ReportsFor, SubdirsOf;
    CampaignParses(y.s, y.t.evidence, y.now);
    SourcesVerify(y.s, y.t.evidence);
  }

  lemma ReviewedEnabled(y: Story, log: Log)
    requires StoryOk(y) && WasAssembled(log, CampaignOf(y)) && HasCampaignReport(log, VerifiedBy(y).report)
    ensures Enabled(WorldOf(y), log, ReviewedBy(y), y.now)
  {
    hide SettingOk, Review.CanReview, CampaignFor, CP.ReportOf, Review.ReviewOf, BundleFor, ObservationFor;
    Reviews(y.s, y.t, y.runId, y.now);
  }

  lemma AuthenticatedEnabled(y: Story, log: Log)
    requires StoryOk(y) && WasAssembled(log, CampaignOf(y)) && WasReviewed(log, ReviewedBy(y).review)
    ensures Enabled(WorldOf(y), log, AuthenticatedBy(y), y.now)
  {
    hide SettingOk, CampaignOk, CampaignFor, Review.ReviewAccepted, RP.CanAuthenticate, RP.ProvenanceOf, ReviewFor;
    CampaignParses(y.s, y.t.evidence, y.now);
    ReviewIsAccepted(y.s, y.t, y.runId, y.now);
    ProofHolds(y.s, y.t, y.runId, y.now);
  }

  // ----- the run -------------------------------------------------------------------------

  function Log5(y: Story, workflows: WP.Report): Log {
    [Entry(AssembledBy(y), y.now), Entry(VerifiedBy(y), y.now), Entry(WorkflowsBy(y, workflows), y.now),
     Entry(ReviewedBy(y), y.now), Entry(AuthenticatedBy(y), y.now)]
  }

  function RunOf(y: Story, workflows: WP.Report): seq<State> {
    var log := Log5(y, workflows);
    [State(y.now, []), State(y.now, log[..1]), State(y.now, log[..2]), State(y.now, log[..3]), State(y.now, log[..4]),
     State(y.now, log)]
  }

  lemma LogHolds(y: Story, workflows: WP.Report, n: nat)
    requires 1 <= n <= 5
    ensures var log := Log5(y, workflows)[..n];
            && WasAssembled(log, CampaignOf(y))
            && (n >= 2 ==> HasCampaignReport(log, VerifiedBy(y).report))
            && (n >= 4 ==> WasReviewed(log, ReviewedBy(y).review))
  {
    hide CampaignFor, AssemblyFor, ReportsFor, BundleFor, CP.ReportOf, SourcesFor, ReviewInputs, ReviewFor, ProofFor;
    hide RP.ProvenanceOf;
    var log := Log5(y, workflows)[..n];
    assert log[0].event == AssembledBy(y);
    assert n >= 2 ==> log[1].event == VerifiedBy(y);
    assert n >= 4 ==> log[3].event == ReviewedBy(y);
  }

  lemma StageEnabled(y: Story, workflows: WP.Report, n: nat)
    requires StoryOk(y) && WP.IsReport(y.s.k, CampaignOf(y), y.s.d, y.s.repository, y.now, workflows) && n < 5
    ensures Enabled(WorldOf(y), Log5(y, workflows)[..n], Log5(y, workflows)[n].event, y.now)
  {
    hide StoryOk, Enabled, WorldOf, AssembledBy, VerifiedBy, WorkflowsBy, ReviewedBy, AuthenticatedBy, WP.IsReport;
    hide WasAssembled, HasCampaignReport, WasReviewed, CampaignOf;
    var log := Log5(y, workflows)[..n];
    if n > 0 { LogHolds(y, workflows, n); }
    if n == 0 { AssembledEnabled(y, log); }
    if n == 1 { VerifiedEnabled(y, log); }
    if n == 2 { WorkflowsEnabled(y, log, workflows); }
    if n == 3 { ReviewedEnabled(y, log); }
    if n == 4 { AuthenticatedEnabled(y, log); }
  }

  lemma RunReaches(y: Story, workflows: WP.Report)
    requires StoryOk(y) && WP.IsReport(y.s.k, CampaignOf(y), y.s.d, y.s.repository, y.now, workflows)
    ensures IsRun(WorldOf(y), RunOf(y, workflows))
  {
    hide StoryOk, Enabled, WorldOf, Log5, WP.IsReport, CampaignOf;
    var run, log := RunOf(y, workflows), Log5(y, workflows);
    LogLength(y, workflows);
    forall i | 0 < i < |run| ensures Next(WorldOf(y), run[i - 1], run[i]) {
      var n := i - 1;
      StageEnabled(y, workflows, n);
      assert run[n].log == log[..n] && run[i].log == log[..i];
      assert log[..i] == log[..n] + [log[n]];
      LogEntry(y, workflows, n);
    }
  }

  lemma LogLength(y: Story, workflows: WP.Report)
    ensures |Log5(y, workflows)| == 5
  {
    hide AssembledBy, VerifiedBy, WorkflowsBy, ReviewedBy, AuthenticatedBy;
  }

  lemma LogEntry(y: Story, workflows: WP.Report, n: nat)
    requires n < 5
    ensures Log5(y, workflows)[n].at == y.now
  {
    hide AssembledBy, VerifiedBy, WorkflowsBy, ReviewedBy, AuthenticatedBy;
  }

  // ----- the trail -----------------------------------------------------------------------

  type Reports = map<string, File<Promotion.Evidence>>

  function TrailOf(y: Story, workflows: WP.Report, evidence: Reports): PT.Trail {
    var log := Log5(y, workflows);
    PT.Trail(log[0], log[1], log[2], log[3], log[4], log[1], evidence)
  }

  /** The evidence directory holds the assembled bytes. */
  predicate EvidenceFor(y: Story, evidence: Reports) {
    && evidence.Keys == ReportsFor(y.s, y.t.evidence).Keys
    && forall path | path in evidence :: evidence[path].bytes == y.s.report(path)
  }

  lemma FirstStages(y: Story)
    requires SettingOk(y.s)
    ensures var e := AssembledBy(y);
            && e.Assembled? && e.campaign == CampaignOf(y) && AT.DispatchOf(e.assembly.request.value) == y.s.d
            && e.reports == ReportsFor(y.s, y.t.evidence)
    ensures var e := VerifiedBy(y);
            && e.CampaignVerified? && e.campaign == CampaignOf(y) && e.dispatch == y.s.d
            && e.bundle.repository == y.s.repository && e.bundle.runId == y.runId
            && e.bundle.metadata == AssemblyRun(y.s, y.runId, y.t.assembly)
  {
    hide SettingOk, CampaignFor, CP.ReportOf, RequestFor, ReportsFor, PlanFor, MetadataFor, DownloadsFor, Paths;
    RequestFits(y.s);
  }

  lemma LaterStages(y: Story, workflows: WP.Report)
    ensures var e := WorkflowsBy(y, workflows);
            && e.WorkflowsVerified? && e.campaign == CampaignOf(y) && e.dispatch == y.s.d
            && e.sources.repository == y.s.repository
    ensures var e := ReviewedBy(y);
            && e.Reviewed? && e.observed.campaign == CampaignOf(y) && e.dispatch == y.s.d
            && e.observed.repository == y.s.repository && e.observed.provenance == VerifiedBy(y).report
            && e.observed.observation.value == W.ObservationFor(y.s, y.t) && e.review.value.reviewedAt == y.t.review
            && e.observed.campaignRunId == y.runId
    ensures var e := AuthenticatedBy(y);
            && e.Authenticated? && e.campaign == CampaignOf(y) && e.dispatch == y.s.d
            && e.review == ReviewedBy(y).review
  {
    hide CampaignFor, CP.ReportOf, Records, AttemptMetadata, ReportsFor, SubdirsOf, RP.ProvenanceOf, BundleFor;
    hide ProofFor, AllTrueChecks;
  }

  lemma TrailIsHonest(y: Story, workflows: WP.Report, evidence: Reports)
    requires StoryOk(y) && EvidenceFor(y, evidence)
    ensures PT.Honest(State(y.now, Log5(y, workflows)), TrailOf(y, workflows, evidence))
    ensures PT.TrailDispatch(TrailOf(y, workflows, evidence)) == y.s.d
  {
    hide SettingOk, CampaignOf, AssembledBy, VerifiedBy, WorkflowsBy, ReviewedBy, AuthenticatedBy;
    FirstStages(y);
    LaterStages(y, workflows);
    var t, log := TrailOf(y, workflows, evidence), Log5(y, workflows);
    assert log[0] in log && log[1] in log && log[2] in log && log[3] in log && log[4] in log;
  }

  /** What the trail of a story says. */
  ghost predicate Tells(y: Story, evidence: Reports, t: PT.Trail) {
    && PT.Staged(t) && t.assembled.event.campaign == CampaignOf(y) && PT.TrailDispatch(t) == y.s.d
    && t.evidence == evidence && t.workflows.at == y.now && t.decidedOn == t.verified
    && t.verified.event.bundle.repository == y.s.repository
    && t.verified.event.bundle.metadata == AssemblyRun(y.s, y.runId, y.t.assembly)
    && t.reviewed.event.observed.observation.value == W.ObservationFor(y.s, y.t)
    && t.reviewed.event.review.value.reviewedAt == y.t.review
  }

  /** What the world of a story says. */
  ghost predicate Hosts(y: Story, w: World) {
    w.k == y.s.k && w.assemblyRun(y.second) == AssemblyRun(y.s, y.second, y.late)
  }

  lemma TrailTells(y: Story, workflows: WP.Report, evidence: Reports)
    requires StoryOk(y) && EvidenceFor(y, evidence)
    ensures Tells(y, evidence, TrailOf(y, workflows, evidence))
  {
    hide StoryOk, CampaignOf, AssembledBy, VerifiedBy, WorkflowsBy, ReviewedBy, AuthenticatedBy, W.ObservationFor;
    hide AssemblyRun, EvidenceFor;
    StoryFacts(y);
    FirstStages(y);
    LaterStages(y, workflows);
    TrailIsHonest(y, workflows, evidence);
  }

  lemma StoryFacts(y: Story)
    requires StoryOk(y)
    ensures SettingOk(y.s)
  {
    hide SettingOk;
  }

  lemma WorldHosts(y: Story)
    ensures Hosts(y, WorldOf(y))
  {
    hide CampaignOf, ReviewFor, AssemblyRun;
  }

  lemma RunEnds(y: Story, workflows: WP.Report)
    ensures var run := RunOf(y, workflows); |run| == 6 && run[5] == State(y.now, Log5(y, workflows))
  {
    hide AssembledBy, VerifiedBy, WorkflowsBy, ReviewedBy, AuthenticatedBy;
  }

  /** Every story has a run through all stages, with an honest trail. */
  lemma StagesRun(y: Story, evidence: Reports) returns (w: World, run: seq<State>, t: PT.Trail)
    requires StoryOk(y) && EvidenceFor(y, evidence)
    ensures run != [] && IsRun(w, run) && run[|run| - 1].clock == y.now && PT.Honest(run[|run| - 1], t)
    ensures Hosts(y, w) && Tells(y, evidence, t)
  {
    hide StoryOk, EvidenceFor, IsRun, PT.Honest, Tells, TrailOf, Log5, WP.IsReport, SettingOk, WorldOf, RunOf, Hosts;
    hide CampaignFor;
    StoryFacts(y);
    var workflows := WorkflowReport(y.s, y.t.evidence, y.now);
    w, run, t := WorldOf(y), RunOf(y, workflows), TrailOf(y, workflows, evidence);
    RunReaches(y, workflows);
    RunEnds(y, workflows);
    WorldHosts(y);
    TrailIsHonest(y, workflows, evidence);
    TrailTells(y, workflows, evidence);
  }

  // ----- what the decision makes of it ---------------------------------------------------

  /** Every report clears promotion, and the service-level report hashed the others. */
  ghost predicate Clearing(y: Story, evidence: Reports) {
    var artifacts := EntriesFor(y.s, y.t.evidence);
    && EvidenceFor(y, evidence)
    && (forall a | a in artifacts ::
          && a.path in evidence
          && Promotion.ValidateEvidence(y.s.k, a.evidenceId, evidence[a.path].value, y.s.d, y.s.onDevice,
                                        y.s.providers) == Accept([]))
    && SloReads(Records(artifacts), evidence)
  }

  predicate SloReads(records: map<string, Artifact>, evidence: Reports) {
    && SLO_ID in records && SOAK_ID in records && GAME_DAY_ID in records
    && records[SLO_ID].path in evidence && evidence[records[SLO_ID].path].value.SloEvidence?
    && evidence[records[SLO_ID].path].value.slo.soakSha == records[SOAK_ID].sha256
    && evidence[records[SLO_ID].path].value.slo.gameDaySha == records[GAME_DAY_ID].sha256
  }

  lemma NamesAreShort(s: Setting, completedAt: Micros, a: Artifact)
    requires SettingOk(s) && a in EntriesFor(s, completedAt)
    ensures |WA.NameOf(s.k, s.d, a)| <= MAX_IDENTIFIER
  {
    hide ValidContract, BundleNamesFree, WorkflowsSafe, EntriesFor, IsReleaseCandidate, IsCommit, ProviderListOk;
    EntryShape(s, completedAt, a);
    ContractOf(s);
    RequiredProviderIds(s.k, s.providers, a.evidenceId);
  }

  lemma ContractOf(s: Setting)
    requires SettingOk(s)
    ensures ValidContract(s.k) && NamedIds(s.k)
  {
    hide BundleNamesFree, WorkflowsSafe, Fits, ProviderListOk, FilesOk, NamesOk, GroupsOk, StageIds;
  }

  lemma VerdictsClear(y: Story, evidence: Reports, t: PT.Trail, a: Artifact)
    requires Clearing(y, evidence) && Tells(y, evidence, t) && a in EntriesFor(y.s, y.t.evidence)
    ensures PT.ReportVerdict(y.s.k, t, a) == Accept([])
  {
    hide EntriesFor, Records, Promotion.ValidateEvidence, EvidenceFor, SloReads, W.ObservationFor, AssemblyRun;
  }

  lemma SloIsBound(y: Story, evidence: Reports, t: PT.Trail)
    requires Clearing(y, evidence) && Tells(y, evidence, t)
    ensures Promotion.SloBinds(PT.InputsOf(t), Records(EntriesFor(y.s, y.t.evidence)))
  {
    hide EntriesFor, Records, Promotion.ValidateEvidence, EvidenceFor, W.ObservationFor, AssemblyRun;
    hide SLO_ID, SOAK_ID, GAME_DAY_ID;
  }

  lemma TrailCampaign(y: Story, evidence: Reports, t: PT.Trail)
    requires Tells(y, evidence, t)
    ensures t.assembled.event.campaign.value.artifacts == EntriesFor(y.s, y.t.evidence)
    ensures t.decidedOn.event.bundle.metadata.updatedAt == y.t.assembly && t.workflows.at == y.now
    ensures PT.TrailDispatch(t) == y.s.d
    ensures var o := t.reviewed.event.observed.observation.value;
            && o.decision == "approved" && o.checks == AllTrueChecks(y.s.k) && o.findings == []
            && o.reviewedAt == y.t.review
  {
    hide EntriesFor, AllTrueChecks;
  }

  /** With clearing reports the trail can be decided; it is clear exactly when the review came within
      thirty days of the evidence. */
  lemma TrailDecides(y: Story, evidence: Reports, t: PT.Trail)
    requires StoryOk(y) && Clearing(y, evidence) && Tells(y, evidence, t)
    ensures PT.TrailDecidable(y.s.k, t)
    ensures PT.TrailClear(y.s.k, t) <==> y.t.review - y.t.evidence <= THIRTY_DAYS
  {
    hide SettingOk, EntriesFor, Records, WA.NameOf, Review.Prompt, Review.AllChecksTrue, PT.ReportVerdict, PT.InputsOf;
    hide AllTrueChecks, THIRTY_DAYS, Clearing, Tells, PT.TrailDispatch, Promotion.SloBinds;
    var artifacts := EntriesFor(y.s, y.t.evidence);
    TrailStaged(y, evidence, t);
    TrailCampaign(y, evidence, t);
    SloIsBound(y, evidence, t);
    forall a | a in artifacts
      ensures a.completedAt == y.t.evidence && |WA.NameOf(y.s.k, y.s.d, a)| <= MAX_IDENTIFIER
      ensures PT.ReportVerdict(y.s.k, t, a) == Accept([])
    {
      EntryShape(y.s, y.t.evidence, a);
      NamesAreShort(y.s, y.t.evidence, a);
      VerdictsClear(y, evidence, t, a);
    }
    AllChecks(y.s.k);
    ReviewIsTimely(y.s, y.t, y.runId, y.now);
  }

  lemma TrailStaged(y: Story, evidence: Reports, t: PT.Trail)
    requires Tells(y, evidence, t)
    ensures PT.Staged(t)
  {
    hide W.ObservationFor, AssemblyRun, CampaignOf;
  }

  /** For every story that clears everything but the thirty days, a run through all stages ends in a
      decision, and the decision is not ready: build_review measured from the assembly. */
  lemma ReviewedTooLate(y: Story, evidence: Reports) returns (w: World, run: seq<State>, inp: Promotion.Inputs)
    requires StoryOk(y) && Clearing(y, evidence) && y.t.review - y.t.evidence > THIRTY_DAYS
    ensures run != [] && IsRun(w, run) && WasReviewed(run[|run| - 1].log, inp.review)
    ensures inp.review.value.decision == "approved"
    ensures Enabled(w, run[|run| - 1].log, Decided(inp, y.s.d, false), y.now)
    ensures !Enabled(w, run[|run| - 1].log, Decided(inp, y.s.d, true), y.now)
    ensures forall a | a in inp.campaign.value.artifacts :: Promotion.Verdict(w.k, inp, y.s.d, a) == Accept([])
  {
    hide StoryOk, Clearing, Enabled, IsRun, PT.Honest, PT.TrailDecidable, PT.TrailClear, ValidContract, SettingOk;
    hide EvidenceFor, Tells, PT.TrailDispatch, WasReviewed, Promotion.Verdict, PT.InputsOf, THIRTY_DAYS, Hosts;
    var t;
    StoryFacts(y);
    ContractOf(y.s);
    ClearingReads(y, evidence);
    w, run, t := StagesRun(y, evidence);
    TrailStaged(y, evidence, t);
    TrailCampaign(y, evidence, t);
    TrailDecides(y, evidence, t);
    WorldContract(y, w);
    inp := PT.InputsOf(t);
    PT.HonestRunDecides(w, run, |run| - 1, t, y.now, false);
    PT.HonestRunDecides(w, run, |run| - 1, t, y.now, true);
    LateButApproved(y, evidence, w, run, t);
  }

  lemma WorldContract(y: Story, w: World)
    requires Hosts(y, w)
    ensures w.k == y.s.k
  {
    hide AssemblyRun;
  }

  lemma ClearingReads(y: Story, evidence: Reports)
    requires Clearing(y, evidence)
    ensures EvidenceFor(y, evidence)
  {
    hide EvidenceFor, EntriesFor, Records, Promotion.ValidateEvidence;
  }

  lemma LateButApproved(y: Story, evidence: Reports, w: World, run: seq<State>, t: PT.Trail)
    requires IsRun(w, run) && PT.Honest(run[|run| - 1], t)
    requires Hosts(y, w) && Tells(y, evidence, t) && Clearing(y, evidence)
    ensures var inp := PT.InputsOf(t);
            && WasReviewed(run[|run| - 1].log, inp.review) && inp.review.value.decision == "approved"
            && forall a | a in inp.campaign.value.artifacts :: Promotion.Verdict(w.k, inp, y.s.d, a) == Accept([])
  {
    hide Enabled, Inv, EntriesFor, Records, Promotion.ValidateEvidence, EvidenceFor, PT.OneCampaign, PT.TrailDispatch;
    RunKeepsInv(w, run, |run| - 1);
    var s := run[|run| - 1];
    var i := PT.EntryAt(s, t.reviewed);
    PT.ReviewedFacts(w, s, i);
    forall a | a in t.assembled.event.campaign.value.artifacts
      ensures Promotion.Verdict(w.k, PT.InputsOf(t), y.s.d, a) == Accept([])
    {
      PT.EvidenceStage(w, s, t, a);
    }
  }

  lemma OtherRunIsOk(y: Story, evidence: Reports, w: World, t: PT.Trail, now: Micros)
    requires StoryOk(y) && Hosts(y, w) && Tells(y, evidence, t) && y.late <= now
    ensures CP.AssemblyRunOk(w.k, w.assemblyRun(y.second), PT.OtherBundle(w, t, y.second), PT.TrailDispatch(t),
                             t.assembled.event.campaign.value.operators, now)
    ensures w.assemblyRun(y.second).updatedAt == y.late
  {
    hide SettingOk, CP.AssemblyRunOk, EntriesFor, AllTrueChecks;
    RunIsOk(y.s, PT.OtherBundle(w, t, y.second), y.second, y.late, now);
  }

  /** For every prompt and clearing story whose second assembly run finished after the review, the run
      through all stages goes on to a ready decision on that run. */
  lemma AssemblyAfterReview(y: Story, evidence: Reports, now: Micros)
    returns (w: World, run: seq<State>, reviewed: Entry)
    requires StoryOk(y) && Clearing(y, evidence) && y.t.review - y.t.evidence <= THIRTY_DAYS
    requires y.t.review < y.late <= now && y.now <= now
    ensures run != [] && IsRun(w, run) && PT.AssemblyFollowsReview(run[|run| - 1].log, reviewed)
  {
    hide StoryOk, Clearing, IsRun, PT.Honest, PT.TrailDecidable, PT.TrailClear, ValidContract, SettingOk, Enabled;
    hide EvidenceFor, Tells, PT.TrailDispatch, THIRTY_DAYS, Hosts, CP.AssemblyRunOk, PT.OtherBundle;
    hide PT.AssemblyFollowsReview;
    var t;
    StoryFacts(y);
    ContractOf(y.s);
    ClearingReads(y, evidence);
    w, run, t := StagesRun(y, evidence);
    TrailStaged(y, evidence, t);
    TrailReviewed(y, evidence, t);
    TrailDecides(y, evidence, t);
    WorldContract(y, w);
    OtherRunIsOk(y, evidence, w, t, now);
    PT.ReviewBeforeAssembly(w, run, t, y.second, now);
    var s1, s2 :| IsRun(w, run + [s1] + [s2]) && PT.AssemblyFollowsReview(s2.log, t.reviewed);
    run := run + [s1] + [s2];
    reviewed := t.reviewed;
  }

  lemma TrailReviewed(y: Story, evidence: Reports, t: PT.Trail)
    requires Tells(y, evidence, t)
    ensures PT.Staged(t) && t.reviewed.event.review.value.reviewedAt == y.t.review
  {
    hide W.ObservationFor, AssemblyRun, CampaignOf;
  }

  /** For every prompt and clearing story, a run through all stages that ends in a ready decision. */
  lemma ReadyRun(y: Story, evidence: Reports) returns (w: World, run: seq<State>, i: nat, inp: Promotion.Inputs)
    requires StoryOk(y) && Clearing(y, evidence) && y.t.review - y.t.evidence <= THIRTY_DAYS
    ensures run != [] && IsRun(w, run) && i < |run[|run| - 1].log|
    ensures run[|run| - 1].log[i].event == Decided(inp, y.s.d, true) && w.k == y.s.k
    ensures inp.evidence == evidence && inp.campaign == CampaignOf(y)
  {
    hide StoryOk, Clearing, IsRun, PT.Honest, PT.TrailDecidable, PT.TrailClear, ValidContract, SettingOk, Enabled;
    hide EvidenceFor, Tells, PT.TrailDispatch, THIRTY_DAYS, Hosts, CampaignOf;
    var t;
    StoryFacts(y);
    ContractOf(y.s);
    ClearingReads(y, evidence);
    w, run, t := StagesRun(y, evidence);
    TrailStaged(y, evidence, t);
    TrailCampaign(y, evidence, t);
    TrailInputs(y, evidence, t);
    TrailDecides(y, evidence, t);
    WorldContract(y, w);
    inp := PT.InputsOf(t);
    PT.HonestRunDecides(w, run, |run| - 1, t, y.now, true);
    PT.StepRuns(w, run, Decided(inp, y.s.d, true), y.now);
    var log := run[|run| - 1].log;
    i := |log|;
    run := run + [State(y.now, log + [Entry(Decided(inp, y.s.d, true), y.now)])];
  }

  lemma TrailInputs(y: Story, evidence: Reports, t: PT.Trail)
    requires Tells(y, evidence, t)
    ensures PT.InputsOf(t).evidence == evidence && PT.InputsOf(t).campaign == CampaignOf(y)
  {
    hide W.ObservationFor, AssemblyRun, CampaignOf;
  }
}

/** Inputs that reach the stages of the evidence protocol: for every setting an assembly, and the
    records the stages after it make of it. */
module Witnesses {
  import opened Primitives
  import opened LiveProviderPlan
  import opened Campaign
  import opened AssemblyPlan
  import opened GitHub
  import opened Assembly
  import AT = AssemblyTheorems
  import CP = CampaignProvenance
  import WP = WorkflowProvenance
  import Review
  import RP = ReviewProvenance

  /** Who works on a campaign and for what, and the bytes of every file involved. */
  datatype Setting = Setting(
    k: Contract, providers: seq<string>, d: Dispatch, onDevice: string, operator: string, reviewer: string,
    repository: string, request: Bytes, campaign: Bytes, signature: Bytes, report: string -> Bytes,
    observation: Bytes, review: Bytes, reviewSignature: Bytes)

  predicate Outsider(k: Contract, login: string) { IsLogin(login) && Fold(login) !in k.reserved }

  /** Reports are not called like the campaign or its signature. */
  ghost predicate BundleNamesFree(k: Contract) {
    forall id | id in k.base :: k.base[id].file != CP.CAMPAIGN_FILE && k.base[id].file != CP.SIGNATURE_FILE
  }

  ghost predicate WorkflowsSafe(k: Contract) {
    && (forall g | g in k.groups :: SafeWorkflowPath(g.workflow) == Accept(g.workflow))
    && PathPart(k.campaignWorkflow) == Accept(k.campaignWorkflow)
    && PathPart(k.reviewWorkflow) == Accept(k.reviewWorkflow)
  }

  /** Everything fits the limits of the stages. */
  ghost predicate Fits(s: Setting) {
    && |s.k.base| + |s.providers| <= MAX_ARTIFACTS && |s.repository| <= MAX_IDENTIFIER
    && (forall p | p in s.providers :: |p| <= 114)
    && (forall id | id in s.k.base ::
          |ArtifactName(s.k.base[id], s.d.releaseCandidate, s.d.commit)| <= MAX_IDENTIFIER)
  }

  ghost predicate SettingOk(s: Setting) {
    && ValidContract(s.k) && BundleNamesFree(s.k) && WorkflowsSafe(s.k) && Fits(s)
    && ProviderListOk(s.providers, s.k.catalog)
    && IsBoundedText(s.d.releaseCandidate, 256) && IsReleaseCandidate(s.d.releaseCandidate) && IsCommit(s.d.commit)
    && IsIdentifier(s.d.environment) && IsIdentifier(s.onDevice) && s.onDevice != s.d.environment
    && Outsider(s.k, s.operator) && Outsider(s.k, s.reviewer) && Fold(s.operator) != Fold(s.reviewer)
    && IsRepository(s.repository)
  }

  // ----- the request ---------------------------------------------------------------------

  function Position(names: seq<string>, name: string): (i: nat)
    requires name in names
    ensures i < |names| && names[i] == name
  {
    if names[0] == name then 0 else 1 + Position(names[1..], name)
  }

  /** Group number `i` ran as run `i + 1`. */
  function RunIdsFor(k: Contract): map<string, int> {
    var names := GroupNames(k.groups);
    map name | name in Members(names) :: 1 + Position(names, name)
  }

  function RequestFor(s: Setting): File<Request> {
    File(s.request,
         Request(SCHEMA_VERSION, RequestClass, s.d.releaseCandidate, Source(s.d.commit, false), s.k.profileId,
                 s.d.environment, s.onDevice, s.providers, RunIdsFor(s.k)))
  }

  lemma RequestFits(s: Setting)
    requires SettingOk(s)
    ensures RequestOk(s.k, RequestFor(s).value) && AT.DispatchOf(RequestFor(s).value) == s.d
  {
    hide ValidContract, BundleNamesFree, WorkflowsSafe, Fits, ProviderListOk, IsReleaseCandidate, IsBoundedText;
    hide IsCommit;
    hide IsIdentifier, Outsider, IsRepository;
    var names := GroupNames(s.k.groups);
    assert RunIdsFor(s.k).Keys == Members(names);
  }

  lemma RunIdAt(s: Setting, i: nat)
    requires ValidContract(s.k) && i < |s.k.groups|
    ensures RunIdOf(RequestFor(s).value, s.k.groups[i]) == i + 1
  {
    hide StageIds, FilesOk, NamesOk, ValidCatalog, NamedIds;
    var names := GroupNames(s.k.groups);
    AscendingIffSortedDistinct(names);
    assert names[i] in Members(names);
    var j := Position(names, names[i]);
    assert names[j] == names[i];
  }

  // ----- the plan ------------------------------------------------------------------------

  function PlanFor(s: Setting): Plan {
    var q, n := RequestFor(s).value, |s.k.groups|;
    Plan(s.d.releaseCandidate, Source(s.d.commit, false), s.k.profileId, s.d.environment, s.onDevice, s.providers,
         RequestFor(s).Sha(), seq(n, i requires 0 <= i < n => PlanRunOf(q, s.k.groups[i])),
         Sort(AllArtifacts(s.k, q, n), ByEvidenceId))
  }

  lemma ListDistinct(providers: seq<string>, catalog: Catalog)
    requires ProviderListOk(providers, catalog)
    ensures NoDuplicates(providers) && Members(providers) <= Members(catalog)
  {
  }

  lemma PlanIsPlan(s: Setting)
    requires SettingOk(s)
    ensures IsPlan(s.k, RequestFor(s).value, RequestFor(s).Sha(), PlanFor(s))
  {
    hide ValidContract, BundleNamesFree, WorkflowsSafe, Fits, ProviderListOk, IsReleaseCandidate, IsBoundedText;
    hide IsCommit;
    hide IsIdentifier, Outsider, IsRepository, PlanRunOf, ArePlanArtifacts, AllArtifacts, Sort;
    ListDistinct(s.providers, s.k.catalog);
    AllArtifactsArePlan(s.k, RequestFor(s).value);
  }

  // ----- the assembly --------------------------------------------------------------------

  /** GitHub's record of the run of one group. */
  function EvidenceRun(s: Setting, g: Group, runId: int, completedAt: Micros): RunMetadata {
    RunMetadata(runId, 1, g.workflow, s.d.commit, g.event, "completed", "success", completedAt, s.repository,
                s.repository, s.operator, s.operator)
  }

  function RunIds(s: Setting): set<int> { set run | run in PlanFor(s).runs :: run.runId }

  function GroupAt(k: Contract, runId: int): Group {
    if 1 <= runId <= |k.groups| then k.groups[runId - 1] else Group("", "", "", [])
  }

  function MetadataFor(s: Setting, completedAt: Micros): map<int, RunMetadata> {
    var ids := RunIds(s);
    map id | id in ids :: EvidenceRun(s, GroupAt(s.k, id), id, completedAt)
  }

  function Directories(s: Setting): set<string> { set a | a in PlanFor(s).artifacts :: a.subdir }

  function FilesIn(s: Setting, dir: string): set<string> {
    set a | a in PlanFor(s).artifacts && a.subdir == dir :: a.file
  }

  function Directory(s: Setting, dir: string): map<string, Bytes> {
    var files := FilesIn(s, dir);
    map file | file in files :: s.report(file)
  }

  /** One directory per artifact, with its report. */
  function DownloadsFor(s: Setting): map<string, map<string, Bytes>> {
    var dirs := Directories(s);
    map dir | dir in dirs :: Directory(s, dir)
  }

  function AssemblyFor(s: Setting, completedAt: Micros): Inputs {
    Inputs(RequestFor(s), PlanFor(s), MetadataFor(s, completedAt), DownloadsFor(s), s.repository, s.operator,
           s.operator)
  }

  lemma PlannedRunAt(s: Setting, run: PlanRun) returns (i: nat)
    requires SettingOk(s) && run in PlanFor(s).runs
    ensures i < |s.k.groups| && run == PlanRunOf(RequestFor(s).value, s.k.groups[i]) && run.runId == i + 1
    ensures run.workflow == s.k.groups[i].workflow && run.event == s.k.groups[i].event && run.headSha == s.d.commit
  {
    hide ValidContract, BundleNamesFree, WorkflowsSafe, Fits, ProviderListOk, Sort, AllArtifacts, GroupIds, RunIdOf;
    i :| 0 <= i < |s.k.groups| && PlanFor(s).runs[i] == run;
    RunIdAt(s, i);
  }

  lemma RunsFit(s: Setting, completedAt: Micros, now: Micros)
    requires SettingOk(s) && completedAt <= now
    ensures RunsVerified(s.k, AssemblyFor(s, completedAt), now)
    ensures Logins(AssemblyFor(s, completedAt)) == {s.operator}
  {
    hide ValidContract, BundleNamesFree, Fits, ProviderListOk, PlanFor, RequestFor, SafeWorkflowPath, IsLogin;
    hide DownloadsFor, IsReleaseCandidate, IsBoundedText, IsCommit, IsIdentifier, IsRepository, Fold, PlanRunOf;
    var inp := AssemblyFor(s, completedAt);
    forall run | run in inp.plan.runs
      ensures run.runId in inp.metadata && EvidenceRunOk(s.k, inp.metadata[run.runId], run, inp.repository, now)
      ensures inp.metadata[run.runId].actor == inp.metadata[run.runId].triggeringActor == s.operator
    {
      var i := PlannedRunAt(s, run);
      assert s.k.groups[i] in s.k.groups;
    }
  }

  lemma ReportsDownloaded(s: Setting, a: PlanArtifact)
    requires a in PlanFor(s).artifacts
    ensures Downloaded(a, DownloadsFor(s)) && DownloadsFor(s)[a.subdir][a.file] == s.report(a.file)
  {
    hide PlanFor;
  }

  /** Every setting can be assembled. */
  lemma Assembles(s: Setting, completedAt: Micros, now: Micros)
    requires SettingOk(s) && completedAt <= now
    ensures CanAssemble(s.k, AssemblyFor(s, completedAt), now)
  {
    hide ValidContract, BundleNamesFree, WorkflowsSafe, Fits, ProviderListOk, PlanFor, RequestFor, DownloadsFor, IsPlan;
    hide MetadataFor, Logins, RequestOk, IsReleaseCandidate, IsBoundedText, IsCommit, IsIdentifier, IsRepository;
    hide RunsVerified, Fold, IsLogin;
    RequestFits(s);
    PlanIsPlan(s);
    RunsFit(s, completedAt, now);
    forall a | a in PlanFor(s).artifacts ensures Downloaded(a, DownloadsFor(s)) { ReportsDownloaded(s, a); }
    DirectoriesMatch(s);
  }

  lemma DirectoriesMatch(s: Setting)
    ensures DownloadsFor(s).Keys == (set a | a in PlanFor(s).artifacts :: a.subdir)
  {
    hide PlanFor;
  }

  // ----- the campaign --------------------------------------------------------------------

  function EntryFor(s: Setting, p: PlanArtifact, completedAt: Micros): Artifact {
    var spec := match EvidenceSpec(s.k, p.evidenceId)
                case Some(spec) => spec
                case None => Spec("", "", Fixed(""), ProviderKind);
    Artifact(p.evidenceId, spec.file, Sha256(s.report(p.file)), spec.workflow, p.runId, 1, s.d.commit, "success",
             completedAt)
  }

  function EntriesFor(s: Setting, completedAt: Micros): (r: seq<Artifact>)
    ensures |r| == |PlanFor(s).artifacts|
    ensures forall i | 0 <= i < |r| :: r[i] == EntryFor(s, PlanFor(s).artifacts[i], completedAt)
  {
    var plan := PlanFor(s).artifacts;
    seq(|plan|, i requires 0 <= i < |plan| => EntryFor(s, plan[i], completedAt))
  }

  /** The campaign the assembly writes. */
  function CampaignFor(s: Setting, completedAt: Micros): File<Manifest> {
    File(s.campaign,
         Manifest(SCHEMA_VERSION, CampaignClass, s.d.releaseCandidate, Source(s.d.commit, false), s.k.profileId,
                  s.d.environment, s.onDevice, s.providers, [s.operator], EntriesFor(s, completedAt)))
  }

  lemma OneOperator(k: Contract, login: string)
    requires Outsider(k, login)
    ensures CanonicalIds([login], 1, 10) && Members([login]) == {login}
  {
    LoginIsIdentifier(login);
  }

  lemma EntryAttests(s: Setting, completedAt: Micros, i: nat)
    requires SettingOk(s) && i < |PlanFor(s).artifacts|
    ensures Attests(s.k, AssemblyFor(s, completedAt), PlanFor(s).artifacts[i], EntriesFor(s, completedAt)[i])
  {
    hide SettingOk, ValidContract, PlanFor, RequestFor, DownloadsFor, IsPlan, RequestOk, EvidenceSpec, PlanRunOf;
    var p := PlanFor(s).artifacts[i];
    SettingContract(s);
    RequestFits(s);
    PlanIsPlan(s);
    var j := PlannedRun(s.k, RequestFor(s).value, RequestFor(s).Sha(), PlanFor(s), p);
    var m := PlannedRunAt(s, PlanFor(s).runs[j]);
    ReportsDownloaded(s, p);
    CommitOf(s);
  }

  lemma SettingContract(s: Setting)
    requires SettingOk(s)
    ensures ValidContract(s.k)
  {
    hide ValidContract;
  }

  lemma CommitOf(s: Setting)
    ensures RequestFor(s).value.source == Source(s.d.commit, false)
  {
  }

  lemma IsAssembled(s: Setting, completedAt: Micros)
    requires SettingOk(s)
    ensures IsAssembly(s.k, AssemblyFor(s, completedAt), CampaignFor(s, completedAt).value)
  {
    hide ValidContract, BundleNamesFree, WorkflowsSafe, Fits, ProviderListOk, PlanFor, DownloadsFor, MetadataFor;
    hide Logins;
    hide Attests, EntryFor, IsReleaseCandidate, IsBoundedText, IsCommit, IsIdentifier, IsRepository, CanonicalIds;
    RunsFit(s, completedAt, completedAt);
    OneOperator(s.k, s.operator);
    var artifacts := EntriesFor(s, completedAt);
    forall i | 0 <= i < |artifacts|
      ensures Attests(s.k, AssemblyFor(s, completedAt), PlanFor(s).artifacts[i], artifacts[i])
    {
      EntryAttests(s, completedAt, i);
    }
  }

  /** The parser accepts it at any later clock. */
  lemma CampaignParses(s: Setting, completedAt: Micros, now: Micros)
    requires SettingOk(s) && completedAt <= now
    ensures CampaignOk(s.k, CampaignFor(s, completedAt).value, s.d, now)
    ensures CampaignFor(s, completedAt).value.artifacts != []
  {
    hide CanAssemble, IsAssembly, CampaignOk, RequestFor, AssemblyFor, CampaignFor, ValidContract, WorkflowsSafe;
    hide ProviderListOk, IsReleaseCandidate, IsBoundedText, IsCommit, IsIdentifier, IsRepository, Outsider;
    Assembles(s, completedAt, completedAt);
    IsAssembled(s, completedAt);
    RequestFits(s);
    RequestProviders(s, completedAt);
    AT.AssemblyRefinesParser(s.k, AssemblyFor(s, completedAt), CampaignFor(s, completedAt).value, completedAt, now);
    WP.CampaignAscends(s.k, CampaignFor(s, completedAt).value, s.d, now);
  }

  lemma RequestProviders(s: Setting, completedAt: Micros)
    ensures AssemblyFor(s, completedAt).request == RequestFor(s) && RequestFor(s).value.providers == s.providers
  {
  }

  /** What every entry says: the run of its group, the time, and the digest of the report at its path. */
  lemma EntryShape(s: Setting, completedAt: Micros, a: Artifact)
    requires SettingOk(s) && a in EntriesFor(s, completedAt)
    ensures a.evidenceId in Required(s.k, s.providers) && EvidenceSpec(s.k, a.evidenceId).Some?
    ensures a.path == EvidenceSpec(s.k, a.evidenceId).value.file && a.sha256 == Sha256(s.report(a.path))
    ensures a.completedAt == completedAt && a.runAttempt == 1 && a.headSha == s.d.commit
    ensures 1 <= a.runId <= |s.k.groups| && a.workflowPath == GroupAt(s.k, a.runId).workflow
  {
    hide SettingOk, ValidContract, PlanFor, RequestFor, IsPlan, RequestOk, EvidenceSpec, PlanRunOf, Required, GroupIds;
    var i :| 0 <= i < |EntriesFor(s, completedAt)| && EntriesFor(s, completedAt)[i] == a;
    var p := PlanFor(s).artifacts[i];
    SettingContract(s);
    RequestFits(s);
    PlanIsPlan(s);
    var j := PlannedRun(s.k, RequestFor(s).value, RequestFor(s).Sha(), PlanFor(s), p);
    var m := PlannedRunAt(s, PlanFor(s).runs[j]);
    RequestProviders(s, completedAt);
  }

  lemma PathIsReport(s: Setting, completedAt: Micros, a: Artifact)
    requires SettingOk(s) && a in EntriesFor(s, completedAt)
    ensures a.path != CP.CAMPAIGN_FILE && a.path != CP.SIGNATURE_FILE
  {
    hide ValidContract, WorkflowsSafe, Fits, ProviderListOk, EntriesFor, CP.CAMPAIGN_FILE, CP.SIGNATURE_FILE, Required;
    EntryShape(s, completedAt, a);
    BundleLetters();
    if a.evidenceId !in s.k.base { assert a.path[0] == "provider-"[0]; }
  }

  lemma BundleLetters()
    ensures CP.CAMPAIGN_FILE != "" && CP.CAMPAIGN_FILE[0] == 'c'
    ensures CP.SIGNATURE_FILE != "" && CP.SIGNATURE_FILE[0] == 'c'
    ensures CP.CAMPAIGN_FILE != CP.SIGNATURE_FILE
  {
    assert |CP.CAMPAIGN_FILE| != |CP.SIGNATURE_FILE|;
  }

  function Paths(s: Setting, completedAt: Micros): set<string> { set a | a in EntriesFor(s, completedAt) :: a.path }

  function ReportsFor(s: Setting, completedAt: Micros): map<string, Bytes> {
    var paths := Paths(s, completedAt);
    map path | path in paths :: s.report(path)
  }

  lemma ReportsAreMatched(s: Setting, completedAt: Micros)
    requires SettingOk(s)
    ensures ReportsMatch(CampaignFor(s, completedAt).value, ReportsFor(s, completedAt))
  {
    hide SettingOk, EntriesFor;
    forall a | a in EntriesFor(s, completedAt) ensures a.sha256 == Sha256(s.report(a.path)) {
      EntryShape(s, completedAt, a);
    }
  }

  // ----- campaign provenance -------------------------------------------------------------

  /** GitHub's record of an assembly run by the operator. */
  function AssemblyRun(s: Setting, runId: int, finished: Micros): RunMetadata {
    RunMetadata(runId, 1, s.k.campaignWorkflow, s.d.commit, CP.DISPATCH_EVENT, "completed", "success", finished,
                s.repository, s.repository, s.operator, s.operator)
  }

  function BundleFile(s: Setting, name: string): Bytes {
    if name == CP.CAMPAIGN_FILE then s.campaign else if name == CP.SIGNATURE_FILE then s.signature else s.report(name)
  }

  function BundleFor(s: Setting, completedAt: Micros, runId: int, finished: Micros): (r: CP.Inputs)
    ensures CP.SIGNATURE_FILE in r.bundle
  {
    var names := {CP.CAMPAIGN_FILE, CP.SIGNATURE_FILE} + Paths(s, completedAt);
    CP.Inputs(s.repository, runId, AssemblyRun(s, runId, finished), map name | name in names :: BundleFile(s, name),
              true)
  }

  lemma BundleHolds(s: Setting, completedAt: Micros, runId: int, finished: Micros)
    requires SettingOk(s)
    ensures CP.BundleOk(CampaignFor(s, completedAt), BundleFor(s, completedAt, runId, finished).bundle)
  {
    hide SettingOk, EntriesFor, CP.CAMPAIGN_FILE, CP.SIGNATURE_FILE;
    BundleLetters();
    forall a | a in EntriesFor(s, completedAt) ensures Sha256(BundleFile(s, a.path)) == a.sha256 {
      EntryShape(s, completedAt, a);
      PathIsReport(s, completedAt, a);
    }
  }

  lemma RunIsOk(s: Setting, inp: CP.Inputs, runId: int, finished: Micros, now: Micros)
    requires SettingOk(s) && finished <= now && runId > 0 && inp.runId == runId && inp.repository == s.repository
    ensures CP.AssemblyRunOk(s.k, AssemblyRun(s, runId, finished), inp, s.d, [s.operator], now)
  {
    hide ValidContract, BundleNamesFree, Fits, ProviderListOk, SafeWorkflowPath, PathPart, IsLogin, Fold;
    hide IsReleaseCandidate, IsBoundedText, IsCommit, IsIdentifier, IsRepository;
    assert s.operator in [s.operator];
  }

  lemma BundleVerifies(s: Setting, completedAt: Micros, runId: int, finished: Micros, now: Micros)
    requires SettingOk(s) && finished <= now && runId > 0
    ensures CP.CanVerify(s.k, CampaignFor(s, completedAt), s.d, BundleFor(s, completedAt, runId, finished), now)
  {
    hide ValidContract, BundleNamesFree, WorkflowsSafe, Fits, ProviderListOk, EntriesFor, CP.BundleOk, CP.AssemblyRunOk;
    hide IsReleaseCandidate, IsBoundedText, IsCommit, IsIdentifier, IsRepository, Outsider;
    BundleHolds(s, completedAt, runId, finished);
    RunIsOk(s, BundleFor(s, completedAt, runId, finished), runId, finished, now);
  }

  lemma AllCompletedAt(s: Setting, completedAt: Micros)
    requires SettingOk(s)
    ensures forall i | 0 <= i < |EntriesFor(s, completedAt)| :: EntriesFor(s, completedAt)[i].completedAt == completedAt
  {
    hide SettingOk, EntriesFor;
    forall i | 0 <= i < |EntriesFor(s, completedAt)|
      ensures EntriesFor(s, completedAt)[i].completedAt == completedAt
    {
      EntryShape(s, completedAt, EntriesFor(s, completedAt)[i]);
    }
  }

  /** For every setting an assembled campaign with a bundle that campaign provenance accepts although
      the assembly run finished before the evidence; no later stage accepts the report. */
  lemma AssembledTooEarly(s: Setting, runId: int, now: Micros, later: Micros)
    requires SettingOk(s) && 1 <= now <= later && runId > 0
    ensures CanAssemble(s.k, AssemblyFor(s, 1), now) && IsAssembly(s.k, AssemblyFor(s, 1), CampaignFor(s, 1).value)
    ensures var campaign, inp := CampaignFor(s, 1), BundleFor(s, 1, runId, 0);
            && CampaignOk(s.k, campaign.value, s.d, now) && CP.CanVerify(s.k, campaign, s.d, inp, now)
            && !CP.NotBefore(campaign.value.artifacts, inp.metadata.updatedAt)
            && !CP.ProvenanceOk(s.k, CP.ReportOf(s.k, campaign, s.d, inp, now), campaign.Sha(), s.d, inp.runId,
                                campaign.value.artifacts, later)
  {
    hide CampaignOk, CP.CanVerify, SettingOk, EntriesFor, CanAssemble, IsAssembly, AssemblyFor;
    Assembles(s, 1, now);
    IsAssembled(s, 1);
    CampaignParses(s, 1, now);
    BundleVerifies(s, 1, runId, 0, now);
    AllCompletedAt(s, 1);
    assert CampaignFor(s, 1).value.artifacts[0].completedAt == 1;
  }

  // ----- workflow provenance -------------------------------------------------------------

  function AttemptMetadata(s: Setting, completedAt: Micros): map<WP.Key, RunMetadata> {
    var keys := WP.Attempts(EntriesFor(s, completedAt));
    map key | key in keys :: EvidenceRun(s, GroupAt(s.k, key.0), key.0, completedAt)
  }

  function SubdirsOf(s: Setting, completedAt: Micros): set<string> {
    set a | a in EntriesFor(s, completedAt) :: Subdir(a.evidenceId)
  }

  function SourcesFor(s: Setting, completedAt: Micros): WP.Inputs {
    var records, reports := Records(EntriesFor(s, completedAt)), ReportsFor(s, completedAt);
    var dirs := SubdirsOf(s, completedAt);
    WP.Inputs(s.repository, if LINUX_ID in records then records[LINUX_ID].runId else 0, AttemptMetadata(s, completedAt),
              map dir | dir in dirs :: reports, reports)
  }

  lemma CampaignIsUnmixed(s: Setting, completedAt: Micros)
    requires SettingOk(s)
    ensures WP.Unmixed(EntriesFor(s, completedAt))
  {
    hide SettingOk, ValidContract, CanAssemble, IsAssembly, AssemblyFor, EntriesFor;
    SettingContract(s);
    Assembles(s, completedAt, completedAt);
    IsAssembled(s, completedAt);
    forall a, b | a in EntriesFor(s, completedAt) && b in EntriesFor(s, completedAt) && RunKey(a) == RunKey(b)
      ensures a.workflowPath == b.workflowPath && a.completedAt == b.completedAt
    {
      AT.OneWorkflowPerAttempt(s.k, AssemblyFor(s, completedAt), CampaignFor(s, completedAt).value, completedAt, a, b);
    }
  }

  lemma AttemptFits(s: Setting, completedAt: Micros, run: WP.VerifiedRun)
    requires SettingOk(s) && WP.IsRunOf(run, EntriesFor(s, completedAt), s.d.commit)
    ensures WP.KeyOf(run) in AttemptMetadata(s, completedAt)
    ensures WP.AttemptOk(AttemptMetadata(s, completedAt)[WP.KeyOf(run)], run, s.repository)
  {
    hide ValidContract, BundleNamesFree, Fits, ProviderListOk, EntriesFor, SafeWorkflowPath, PathPart, WP.IdsOf;
    hide IsReleaseCandidate, IsBoundedText, IsCommit, IsIdentifier, IsRepository, Outsider;
    var a :| a in EntriesFor(s, completedAt) && RunKey(a) == WP.KeyOf(run);
    EntryShape(s, completedAt, a);
    assert s.k.groups[a.runId - 1] in s.k.groups;
  }

  lemma LinuxRecorded(s: Setting, completedAt: Micros)
    requires SettingOk(s)
    ensures LINUX_ID in Records(EntriesFor(s, completedAt))
    ensures Records(EntriesFor(s, completedAt))[LINUX_ID].runId > 0
  {
    hide SettingOk, EntriesFor, Records, EvidenceSpec;
    CampaignParses(s, completedAt, completedAt);
    LinuxRequired(s);
    var a := Records(EntriesFor(s, completedAt))[LINUX_ID];
    EntryShape(s, completedAt, a);
  }

  lemma LinuxRequired(s: Setting)
    requires SettingOk(s)
    ensures LINUX_ID in Required(s.k, s.providers)
  {
    hide BundleNamesFree, WorkflowsSafe, Fits, ProviderListOk, FilesOk, NamesOk, GroupsOk, LINUX_ID;
  }

  lemma AttemptsFit(s: Setting, completedAt: Micros)
    requires SettingOk(s)
    ensures WP.AttemptsVerified(CampaignFor(s, completedAt).value, s.d, SourcesFor(s, completedAt))
  {
    hide SettingOk, EntriesFor, WP.IsRunOf, Records, WP.AttemptOk, LINUX_ID, AttemptMetadata, ReportsFor, SubdirsOf;
    forall run | WP.IsRunOf(run, EntriesFor(s, completedAt), s.d.commit)
      ensures WP.KeyOf(run) in AttemptMetadata(s, completedAt)
      ensures WP.AttemptOk(AttemptMetadata(s, completedAt)[WP.KeyOf(run)], run, s.repository)
    {
      AttemptFits(s, completedAt, run);
    }
  }

  lemma BytesFit(s: Setting, completedAt: Micros, a: Artifact)
    requires SettingOk(s) && a in EntriesFor(s, completedAt)
    ensures WP.BytesHeld(a, SourcesFor(s, completedAt))
  {
    hide SettingOk, EntriesFor, Records, LINUX_ID, AttemptMetadata, Subdir;
    EntryShape(s, completedAt, a);
  }

  lemma SourcesVerify(s: Setting, completedAt: Micros)
    requires SettingOk(s)
    ensures WP.CanVerify(CampaignFor(s, completedAt).value, s.d, SourcesFor(s, completedAt))
  {
    hide ValidContract, BundleNamesFree, WorkflowsSafe, Fits, ProviderListOk, EntriesFor, WP.Unmixed, Records;
    hide IsReleaseCandidate, IsBoundedText, IsCommit, IsIdentifier, IsRepository, Outsider, WP.AttemptsVerified;
    hide LINUX_ID;
    hide AttemptMetadata, WP.BytesHeld, WP.Attempts, ReportsFor, Subdir;
    LinuxRecorded(s, completedAt);
    CampaignIsUnmixed(s, completedAt);
    AttemptKeys(s, completedAt);
    AttemptsFit(s, completedAt);
    forall a | a in EntriesFor(s, completedAt) ensures WP.BytesHeld(a, SourcesFor(s, completedAt)) {
      BytesFit(s, completedAt, a);
    }
  }

  lemma AttemptKeys(s: Setting, completedAt: Micros)
    ensures AttemptMetadata(s, completedAt).Keys == WP.Attempts(EntriesFor(s, completedAt))
  {
    hide EntriesFor, WP.Attempts;
  }

  /** The report workflow provenance writes at clock `now`. */
  lemma WorkflowReport(s: Setting, completedAt: Micros, now: Micros) returns (report: WP.Report)
    requires SettingOk(s)
    ensures WP.IsReport(s.k, CampaignFor(s, completedAt), s.d, s.repository, now, report)
  {
    hide SettingOk, EntriesFor, WP.IsRunList;
    CampaignIsUnmixed(s, completedAt);
    var artifacts := EntriesFor(s, completedAt);
    var runs := WP.RunListExists(artifacts, s.d.commit);
    var n := |artifacts|;
    report := WP.Report(
      SCHEMA_VERSION, WorkflowProvenanceClass, now, s.repository, s.d.releaseCandidate, Source(s.d.commit, false),
      CampaignFor(s, completedAt).Sha(), |runs|, n, runs,
      seq(n, i requires 0 <= i < n => WP.VerifiedArtifactOf(s.k, artifacts[i], s.d)), true, true, false);
  }

  // ----- the review ----------------------------------------------------------------------

  /** When the evidence was complete, the assembly finished and the review was made. */
  datatype Times = Times(evidence: Micros, assembly: Micros, review: Micros)

  const DAY_MICROS: Micros := 24 * 60 * 60 * SECOND

  /** In order, the review within thirty days of the assembly. */
  predicate TimesOk(t: Times) { t.evidence <= t.assembly <= t.review <= t.assembly + THIRTY_DAYS }

  function AllTrueChecks(k: Contract): map<string, bool> { AllTrueOf(Members(k.reviewChecks)) }

  function ObservationFor(s: Setting, t: Times): Review.Observation {
    Review.Observation(Review.OBSERVATION_SCHEMA, ObservationClass, s.d.releaseCandidate, Source(s.d.commit, false),
                       s.k.profileId, s.d.environment, s.onDevice, Sha256(s.campaign), [s.operator], s.reviewer,
                       t.review, "approved", AllTrueChecks(s.k), [])
  }

  /** What the reviewer is given once the bundle was verified at clock `now`. */
  function ReviewInputs(s: Setting, t: Times, runId: int, now: Micros): Review.Inputs {
    var campaign := CampaignFor(s, t.evidence);
    Review.Inputs(campaign, CP.ReportOf(s.k, campaign, s.d, BundleFor(s, t.evidence, runId, t.assembly), now),
                  File(s.observation, ObservationFor(s, t)), s.reviewer, s.repository, 1, 1, runId)
  }

  lemma AllChecks(k: Contract)
    ensures AllTrueChecks(k).Keys == Members(k.reviewChecks) && Review.AllChecksTrue(k, AllTrueChecks(k))
  {
    forall i | 0 <= i < |k.reviewChecks| ensures k.reviewChecks[i] in AllTrueChecks(k) {
      assert k.reviewChecks[i] in Members(k.reviewChecks);
    }
  }

  lemma ReviewerIsIndependent(s: Setting)
    requires SettingOk(s)
    ensures IsLogin(s.reviewer) && Review.Independent(s.k, s.reviewer, [s.operator])
    ensures CanonicalIds([s.operator], 1, 10)
  {
    hide ValidContract, BundleNamesFree, WorkflowsSafe, Fits, ProviderListOk, IsIdentifier, IsRepository, IsLogin, Fold;
    OneOperator(s.k, s.operator);
    assert FoldedMembers([s.operator]) == {Fold(s.operator)};
  }

  lemma ObservationFits(s: Setting, t: Times, runId: int, now: Micros)
    requires SettingOk(s)
    ensures var inp := ReviewInputs(s, t, runId, now);
            Review.ObservationBinds(s.k, inp.observation.value, inp.campaign, s.d, inp.actor)
  {
    hide SettingOk, EntriesFor, IsLogin, Fold, CP.ReportOf, BundleFor, CanonicalIds, Review.Independent, AllTrueChecks;
    ReviewerIsIndependent(s);
    AllChecks(s.k);
  }

  lemma ReviewIsTimely(s: Setting, t: Times, runId: int, now: Micros)
    requires SettingOk(s) && TimesOk(t) && t.review <= now
    ensures Review.Timely(t.review, Review.ReviewTimes(ReviewInputs(s, t, runId, now)), now)
    ensures Review.Prompt(t.review, EntriesFor(s, t.evidence)) <==> t.review - t.evidence <= THIRTY_DAYS
  {
    hide SettingOk, EntriesFor, AllTrueChecks, THIRTY_DAYS;
    var artifacts := EntriesFor(s, t.evidence);
    AllCompletedAt(s, t.evidence);
    CampaignParses(s, t.evidence, now);
    assert Review.ReviewTimes(ReviewInputs(s, t, runId, now)) == CompletionTimes(artifacts) + [t.assembly];
    Review.TimelyAfterAssembly(artifacts, t.evidence, t.assembly, t.review, now);
  }

  /** The reviewer can review, and the review clears exactly when it is prompt for the evidence too. */
  lemma Reviews(s: Setting, t: Times, runId: int, now: Micros)
    requires SettingOk(s) && TimesOk(t) && t.review <= now && runId > 0
    ensures Review.CanReview(s.k, ReviewInputs(s, t, runId, now), s.d, now)
  {
    hide CampaignOk, CP.CanVerify, CP.ProvenanceOk, EntriesFor, Review.ObservationBinds, Review.Timely, Review.Prompt;
    hide ValidContract, BundleNamesFree, WorkflowsSafe, ProviderListOk, IsRepository, IsLogin, IsIdentifier;
    hide IsReleaseCandidate, IsBoundedText, IsCommit;
    CampaignParses(s, t.evidence, now);
    BundleVerifies(s, t.evidence, runId, t.assembly, now);
    AllCompletedAt(s, t.evidence);
    CP.ProducerConsumerAgree(s.k, CampaignFor(s, t.evidence), s.d, BundleFor(s, t.evidence, runId, t.assembly), now,
                             now);
    ObservationFits(s, t, runId, now);
    ReviewIsTimely(s, t, runId, now);
  }

  function ReviewFor(s: Setting, t: Times, runId: int, now: Micros): File<Review.Record> {
    File(s.review, Review.ReviewOf(s.k, ReviewInputs(s, t, runId, now), s.d))
  }

  /** GitHub's record of the reviewer's own run. */
  function ProofFor(s: Setting, t: Times): (e: RP.Evidence)
    ensures RP.REVIEW_SIGNATURE_FILE in e.bundle
  {
    RP.Evidence(s.repository, 1,
                RunMetadata(1, 1, s.k.reviewWorkflow, s.d.commit, CP.DISPATCH_EVENT, "completed", "success", t.review,
                            s.repository, s.repository, s.reviewer, s.reviewer),
                map[RP.REVIEW_FILE := s.review, RP.REVIEW_SIGNATURE_FILE := s.reviewSignature], true)
  }

  lemma ReviewFields(s: Setting, t: Times, runId: int, now: Micros)
    ensures var r := ReviewFor(s, t, runId, now).value;
            && r.reviewer == s.reviewer && r.reviewedAt == t.review
            && r.workflow ==
               Review.ReviewWorkflow(s.repository, s.k.reviewWorkflow, CP.DISPATCH_EVENT, 1, 1, s.d.commit)
  {
    hide EntriesFor, CP.ReportOf, AllTrueChecks;
  }

  lemma ReviewRunHolds(s: Setting, t: Times, runId: int, now: Micros)
    requires SettingOk(s) && TimesOk(t) && t.review <= now
    ensures RP.ReviewRunOk(s.k, ProofFor(s, t).metadata, ReviewFor(s, t, runId, now).value, s.repository, now)
  {
    hide ValidContract, BundleNamesFree, Fits, ProviderListOk, SafeWorkflowPath, PathPart, IsLogin, Fold, ReviewFor;
    hide IsReleaseCandidate, IsBoundedText, IsCommit, IsIdentifier, IsRepository, RP.REVIEW_FILE;
    hide RP.REVIEW_SIGNATURE_FILE;
    ReviewFields(s, t, runId, now);
  }

  lemma ProofHolds(s: Setting, t: Times, runId: int, now: Micros)
    requires SettingOk(s) && TimesOk(t) && t.review <= now
    ensures RP.CanAuthenticate(s.k, ReviewFor(s, t, runId, now), ProofFor(s, t), now)
  {
    hide ValidContract, BundleNamesFree, WorkflowsSafe, Fits, ProviderListOk, Outsider, RP.ReviewRunOk, Review.ReviewOf;
    hide IsReleaseCandidate, IsBoundedText, IsCommit, IsIdentifier, IsRepository, RP.REVIEW_FILE;
    hide RP.REVIEW_SIGNATURE_FILE;
    hide ReviewInputs;
    ReviewFileNames();
    ReviewFields(s, t, runId, now);
    ReviewRunHolds(s, t, runId, now);
  }

  lemma ReviewFileNames()
    ensures RP.REVIEW_FILE != RP.REVIEW_SIGNATURE_FILE
  {
    assert |RP.REVIEW_FILE| != |RP.REVIEW_SIGNATURE_FILE|;
  }

  lemma ReviewIsAccepted(s: Setting, t: Times, runId: int, now: Micros)
    requires SettingOk(s) && TimesOk(t) && t.review <= now && runId > 0
    ensures Review.ReviewAccepted(s.k, ReviewFor(s, t, runId, now).value, CampaignFor(s, t.evidence), s.d, now)
  {
    hide Review.CanReview, Review.ReviewAccepted, Review.Clear, ReviewInputs, CampaignFor, ValidContract, WorkflowsSafe;
    hide ProviderListOk, IsReleaseCandidate, IsBoundedText, IsCommit, IsIdentifier, IsRepository, Outsider;
    Reviews(s, t, runId, now);
    Review.ReviewRoundTrip(s.k, ReviewInputs(s, t, runId, now), s.d, now, now);
    ReviewedCampaign(s, t, runId, now);
  }

  lemma ReviewedCampaign(s: Setting, t: Times, runId: int, now: Micros)
    ensures ReviewInputs(s, t, runId, now).campaign == CampaignFor(s, t.evidence)
    ensures ReviewInputs(s, t, runId, now).repository == s.repository
  {
  }
}

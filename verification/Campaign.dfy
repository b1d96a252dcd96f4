/** scripts/phase1_promotion_qualification.py: the campaign manifest and its parser. */
module Campaign {
  import opened Primitives
  import opened LiveProviderPlan

  const SCHEMA_VERSION := 1
  const MAX_ARTIFACTS := 32
  const PLAN_ID := "live-provider-plan"
  const LINUX_ID := "linux-cli-rc"
  const SOAK_ID := "resource-soak"
  const SLO_ID := "release-slo"
  const GAME_DAY_ID := "game-day"
  const STORAGE_ID := "storage-profile"
  const DELETION_ID := "external-deletion"

  /** Document classes, carried as tags. */
  datatype Class =
    | RequestClass | CampaignClass | CampaignProvenanceClass | WorkflowProvenanceClass
    | ObservationClass | ReviewClass | ReviewProvenanceClass | OtherClass(text: string)

  /** How the name of an uploaded artifact is formed. */
  datatype NameForm = Fixed(text: string) | WithCommit(prefix: string) | WithRelease(prefix: string)

  /** Which validator reads a report. */
  datatype Kind = LinuxCliKind | PlanKind | ProviderKind | OnDeviceKind | BackupKind | StorageKind | DeletionKind
    | SoakKind | SloKind | GameDayKind

  /** Report file, workflow, uploaded-artifact name and validator of one evidence id. */
  datatype Spec = Spec(file: string, workflow: string, name: NameForm, kind: Kind)

  /** A group of evidence ids that one workflow run produces. */
  datatype Group = Group(name: string, workflow: string, event: string, base: seq<string>)

  /** Where a report keeps one boolean result: at top level or in a section. */
  datatype FlagPath = Top(name: string) | In(section: string, name: string)

  /** The checked-in tables every stage shares. All results hold for any tables that meet
      ValidContract; module Tables gives the repository's own. */
  datatype Contract = Contract(
    catalog: Catalog,
    base: map<string, Spec>,
    groups: seq<Group>,
    liveWorkflow: string,
    campaignWorkflow: string,
    reviewWorkflow: string,
    profileId: string,
    reserved: set<string>,
    reviewChecks: seq<string>,
    linuxChecks: seq<FlagPath>,
    onDeviceChecks: seq<FlagPath>)

  const PROVIDER_PREFIX := "provider:"

  function ProviderId(provider: string): string { PROVIDER_PREFIX + provider }

  predicate IsProviderId(id: string) { PROVIDER_PREFIX <= id }

  function ProviderOf(id: string): string requires IsProviderId(id) { id[9..] }

  function ProviderFile(provider: string): string { "provider-" + provider + ".json" }

  function EvidenceSpec(k: Contract, id: string): Option<Spec> {
    if id in k.base then Some(k.base[id])
    else if IsProviderId(id) && ProviderOf(id) in k.catalog then
      Some(Spec(ProviderFile(ProviderOf(id)), k.liveWorkflow, Fixed("provider-" + ProviderOf(id)), ProviderKind))
    else None
  }

  function ArtifactName(spec: Spec, releaseCandidate: string, commit: string): string {
    match spec.name
    case Fixed(text) => text
    case WithCommit(prefix) => prefix + commit
    case WithRelease(prefix) => prefix + releaseCandidate + "-" + commit
  }

  /** The provider plan is base evidence, and no base id looks like a provider's. */
  predicate NamedIds(k: Contract) {
    PLAN_ID in k.base && forall id | id in k.base :: !IsProviderId(id)
  }

  /** The other ids that stages name directly are base evidence, each with its own validator. */
  predicate StageIds(k: Contract) {
    && LINUX_ID in k.base && HasKind(k, SOAK_ID, SoakKind) && HasKind(k, SLO_ID, SloKind)
    && HasKind(k, GAME_DAY_ID, GameDayKind) && HasKind(k, STORAGE_ID, StorageKind)
    && HasKind(k, DELETION_ID, DeletionKind)
  }

  predicate HasKind(k: Contract, id: string, kind: Kind) { id in k.base && k.base[id].kind == kind }

  /** Base ids and report files are safe names, and no two evidence ids share a file. */
  ghost predicate FilesOk(k: Contract) {
    && (forall id | id in k.base :: IsIdentifier(id) && '/' !in k.base[id].file && IsBoundedText(k.base[id].file, 128))
    && (forall id, id' | id in k.base && id' in k.base && k.base[id].file == k.base[id'].file :: id == id')
    && (forall id, p | id in k.base && p in k.catalog :: k.base[id].file != ProviderFile(p))
  }

  predicate IsNamePrefix(s: string) { s != "" && IsAlnum(s[0]) && AllIdChars(s) }

  /** Artifact names start like identifiers. */
  predicate NamesOk(k: Contract) {
    forall id | id in k.base ::
      match k.base[id].name
      case Fixed(text) => IsNamePrefix(text)
      case WithCommit(prefix) => IsNamePrefix(prefix)
      case WithRelease(prefix) => IsNamePrefix(prefix)
  }

  /** The run groups split the base evidence, each with the workflow its ids must name. */
  ghost predicate GroupsOk(k: Contract) {
    && Ascending(GroupNames(k.groups))
    && (forall g, id | g in k.groups && id in g.base :: id in k.base && k.base[id].workflow == g.workflow)
    && (forall g, g', id | g in k.groups && g' in k.groups && id in g.base && id in g'.base :: g == g')
    && (forall g | g in k.groups :: NoDuplicates(g.base))
    && (forall id | id in k.base :: exists g :: g in k.groups && id in g.base)
    && (PLAN_ID in k.base ==> k.base[PLAN_ID].workflow == k.liveWorkflow)
  }

  /** The table facts the scripts rely on. */
  ghost predicate ValidContract(k: Contract) {
    ValidCatalog(k.catalog) && NamedIds(k) && StageIds(k) && FilesOk(k) && NamesOk(k) && GroupsOk(k)
  }

  function GroupNames(groups: seq<Group>): (names: seq<string>)
    ensures |names| == |groups| && forall i | 0 <= i < |names| :: names[i] == groups[i].name
  {
    seq(|groups|, i requires 0 <= i < |groups| => groups[i].name)
  }

  datatype Source = Source(commit: string, dirty: bool)

  datatype Artifact = Artifact(
    evidenceId: string, path: string, sha256: Digest, workflowPath: string,
    runId: int, runAttempt: int, headSha: string, conclusion: string, completedAt: Micros)

  datatype Manifest = Manifest(
    schemaVersion: int, qualificationClass: Class, releaseCandidate: string, source: Source, profileId: string,
    targetEnvironment: string, onDeviceEnvironment: string, providers: seq<string>, operators: seq<string>,
    artifacts: seq<Artifact>)

  /** The dispatch a stage runs for. */
  datatype Dispatch = Dispatch(releaseCandidate: string, commit: string, environment: string)

  // ----- lists of identities -------------------------------------------------------------

  /** What _canonical_id_list demands: identifiers, distinct and sorted up to case. */
  predicate CanonicalIds(ids: seq<string>, minimum: nat, maximum: nat) {
    && minimum <= |ids| <= maximum
    && (forall i | 0 <= i < |ids| :: IsIdentifier(ids[i]))
    && (forall i, j | 0 <= i < j < |ids| :: TextLess(Fold(ids[i]), Fold(ids[j])))
  }

  predicate OperatorsOk(k: Contract, ids: seq<string>) {
    CanonicalIds(ids, 1, 10) && forall i | 0 <= i < |ids| :: Fold(ids[i]) !in k.reserved
  }

  function FoldedMembers(ids: seq<string>): set<string> { set x | x in ids :: Fold(x) }

  /** The providers that run beside the kernel; the others are hosted. */
  const OLLAMA := "ollama"
  const VLLM := "vllm"

  /** What _provider_list demands. */
  predicate ProviderListOk(providers: seq<string>, catalog: Catalog) {
    && 2 <= |providers| <= |catalog|
    && (forall i | 0 <= i < |providers| :: IsIdentifier(providers[i]))
    && providers == Select(catalog, Members(providers)) && NoDuplicates(providers)
    && Members(providers) <= Members(catalog)
    && OLLAMA in providers && VLLM in providers
    && exists i | 0 <= i < |providers| :: providers[i] != OLLAMA && providers[i] != VLLM
  }

  /** Any dispatched selection that holds both local providers and a hosted one is taken over
      unchanged by the campaign, as long as its names fit an identifier. */
  lemma SelectionIsPromotable(value: string, catalog: Catalog)
    requires ValidCatalog(catalog) && ProviderSet(value, catalog).Accept?
    ensures var selected := ProviderSet(value, catalog).value;
            ProviderListOk(selected, catalog) <==>
              && OLLAMA in selected && VLLM in selected
              && (exists p :: p in selected && p != OLLAMA && p != VLLM)
              && (forall p :: p in selected ==> |p| <= MAX_IDENTIFIER)
  {
    hide OLLAMA, VLLM, ProviderSet, IsProviderName;
    var selected := ProviderSet(value, catalog).value;
    SelectionIsCanonical(value, catalog);
    SelectMembers(catalog, Members(selected));
    forall p | p in selected ensures IsIdentifier(p) <==> |p| <= MAX_IDENTIFIER {
      assert p in Members(selected);
      ProviderNameFits(p);
    }
    if p :| p in selected && p != OLLAMA && p != VLLM {
      var k :| 0 <= k < |selected| && selected[k] == p;
      assert selected[k] != OLLAMA && selected[k] != VLLM;
    }
    assert forall k | 0 <= k < |selected| :: selected[k] in selected;
    if OLLAMA in selected && VLLM in selected {
      LocalsDiffer();
      var i :| 0 <= i < |selected| && selected[i] == OLLAMA;
      var j :| 0 <= j < |selected| && selected[j] == VLLM;
      assert i != j;
    }
  }

  lemma LocalsDiffer()
    ensures OLLAMA != VLLM
  {
    assert |OLLAMA| != |VLLM|;
  }

  lemma ProviderNameFits(p: string)
    requires IsProviderName(p)
    ensures IsIdentifier(p) <==> |p| <= MAX_IDENTIFIER
  {
  }

  // ----- the manifest --------------------------------------------------------------------

  function Required(k: Contract, providers: seq<string>): set<string> {
    k.base.Keys + set p | p in providers :: ProviderId(p)
  }

  predicate ArtifactOk(k: Contract, a: Artifact, d: Dispatch, now: Micros) {
    && IsIdentifier(a.evidenceId)
    && EvidenceSpec(k, a.evidenceId).Some?
    && (var spec := EvidenceSpec(k, a.evidenceId).value;
        && a.path == spec.file && '/' !in a.path && IsBoundedText(a.path, 128)
        && a.workflowPath == spec.workflow)
    && a.sha256.Sha256?
    && a.runId > 0 && a.runAttempt > 0
    && a.headSha == d.commit && a.conclusion == "success"
    && a.completedAt <= now + CLOCK_SKEW
  }

  function Ids(artifacts: seq<Artifact>): (ids: seq<string>)
    ensures |ids| == |artifacts| && forall i | 0 <= i < |ids| :: ids[i] == artifacts[i].evidenceId
  {
    seq(|artifacts|, i requires 0 <= i < |artifacts| => artifacts[i].evidenceId)
  }

  function CompletionTimes(artifacts: seq<Artifact>): (ts: seq<Micros>)
    ensures |ts| == |artifacts| && forall i | 0 <= i < |ts| :: ts[i] == artifacts[i].completedAt
  {
    seq(|artifacts|, i requires 0 <= i < |artifacts| => artifacts[i].completedAt)
  }

  /** The dictionary a scan of the artifact list builds; a later entry wins. */
  function Records(artifacts: seq<Artifact>): (m: map<string, Artifact>)
    ensures m.Keys == Members(Ids(artifacts))
    ensures forall id | id in m :: m[id].evidenceId == id && m[id] in artifacts
  {
    if artifacts == [] then map[]
    else
      var last := artifacts[|artifacts| - 1];
      var before := Records(artifacts[..|artifacts| - 1]);
      assert artifacts == artifacts[..|artifacts| - 1] + [last];
      assert Ids(artifacts) == Ids(artifacts[..|artifacts| - 1]) + [last.evidenceId];
      before[last.evidenceId := last]
  }

  lemma {:induction false} RecordsLookup(artifacts: seq<Artifact>, i: nat)
    requires i < |artifacts| && NoDuplicates(Ids(artifacts))
    ensures artifacts[i].evidenceId in Records(artifacts)
    ensures Records(artifacts)[artifacts[i].evidenceId] == artifacts[i]
  {
    var n := |artifacts| - 1;
    assert Ids(artifacts)[i] in Members(Ids(artifacts));
    if i < n {
      assert Ids(artifacts[..n]) == Ids(artifacts)[..n];
      RecordsLookup(artifacts[..n], i);
      assert Ids(artifacts)[i] != Ids(artifacts)[n];
    }
  }

  function RunKey(a: Artifact): (int, int) { (a.runId, a.runAttempt) }

  predicate SameRun(a: Artifact, b: Artifact) {
    RunKey(a) == RunKey(b) && a.headSha == b.headSha && a.completedAt == b.completedAt
  }

  predicate HeaderOk(k: Contract, c: Manifest, d: Dispatch) {
    && c.schemaVersion == SCHEMA_VERSION && c.qualificationClass == CampaignClass
    && c.releaseCandidate == d.releaseCandidate && c.source == Source(d.commit, false) && c.profileId == k.profileId
    && c.targetEnvironment == d.environment
    && IsIdentifier(c.onDeviceEnvironment) && c.onDeviceEnvironment != d.environment
    && ProviderListOk(c.providers, k.catalog) && OperatorsOk(k, c.operators)
    && |k.base| + |c.providers| <= |c.artifacts| <= MAX_ARTIFACTS
  }

  /** The manifests the parser accepts at clock `now`. */
  ghost predicate CampaignOk(k: Contract, c: Manifest, d: Dispatch, now: Micros) {
    && HeaderOk(k, c, d)
    && (forall a | a in c.artifacts :: ArtifactOk(k, a, d, now))
    && ArtifactsOk(k, c.artifacts, c.providers)
  }

  datatype Parsed = Parsed(records: map<string, Artifact>, completionTimes: seq<Micros>)

  ghost function ParsedOf(c: Manifest): Parsed { Parsed(Records(c.artifacts), CompletionTimes(c.artifacts)) }

  lemma RequiredProviderIds(k: Contract, providers: seq<string>, id: string)
    requires NamedIds(k) && id in Required(k, providers)
    ensures IsProviderId(id) <==> id !in k.base
    ensures IsProviderId(id) ==> ProviderOf(id) in providers && id == ProviderId(ProviderOf(id))
  {
    if id !in k.base {
      var p :| p in providers && id == ProviderId(p);
      assert ProviderOf(id) == p;
    }
  }

  lemma ScanStep(artifacts: seq<Artifact>, i: nat)
    requires i < |artifacts|
    ensures Ids(artifacts[..i + 1]) == Ids(artifacts[..i]) + [artifacts[i].evidenceId]
    ensures CompletionTimes(artifacts[..i + 1]) == CompletionTimes(artifacts[..i]) + [artifacts[i].completedAt]
    ensures Records(artifacts[..i + 1]) == Records(artifacts[..i])[artifacts[i].evidenceId := artifacts[i]]
    ensures forall a :: a in artifacts[..i + 1] <==> a in artifacts[..i] || a == artifacts[i]
  {
    assert artifacts[..i + 1][..i] == artifacts[..i];
    assert artifacts[..i + 1] == artifacts[..i] + [artifacts[i]];
  }

  lemma RepeatedId(artifacts: seq<Artifact>, i: nat)
    requires i < |artifacts| && artifacts[i].evidenceId in Records(artifacts[..i])
    ensures !NoDuplicates(Ids(artifacts))
  {
    var j :| 0 <= j < i && Ids(artifacts[..i])[j] == artifacts[i].evidenceId;
    assert Ids(artifacts)[j] == Ids(artifacts)[i];
  }

  /** The first loop: fills the record dictionary and the completion times in list order. */
  method ScanArtifacts(artifacts: seq<Artifact>, ok: Artifact -> bool) returns (r: Outcome<Parsed>)
    ensures r.Accept? <==> NoDuplicates(Ids(artifacts)) && forall a | a in artifacts :: ok(a)
    ensures r.Accept? ==> r.value == Parsed(Records(artifacts), CompletionTimes(artifacts))
  {
    var parsed: map<string, Artifact> := map[];
    var times: seq<Micros> := [];
    for i := 0 to |artifacts|
      invariant times == CompletionTimes(artifacts[..i])
      invariant parsed == Records(artifacts[..i])
      invariant NoDuplicates(Ids(artifacts[..i]))
      invariant forall a | a in artifacts[..i] :: ok(a)
    {
      var a := artifacts[i];
      if a.evidenceId in parsed {
        RepeatedId(artifacts, i);
        return Reject;
      }
      if !ok(a) { return Reject; }
      ScanStep(artifacts, i);
      times := times + [a.completedAt];
      parsed := parsed[a.evidenceId := a];
    }
    assert artifacts[..|artifacts|] == artifacts;
    r := Accept(Parsed(parsed, times));
  }

  /** The last loop: every promoted provider comes from the plan's run. */
  method ProvidersShareRun(k: Contract, providers: seq<string>, parsed: map<string, Artifact>) returns (same: bool)
    requires NamedIds(k) && parsed.Keys == Required(k, providers)
    ensures same <==> forall id | id in parsed && IsProviderId(id) :: SameRun(parsed[PLAN_ID], parsed[id])
  {
    var plan := parsed[PLAN_ID];
    for i := 0 to |providers|
      invariant forall j | 0 <= j < i ::
        ProviderId(providers[j]) in parsed && SameRun(plan, parsed[ProviderId(providers[j])])
    {
      assert providers[i] in providers;
      if !SameRun(plan, parsed[ProviderId(providers[i])]) {
        assert IsProviderId(ProviderId(providers[i]));
        return false;
      }
    }
    forall id | id in parsed && IsProviderId(id) ensures SameRun(plan, parsed[id]) {
      RequiredProviderIds(k, providers, id);
      var j :| 0 <= j < |providers| && providers[j] == ProviderOf(id);
    }
    same := true;
  }

  lemma SameRunByRecords(artifacts: seq<Artifact>)
    requires NoDuplicates(Ids(artifacts)) && PLAN_ID in Records(artifacts)
    ensures (forall id | id in Records(artifacts) && IsProviderId(id) ::
               SameRun(Records(artifacts)[PLAN_ID], Records(artifacts)[id])) <==>
            (forall a, b | a in artifacts && b in artifacts && a.evidenceId == PLAN_ID &&
               IsProviderId(b.evidenceId) :: SameRun(a, b))
  {
    forall a | a in artifacts ensures a.evidenceId in Records(artifacts) && Records(artifacts)[a.evidenceId] == a {
      var i :| 0 <= i < |artifacts| && artifacts[i] == a;
      RecordsLookup(artifacts, i);
    }
  }

  ghost predicate ArtifactsOk(k: Contract, artifacts: seq<Artifact>, providers: seq<string>) {
    && Ascending(Ids(artifacts))
    && Members(Ids(artifacts)) == Required(k, providers)
    && (forall a, b | a in artifacts && b in artifacts && a.evidenceId == PLAN_ID && IsProviderId(b.evidenceId) ::
          SameRun(a, b))
  }

  method ParseArtifacts(k: Contract, artifacts: seq<Artifact>, providers: seq<string>, ok: Artifact -> bool)
    returns (r: Outcome<Parsed>)
    requires NamedIds(k)
    ensures r.Accept? <==> ArtifactsOk(k, artifacts, providers) && forall a | a in artifacts :: ok(a)
    ensures r.Accept? ==> r.value == Parsed(Records(artifacts), CompletionTimes(artifacts))
  {
    var ids := Ids(artifacts);
    AscendingIffSortedDistinct(ids);
    r := ScanArtifacts(artifacts, ok);
    if r.Reject? { return; }
    SortedIsFixpoint(ids);
    if ids != Sort(ids, TextLeq) { return Reject; }
    SortedDistinctIsAscending(ids);
    var records := r.value.records;
    if records.Keys != Required(k, providers) { return Reject; }
    SameRunByRecords(artifacts);
    var same := ProvidersShareRun(k, providers, records);
    if !same { return Reject; }
  }

  /** Scans the manifest as the script does and accepts the manifests of CampaignOk. */
  method ParseCampaign(k: Contract, c: Manifest, d: Dispatch, now: Micros) returns (r: Outcome<Parsed>)
    requires NamedIds(k)
    ensures r.Accept? <==> CampaignOk(k, c, d, now)
    ensures r.Accept? ==> r.value == ParsedOf(c)
  {
    if !HeaderOk(k, c, d) { return Reject; }
    r := ParseArtifacts(k, c.artifacts, c.providers, a => ArtifactOk(k, a, d, now));
  }
}

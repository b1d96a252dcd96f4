/** The checked-in tables of the phase 1 profile, and what they make of the general side conditions. */
module Tables {
  import opened Primitives
  import opened LiveProviderPlan
  import opened Campaign
  import WA = WorkflowAgreement

  const ON_DEVICE_ID := "on-device"
  const BACKUP_ID := "target-remote-backup"

  /** The base evidence, in the order of its run groups. */
  const BASE_IDS: seq<string> :=
    [DELETION_ID, GAME_DAY_ID, LINUX_ID, PLAN_ID, ON_DEVICE_ID, SLO_ID, SOAK_ID, STORAGE_ID, BACKUP_ID]

  function Workflow(name: string): string { ".github/workflows/" + name + ".yml" }

  function KindOf(id: string): Kind {
    if id == DELETION_ID then DeletionKind else if id == GAME_DAY_ID then GameDayKind
    else if id == STORAGE_ID then StorageKind else BackupKind
  }

  function BaseSpec(id: string): Spec {
    var qualification := Workflow(id + "-qualification");
    if id == LINUX_ID
    then Spec(id + "-qualification.json", Workflow(id), Fixed("qualified-" + id + "-bundle"), LinuxCliKind)
    else if id == PLAN_ID
    then Spec(id + ".json", Workflow("live-provider-qualification"), WithCommit(id + "-"), PlanKind)
    else if id == ON_DEVICE_ID then Spec(id + ".json", qualification, WithRelease(id + "-qualification-"), OnDeviceKind)
    else if id == SLO_ID then Spec(id + "-report.json", qualification, WithRelease(id + "-"), SloKind)
    else if id == SOAK_ID then Spec(id + ".json", qualification, WithCommit(id + "-"), SoakKind)
    else Spec(id + ".json", qualification, WithRelease(id + "-"), KindOf(id))
  }

  /** The run that produces one base id; the provider plan's run also carries the providers. */
  function GroupFor(id: string): Group {
    Group(if id == PLAN_ID then "live-provider" else id, BaseSpec(id).workflow,
          if id == LINUX_ID then "push" else "workflow_dispatch", [id])
  }

  function Groups(): (groups: seq<Group>)
    ensures |groups| == |BASE_IDS| && forall i | 0 <= i < |groups| :: groups[i] == GroupFor(BASE_IDS[i])
  {
    seq(|BASE_IDS|, i requires 0 <= i < |BASE_IDS| => GroupFor(BASE_IDS[i]))
  }

  const REVIEW_CHECKS: seq<string> := [
    "exact_release_candidate_and_commit", "workflow_run_provenance_verified", "artifact_digests_verified",
    "linux_cli_signatures_and_fresh_host_reviewed", "promoted_provider_contracts_reviewed",
    "on_device_model_and_resource_limits_reviewed", "remote_backup_retention_and_recovery_reviewed",
    "destructive_storage_rpo_rto_reviewed", "external_deletion_and_retention_reviewed",
    "resource_soak_and_slo_reviewed", "human_game_day_reviewed", "no_open_findings"]

  const LINUX_CHECKS: seq<FlagPath> := [
    In("supply_chain", "github_provenance_verified"), In("supply_chain", "keyless_sigstore_verified"),
    In("runtime", "authentication_required"), In("runtime", "clean_restart_persisted_state"),
    In("runtime", "exact_version_served"), In("runtime", "gate_counters_observable"),
    In("runtime", "governed_agent_created"), In("runtime", "tls_verified"),
    In("runtime", "wrong_authentication_rejected"), In("durability", "backup_encrypted"),
    In("durability", "backup_signed"), In("durability", "enforcement_rearmed"),
    In("durability", "fresh_host_restore_completed"), In("durability", "fresh_host_runtime_verified"),
    In("durability", "missing_key_failed_closed"), In("durability", "recovery_anchor_verified"),
    In("durability", "storage_encrypted"), In("durability", "tampered_backup_rejected"),
    In("upgrade", "released_agent_survived"), In("upgrade", "released_schema_encrypted"),
    In("upgrade", "released_schema_fixture_verified")]

  const ON_DEVICE_CHECKS: seq<FlagPath> := [
    Top("passed"), Top("on_device_proof_eligible"), In("checks", "native_incremental_stream"),
    In("checks", "stream_batch_byte_parity"), In("checks", "bounded_stream_generation"),
    In("checks", "mid_decode_cancellation_observed"), In("checks", "mid_decode_worker_drained"),
    In("checks", "bounded_generation"), In("checks", "cancellation_worker_drained"), In("checks", "load_within_target"),
    In("checks", "peak_rss_within_target"), In("checks", "provisioned_inputs_stable"),
    In("checks", "supported_cpu_profile")]

  function Phase1(catalog: Catalog): Contract {
    Contract(catalog, map id | id in BASE_IDS :: BaseSpec(id), Groups(), Workflow("live-provider-qualification"),
             Workflow("phase1-campaign-assembly"), Workflow("phase1-independent-review"),
             "single-node-linux-rootless-container-cli",
             {"github-actions", "agentos", "qualification-harness", "unknown"},
             REVIEW_CHECKS, LINUX_CHECKS, ON_DEVICE_CHECKS)
  }

  // ----- ids and names -------------------------------------------------------------------

  /** Lower-case words joined by hyphens and dots: safe in ids, file names and artifact names. */
  predicate NameChar(c: char) { 'a' <= c <= 'z' || c == '-' || c == '.' }
  predicate NameChars(s: string) { forall i | 0 <= i < |s| :: NameChar(s[i]) }
  predicate NameText(s: string) { s != "" && 'a' <= s[0] <= 'z' && NameChars(s) }

  lemma NameTextFacts(s: string)
    requires NameText(s) && |s| <= MAX_IDENTIFIER
    ensures IsIdentifier(s) && IsNamePrefix(s) && '/' !in s && !IsProviderId(s) && IsBoundedText(s, 128)
  {
    forall i | 0 <= i < |s| ensures IsIdChar(s[i]) && s[i] as int < 0x80 && s[i] != '/' && s[i] != ':' {
      assert NameChar(s[i]);
      if !IsAlnum(s[i]) { assert "._:/-"[0] == '.' && "._:/-"[4] == '-'; }
    }
    AsciiSize(s);
    assert PROVIDER_PREFIX[8] == ':';
  }

  /** Base ids are told apart by their lengths; their first letters order the run groups. */
  lemma IdShapes()
    ensures |DELETION_ID| == 17 && |GAME_DAY_ID| == 8 && |LINUX_ID| == 12 && |PLAN_ID| == 18 && |ON_DEVICE_ID| == 9
    ensures |SLO_ID| == 11 && |SOAK_ID| == 13 && |STORAGE_ID| == 15 && |BACKUP_ID| == 20
    ensures forall i | 0 <= i < 9 :: BASE_IDS[i] != "" && BASE_IDS[i][0] == "egllorrst"[i]
  {
  }

  lemma IdTexts()
    ensures NameText(DELETION_ID) && NameText(GAME_DAY_ID) && NameText(LINUX_ID) && NameText(PLAN_ID)
    ensures NameText(ON_DEVICE_ID) && NameText(SLO_ID) && NameText(SOAK_ID) && NameText(STORAGE_ID)
    ensures NameText(BACKUP_ID)
  {
  }

  lemma SuffixTexts()
    ensures NameChars("-qualification.json") && NameChars(".json") && NameChars("-report.json") && NameChars("-bundle")
    ensures NameChars("-") && NameChars("-qualification-") && NameText("qualified-")
  {
  }

  lemma NameJoins(a: string, b: string)
    requires NameText(a) && NameChars(b)
    ensures NameText(a + b) && (a + b)[0] == a[0]
  {
  }

  function PrefixOf(n: NameForm): string { match n case Fixed(t) => t case WithCommit(t) => t case WithRelease(t) => t }

  lemma SpecFacts(id: string)
    requires id in BASE_IDS
    ensures NameText(id) && |id| <= 20 && id[0] != 'p'
    ensures NameText(BaseSpec(id).file) && |BaseSpec(id).file| <= MAX_IDENTIFIER && BaseSpec(id).file[0] == id[0]
    ensures NameText(PrefixOf(BaseSpec(id).name)) && |PrefixOf(BaseSpec(id).name)| <= MAX_IDENTIFIER
  {
    hide DELETION_ID, GAME_DAY_ID, LINUX_ID, PLAN_ID, ON_DEVICE_ID, SLO_ID, SOAK_ID, STORAGE_ID, BACKUP_ID;
    hide NameText, NameChars, Workflow;
    IdShapes();
    IdTexts();
    SuffixTexts();
    TextChars(id);
    NameJoins(id, ".json");
    NameJoins(id, "-");
    NameJoins(id, "-qualification.json");
    NameJoins(id, "-report.json");
    NameJoins(id, "-qualification-");
    NameJoins("qualified-", id);
    NameJoins("qualified-" + id, "-bundle");
  }

  lemma TextChars(s: string)
    requires NameText(s)
    ensures NameChars(s) && s != ""
  {
  }

  lemma FilesDiffer(id: string, id': string)
    requires id in BASE_IDS && id' in BASE_IDS && BaseSpec(id).file == BaseSpec(id').file
    ensures id == id'
  {
    hide DELETION_ID, GAME_DAY_ID, LINUX_ID, PLAN_ID, ON_DEVICE_ID, SLO_ID, SOAK_ID, STORAGE_ID, BACKUP_ID;
    hide Workflow, NameText;
    IdShapes();
    SpecFacts(id);
    SpecFacts(id');
    assert BASE_IDS[3][0] == "egllorrst"[3] && BASE_IDS[5][0] == "egllorrst"[5];
  }

  lemma IdsDistinct()
    ensures NoDuplicates(BASE_IDS)
  {
    hide DELETION_ID, GAME_DAY_ID, LINUX_ID, PLAN_ID, ON_DEVICE_ID, SLO_ID, SOAK_ID, STORAGE_ID, BACKUP_ID;
    IdShapes();
  }

  // ----- groups --------------------------------------------------------------------------

  lemma NeighboursAscend()
    ensures TextLess(LINUX_ID, "live-provider") && TextLess(SLO_ID, SOAK_ID)
  {
    assert LINUX_ID[1..][0] == 'i' && "live-provider"[1..][0] == 'i';
    assert LINUX_ID[1..][1..][0] == 'n' && "live-provider"[1..][1..][0] == 'v';
    assert SLO_ID[1..][0] == 'e' && SOAK_ID[1..][0] == 'e';
    assert SLO_ID[1..][1..][0] == 'l' && SOAK_ID[1..][1..][0] == 's';
  }

  lemma LetterOrder(i: nat, j: nat)
    requires i < j < 9
    ensures "egllorrst"[i] < "egllorrst"[j] || (i == 2 && j == 3) || (i == 5 && j == 6)
  {
  }

  lemma GroupName(i: nat)
    requires i < |BASE_IDS|
    ensures GroupFor(BASE_IDS[i]).name == (if i == 3 then "live-provider" else BASE_IDS[i])
    ensures GroupFor(BASE_IDS[i]).name != "" && GroupFor(BASE_IDS[i]).name[0] == "egllorrst"[i]
  {
    hide DELETION_ID, GAME_DAY_ID, LINUX_ID, PLAN_ID, ON_DEVICE_ID, SLO_ID, SOAK_ID, STORAGE_ID, BACKUP_ID;
    hide BaseSpec;
    IdShapes();
    IdsDistinct();
    assert BASE_IDS[3] == PLAN_ID;
    assert BASE_IDS[i] != "" && BASE_IDS[i][0] == "egllorrst"[i];
    assert i != 3 ==> BASE_IDS[i] != BASE_IDS[3];
  }

  lemma GroupsAscend()
    ensures Ascending(GroupNames(Groups()))
  {
    hide DELETION_ID, GAME_DAY_ID, LINUX_ID, PLAN_ID, ON_DEVICE_ID, SLO_ID, SOAK_ID, STORAGE_ID, BACKUP_ID;
    hide GroupFor;
    var names := GroupNames(Groups());
    NeighboursAscend();
    forall i, j | 0 <= i < j < |names| ensures TextLess(names[i], names[j]) {
      GroupName(i);
      GroupName(j);
      LetterOrder(i, j);
      assert BASE_IDS[2] == LINUX_ID && BASE_IDS[5] == SLO_ID && BASE_IDS[6] == SOAK_ID;
    }
  }

  lemma GroupAt(g: Group) returns (i: nat)
    requires g in Groups()
    ensures i < |BASE_IDS| && g == GroupFor(BASE_IDS[i])
    ensures g.base == [BASE_IDS[i]] && g.workflow == BaseSpec(BASE_IDS[i]).workflow
  {
    hide DELETION_ID, GAME_DAY_ID, LINUX_ID, PLAN_ID, ON_DEVICE_ID, SLO_ID, SOAK_ID, STORAGE_ID, BACKUP_ID;
    hide BaseSpec;
    i :| 0 <= i < |BASE_IDS| && Groups()[i] == g;
  }

  // ----- the contract --------------------------------------------------------------------

  lemma KindsAndPlan()
    ensures BaseSpec(PLAN_ID).workflow == Workflow("live-provider-qualification")
    ensures BaseSpec(SLO_ID).kind == SloKind && BaseSpec(SOAK_ID).kind == SoakKind
    ensures BaseSpec(GAME_DAY_ID).kind == GameDayKind
    ensures BaseSpec(STORAGE_ID).kind == StorageKind && BaseSpec(DELETION_ID).kind == DeletionKind
    ensures PLAN_ID in BASE_IDS && LINUX_ID in BASE_IDS && SLO_ID in BASE_IDS && SOAK_ID in BASE_IDS
    ensures GAME_DAY_ID in BASE_IDS
    ensures STORAGE_ID in BASE_IDS && DELETION_ID in BASE_IDS && ON_DEVICE_ID in BASE_IDS
  {
    hide DELETION_ID, GAME_DAY_ID, LINUX_ID, PLAN_ID, ON_DEVICE_ID, SLO_ID, SOAK_ID, STORAGE_ID, BACKUP_ID;
    hide Workflow;
    IdShapes();
  }

  /** A contract with the base evidence and run groups above. */
  ghost predicate HasTables(k: Contract) {
    && k.base == (map id | id in BASE_IDS :: BaseSpec(id)) && k.groups == Groups()
    && k.liveWorkflow == Workflow("live-provider-qualification")
  }

  lemma BaseIsNamed(k: Contract)
    requires HasTables(k)
    ensures NamedIds(k) && StageIds(k) && NamesOk(k)
  {
    hide DELETION_ID, GAME_DAY_ID, LINUX_ID, PLAN_ID, ON_DEVICE_ID, SLO_ID, SOAK_ID, STORAGE_ID, BACKUP_ID;
    hide BaseSpec, NameText, IsIdentifier, IsNamePrefix, Workflow, BASE_IDS, Groups;
    KindsAndPlan();
    forall id | id in k.base ensures !IsProviderId(id) && IsNamePrefix(PrefixOf(k.base[id].name)) {
      SpecFacts(id);
      NameTextFacts(id);
      NameTextFacts(PrefixOf(BaseSpec(id).name));
    }
  }

  lemma BaseFilesOk(k: Contract)
    requires HasTables(k)
    ensures FilesOk(k)
  {
    hide BaseSpec, NameText, IsIdentifier, IsBoundedText, Workflow, BASE_IDS, Groups, ProviderFile;
    forall id | id in k.base
      ensures IsIdentifier(id) && '/' !in k.base[id].file && IsBoundedText(k.base[id].file, 128)
      ensures k.base[id].file != "" && k.base[id].file[0] != 'p'
    {
      SpecFacts(id);
      NameTextFacts(id);
      NameTextFacts(BaseSpec(id).file);
      TextChars(BaseSpec(id).file);
    }
    forall id, id' | id in k.base && id' in k.base && k.base[id].file == k.base[id'].file ensures id == id' {
      FilesDiffer(id, id');
    }
    forall id, p | id in k.base && p in k.catalog ensures k.base[id].file != ProviderFile(p) { ProviderFileStart(p); }
  }

  lemma ProviderFileStart(p: string)
    ensures ProviderFile(p) != "" && ProviderFile(p)[0] == 'p'
  {
    assert ProviderFile(p)[0] == "provider-"[0];
  }

  lemma GroupFacts(g: Group, id: string)
    requires g in Groups() && id in g.base
    ensures g.base == [id] && id in BASE_IDS && BaseSpec(id).workflow == g.workflow
  {
    hide DELETION_ID, GAME_DAY_ID, LINUX_ID, PLAN_ID, ON_DEVICE_ID, SLO_ID, SOAK_ID, STORAGE_ID, BACKUP_ID;
    hide BaseSpec, GroupFor, BASE_IDS, Groups;
    var i := GroupAt(g);
  }

  lemma GroupsShareNothing(g: Group, g': Group, id: string)
    requires g in Groups() && g' in Groups() && id in g.base && id in g'.base
    ensures g == g'
  {
    hide DELETION_ID, GAME_DAY_ID, LINUX_ID, PLAN_ID, ON_DEVICE_ID, SLO_ID, SOAK_ID, STORAGE_ID, BACKUP_ID;
    hide BaseSpec, GroupFor, BASE_IDS, Groups;
    IdsDistinct();
    var i := GroupAt(g);
    var j := GroupAt(g');
  }

  lemma BaseIsGrouped(k: Contract)
    requires HasTables(k)
    ensures GroupsOk(k)
  {
    hide DELETION_ID, GAME_DAY_ID, LINUX_ID, PLAN_ID, ON_DEVICE_ID, SLO_ID, SOAK_ID, STORAGE_ID, BACKUP_ID;
    hide BaseSpec, Workflow, GroupFor, Ascending, GroupNames, BASE_IDS, Groups;
    GroupsAscend();
    PlanWorkflow();
    forall g, id | g in k.groups && id in g.base
      ensures id in k.base && k.base[id].workflow == g.workflow && g.base == [id]
    {
      GroupFacts(g, id);
    }
    forall g, g', id | g in k.groups && g' in k.groups && id in g.base && id in g'.base ensures g == g' {
      GroupsShareNothing(g, g', id);
    }
    forall g | g in k.groups ensures NoDuplicates(g.base) {
      if g.base != [] { GroupFacts(g, g.base[0]); }
    }
    forall id | id in k.base ensures exists g :: g in k.groups && id in g.base {
      var i :| 0 <= i < |BASE_IDS| && BASE_IDS[i] == id;
      GroupBase(i);
    }
  }

  lemma PlanWorkflow()
    ensures BaseSpec(PLAN_ID).workflow == Workflow("live-provider-qualification")
  {
    hide Workflow;
    KindsAndPlan();
  }

  lemma GroupBase(i: nat)
    requires i < |BASE_IDS|
    ensures exists g :: g in Groups() && BASE_IDS[i] in g.base
  {
    hide BaseSpec, BASE_IDS;
    var g := Groups()[i];
    assert g in Groups() && g.base == [BASE_IDS[i]];
  }

  /** The repository's tables meet every condition the results above rely on, for any valid catalogue. */
  lemma TablesAreValid(catalog: Catalog)
    requires ValidCatalog(catalog)
    ensures ValidContract(Phase1(catalog)) && |Phase1(catalog).base| == 9
  {
    hide NamedIds, StageIds, FilesOk, NamesOk, GroupsOk, BaseSpec, Workflow, GroupFor;
    hide DELETION_ID, GAME_DAY_ID, LINUX_ID, PLAN_ID, ON_DEVICE_ID, SLO_ID, SOAK_ID, STORAGE_ID, BACKUP_ID;
    var k := Phase1(catalog);
    BaseIsNamed(k);
    BaseFilesOk(k);
    BaseIsGrouped(k);
    IdsDistinct();
    DistinctCardinality(BASE_IDS);
    assert k.base.Keys == set x | x in BASE_IDS;
  }

  /** With these tables the artifact names of a campaign all fit an identifier exactly when the
      release tag has at most 63 characters and no provider name is over 119. */
  lemma NamesFitExactly(catalog: Catalog, d: Dispatch, artifacts: seq<Artifact>)
    requires IsCommit(d.commit) && ON_DEVICE_ID in Ids(artifacts)
    requires forall a | a in artifacts :: EvidenceSpec(Phase1(catalog), a.evidenceId).Some?
    ensures (forall a | a in artifacts :: |WA.NameOf(Phase1(catalog), d, a)| <= MAX_IDENTIFIER) <==>
            |d.releaseCandidate| <= 63 &&
            forall a | a in artifacts && IsProviderId(a.evidenceId) :: |ProviderOf(a.evidenceId)| <= 119
  {
    hide BaseSpec, Workflow, GroupFor, IsCommit, BASE_IDS, ON_DEVICE_ID, NameText;
    var k := Phase1(catalog);
    forall a | a in artifacts
      ensures a.evidenceId in k.base ==> !IsProviderId(a.evidenceId)
      ensures a.evidenceId in k.base && |d.releaseCandidate| <= 63 ==> |WA.NameOf(k, d, a)| <= MAX_IDENTIFIER
      ensures a.evidenceId == ON_DEVICE_ID ==> |WA.NameOf(k, d, a)| == 65 + |d.releaseCandidate|
      ensures a.evidenceId !in k.base ==>
                IsProviderId(a.evidenceId) && |WA.NameOf(k, d, a)| == 9 + |ProviderOf(a.evidenceId)|
    {
      KindsAndPlan();
      if a.evidenceId in k.base {
        SpecFacts(a.evidenceId);
        NameTextFacts(a.evidenceId);
        NameLength(a.evidenceId, d);
      }
    }
    var i :| 0 <= i < |artifacts| && Ids(artifacts)[i] == ON_DEVICE_ID;
    assert artifacts[i] in artifacts;
  }

  lemma NameLength(id: string, d: Dispatch)
    requires id in BASE_IDS && IsCommit(d.commit)
    ensures |ArtifactName(BaseSpec(id), d.releaseCandidate, d.commit)| <= 65 + |d.releaseCandidate|
    ensures id == ON_DEVICE_ID
            ==> |ArtifactName(BaseSpec(id), d.releaseCandidate, d.commit)| == 65 + |d.releaseCandidate|
  {
    hide DELETION_ID, GAME_DAY_ID, LINUX_ID, PLAN_ID, ON_DEVICE_ID, SLO_ID, SOAK_ID, STORAGE_ID, BACKUP_ID;
    hide Workflow;
    IdShapes();
  }
}

/** From eligible evaluations up to a ready decision: the converse of ReadyMeans, run by run. */
module ReadyWitness {
  import opened Primitives
  import opened LiveProviderPlan
  import opened Campaign
  import opened Protocol
  import opened W = Witnesses
  import opened WitnessRuns
  import opened ReadyMeans
  import Assembly
  import ReleaseSlo
  import StorageProfile
  import ExternalDeletion
  import Promotion
  import Verdicts

  /** The evaluators called everything eligible. */
  ghost predicate Eligible(x: Sources, d: Dispatch) {
    && Evaluated(x, d)
    && StorageProfile.Evaluate(x.storage, x.storageReview, d, x.storageChecks).value.eligible
    && ExternalDeletion.ReportOf(x.deletion, x.deletionReview, x.setting).eligible
    && ReleaseSlo.ReportOf(x.slo, d).eligible
  }

  /** The soak and game-day files are those of the setting, and only providers have the provider validator. */
  ghost predicate Backs(s: Setting, x: Sources) {
    && StageIds(s.k) && (forall id | id in s.k.base :: s.k.base[id].kind != ProviderKind)
    && x.slo.soak.bytes == s.report(s.k.base[SOAK_ID].file)
    && x.slo.gameDay.bytes == s.report(s.k.base[GAME_DAY_ID].file)
    && Eligible(x, s.d)
  }

  // ----- one report per kind -------------------------------------------------------------

  function TopNames(table: seq<FlagPath>): set<string> { set p | p in table && p.Top? :: p.name }
  function SectionNames(table: seq<FlagPath>): set<string> { set p | p in table && p.In? :: p.section }
  function NamesIn(table: seq<FlagPath>, section: string): set<string> {
    set p | p in table && p.In? && p.section == section :: p.name
  }

  function AllFlags(table: seq<FlagPath>): Promotion.Flags {
    var sections := SectionNames(table);
    Promotion.Flags(AllTrueOf(TopNames(table)), map section | section in sections :: AllTrueOf(NamesIn(table, section)))
  }

  lemma FlagsHold(table: seq<FlagPath>)
    ensures Promotion.FailedFlags(AllFlags(table), table) == Accept([])
  {
    var flags := AllFlags(table);
    forall i | 0 <= i < |table| ensures Promotion.Holds(flags, table[i]) {
      assert table[i] in table;
    }
    Promotion.FlagsClear(flags, table);
  }

  /** A clearing report for an evidence id. */
  ghost function ReportFor(s: Setting, x: Sources, id: string): Promotion.Evidence
    requires EvidenceSpec(s.k, id).Some? && Eligible(x, s.d)
  {
    var d := s.d;
    var here := Promotion.Identity(d.releaseCandidate, Source(d.commit, false), d.environment, false);
    match EvidenceSpec(s.k, id).value.kind
    case LinuxCliKind => Promotion.LinuxCli(here, AllFlags(s.k.linuxChecks))
    case PlanKind => Promotion.ProviderPlan(d.commit, false, s.providers, s.k.catalog, "ready")
    case ProviderKind => Promotion.Provider(if IsProviderId(id) then ProviderOf(id) else "", "model", "passed", true, 0)
    case OnDeviceKind => Promotion.OnDevice(here.(environmentId := s.onDevice), AllFlags(s.k.onDeviceChecks))
    case BackupKind => Promotion.RemoteBackup(here, true, true)
    case StorageKind =>
      Promotion.Storage(StorageProfile.Evaluate(x.storage, x.storageReview, d, x.storageChecks).value)
    case DeletionKind => Promotion.Deletion(ExternalDeletion.ReportOf(x.deletion, x.deletionReview, x.setting))
    case SoakKind => Promotion.SoakEvidence(x.slo.soak.value)
    case SloKind => Promotion.SloEvidence(ReleaseSlo.ReportOf(x.slo, d))
    case GameDayKind => Promotion.GameDayEvidence(x.slo.gameDay.value)
  }

  lemma EvaluatedReportsClear(x: Sources, d: Dispatch)
    requires Eligible(x, d)
    ensures var storage := StorageProfile.Evaluate(x.storage, x.storageReview, d, x.storageChecks).value;
            Promotion.ValidateStorage(storage, d) == Accept([])
    ensures var deletion := ExternalDeletion.ReportOf(x.deletion, x.deletionReview, x.setting);
            Promotion.ValidateDeletion(deletion, d) == Accept([])
    ensures Promotion.ValidateSlo(ReleaseSlo.ReportOf(x.slo, d), d) == Accept([])
    ensures Promotion.ValidateSoak(x.slo.soak.value, d) == Accept([])
    ensures Promotion.ValidateGameDay(x.slo.gameDay.value, d) == Accept([])
  {
    hide StorageProfile.Evaluate, ExternalDeletion.SystemsOk, ExternalDeletion.ReportOf, ReleaseSlo.Accepted;
    hide ReleaseSlo.ReportOf, Verdicts.GameDayReported, Promotion.ValidateStorage, Promotion.ValidateDeletion;
    hide Promotion.ValidateSlo, Promotion.ValidateSoak, Promotion.ValidateGameDay, ExternalDeletion.ContractFits;
    hide ExternalDeletion.ReviewBinds, ExternalDeletion.ObservationBinds;
    Verdicts.StorageAtPromotion(x.storage, x.storageReview, d, x.storageChecks);
    Verdicts.DeletionAtPromotion(x.deletion, x.deletionReview, x.setting);
    Verdicts.SloAtPromotion(x.slo, d);
    Verdicts.SloCoversPrerequisites(x.slo, d);
  }

  lemma ReportClears(s: Setting, x: Sources, id: string)
    requires Backs(s, x) && EvidenceSpec(s.k, id).Some?
    ensures Promotion.ValidateEvidence(s.k, id, ReportFor(s, x, id), s.d, s.onDevice, s.providers) == Accept([])
  {
    hide Evaluated, StorageProfile.Evaluate, ExternalDeletion.ReportOf, ReleaseSlo.ReportOf, Promotion.FailedFlags;
    hide Promotion.ValidateStorage, Promotion.ValidateDeletion, Promotion.ValidateSlo, Promotion.ValidateSoak, StageIds;
    hide Promotion.ValidateGameDay, AllFlags, SOAK_ID, GAME_DAY_ID, ProviderFile;
    EvaluatedReportsClear(x, s.d);
    FlagsHold(s.k.linuxChecks);
    FlagsHold(s.k.onDeviceChecks);
    AsciiSize("model");
  }

  // ----- the evidence directory ----------------------------------------------------------

  ghost function IdAt(s: Setting, completedAt: Micros, path: string): string
    requires path in Paths(s, completedAt)
  {
    var a :| a in EntriesFor(s, completedAt) && a.path == path;
    a.evidenceId
  }

  lemma IdAtPath(s: Setting, completedAt: Micros, a: Artifact)
    requires SettingOk(s) && a in EntriesFor(s, completedAt)
    ensures a.path in Paths(s, completedAt) && IdAt(s, completedAt, a.path) == a.evidenceId
  {
    hide SettingOk, ValidContract, EntriesFor, EvidenceSpec;
    var id := IdAt(s, completedAt, a.path);
    var b :| b in EntriesFor(s, completedAt) && b.path == a.path && b.evidenceId == id;
    ContractOf(s);
    EntryShape(s, completedAt, a);
    EntryShape(s, completedAt, b);
    Assembly.EvidenceFilesDistinct(s.k, a.evidenceId, b.evidenceId);
  }

  lemma IdsKnown(s: Setting, completedAt: Micros)
    requires SettingOk(s)
    ensures forall path | path in Paths(s, completedAt) :: EvidenceSpec(s.k, IdAt(s, completedAt, path)).Some?
  {
    hide SettingOk, EntriesFor, EvidenceSpec;
    forall path | path in Paths(s, completedAt) ensures EvidenceSpec(s.k, IdAt(s, completedAt, path)).Some? {
      var a :| a in EntriesFor(s, completedAt) && a.path == path;
      IdAtPath(s, completedAt, a);
      EntryShape(s, completedAt, a);
    }
  }

  ghost function EvidenceOf(y: Story, x: Sources): Reports
    requires SettingOk(y.s) && Eligible(x, y.s.d)
  {
    IdsKnown(y.s, y.t.evidence);
    var paths := Paths(y.s, y.t.evidence);
    map path | path in paths :: File(y.s.report(path), ReportFor(y.s, x, IdAt(y.s, y.t.evidence, path)))
  }

  lemma EvidenceAt(y: Story, x: Sources, a: Artifact)
    requires SettingOk(y.s) && Eligible(x, y.s.d) && a in EntriesFor(y.s, y.t.evidence)
    ensures EvidenceSpec(y.s.k, a.evidenceId).Some? && a.path in EvidenceOf(y, x)
    ensures EvidenceOf(y, x)[a.path] == File(y.s.report(a.path), ReportFor(y.s, x, a.evidenceId))
  {
    hide SettingOk, Eligible, EntriesFor, EvidenceSpec, ReportFor, IdAt;
    IdAtPath(y.s, y.t.evidence, a);
    EntryShape(y.s, y.t.evidence, a);
  }

  /** The record of a base id. */
  lemma BaseEntry(s: Setting, completedAt: Micros, id: string)
    requires SettingOk(s) && id in s.k.base
    ensures var records := Records(EntriesFor(s, completedAt));
            && id in records && records[id] in EntriesFor(s, completedAt) && records[id].evidenceId == id
            && records[id].path == s.k.base[id].file && records[id].sha256 == Sha256(s.report(s.k.base[id].file))
  {
    hide SettingOk, EntriesFor, Records;
    CampaignParses(s, completedAt, completedAt);
    assert id in Required(s.k, s.providers);
    EntryShape(s, completedAt, Records(EntriesFor(s, completedAt))[id]);
  }

  lemma SloIsRead(y: Story, x: Sources)
    requires StoryOk(y) && Backs(y.s, x)
    ensures SloReads(Records(EntriesFor(y.s, y.t.evidence)), EvidenceOf(y, x))
  {
    hide SettingOk, EntriesFor, Records, Evaluated, StorageProfile.Evaluate, ExternalDeletion.ReportOf, EvidenceOf;
    hide SLO_ID, SOAK_ID, GAME_DAY_ID, ReleaseSlo.Targets, ReleaseSlo.BlockersOf, ReleaseSlo.FailedTargets;
    BaseEntry(y.s, y.t.evidence, SLO_ID);
    BaseEntry(y.s, y.t.evidence, SOAK_ID);
    BaseEntry(y.s, y.t.evidence, GAME_DAY_ID);
    EvidenceAt(y, x, Records(EntriesFor(y.s, y.t.evidence))[SLO_ID]);
  }

  lemma EvidenceClears(y: Story, x: Sources)
    requires StoryOk(y) && Backs(y.s, x)
    ensures Clearing(y, EvidenceOf(y, x))
  {
    hide SettingOk, EntriesFor, Records, Eligible, ReportFor, IdAt, EvidenceSpec, Promotion.ValidateEvidence, SloReads;
    hide StageIds, SOAK_ID, GAME_DAY_ID;
    SloIsRead(y, x);
    forall a | a in EntriesFor(y.s, y.t.evidence)
      ensures a.path in EvidenceOf(y, x)
      ensures Promotion.ValidateEvidence(y.s.k, a.evidenceId, EvidenceOf(y, x)[a.path].value, y.s.d, y.s.onDevice,
                                         y.s.providers) == Accept([])
    {
      EvidenceAt(y, x, a);
      ReportClears(y.s, x, a.evidenceId);
    }
  }

  // ----- the run -------------------------------------------------------------------------

  lemma ReadsBase(y: Story, x: Sources, inp: Promotion.Inputs, id: string)
    requires StoryOk(y) && Eligible(x, y.s.d) && id in y.s.k.base
    requires inp.campaign == CampaignOf(y) && inp.evidence == EvidenceOf(y, x)
    ensures EvidenceSpec(y.s.k, id) == Some(y.s.k.base[id])
    ensures Reads(inp, id, ReportFor(y.s, x, id))
  {
    hide SettingOk, EntriesFor, Records, Eligible, ReportFor, EvidenceOf;
    BaseEntry(y.s, y.t.evidence, id);
    EvidenceAt(y, x, Records(EntriesFor(y.s, y.t.evidence))[id]);
  }

  lemma ReadsAll(y: Story, x: Sources, inp: Promotion.Inputs)
    requires StoryOk(y) && Backs(y.s, x) && inp.campaign == CampaignOf(y) && inp.evidence == EvidenceOf(y, x)
    ensures ReadsReports(inp, x, y.s.d)
  {
    hide StoryOk, CampaignOf, Evaluated, EvidenceOf, StorageProfile.Evaluate, ExternalDeletion.ReportOf, Records;
    hide ReleaseSlo.ReportOf, STORAGE_ID, DELETION_ID, SLO_ID, SOAK_ID, GAME_DAY_ID, SettingOk, AllFlags;
    StoryFacts(y);
    ReadsBase(y, x, inp, STORAGE_ID);
    ReadsBase(y, x, inp, DELETION_ID);
    ReadsBase(y, x, inp, SLO_ID);
    ReadsBase(y, x, inp, SOAK_ID);
    ReadsBase(y, x, inp, GAME_DAY_ID);
  }

  /** For every prompt story and eligible evaluations of its files, a run through all stages that ends in
      a ready decision on exactly those evaluations. */
  lemma ReadyRunExists(y: Story, x: Sources) returns (w: World, run: seq<State>, i: nat, inp: Promotion.Inputs)
    requires StoryOk(y) && Backs(y.s, x) && y.t.review - y.t.evidence <= THIRTY_DAYS
    ensures run != [] && IsRun(w, run) && i < |run[|run| - 1].log| && w.k == y.s.k
    ensures run[|run| - 1].log[i].event == Decided(inp, y.s.d, true) && ReadsReports(inp, x, y.s.d)
  {
    hide StoryOk, Backs, IsRun, Clearing, ReadsReports, EvidenceOf, CampaignOf, SettingOk, Eligible;
    StoryFacts(y);
    BacksEligible(y.s, x);
    EvidenceClears(y, x);
    w, run, i, inp := ReadyRun(y, EvidenceOf(y, x));
    ReadsAll(y, x, inp);
  }

  lemma BacksEligible(s: Setting, x: Sources)
    requires Backs(s, x)
    ensures Eligible(x, s.d)
  {
    hide Eligible;
  }
}

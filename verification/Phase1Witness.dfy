/** Whole runs under the checked-in tables. */
module Phase1Witness {
  import opened Primitives
  import opened LiveProviderPlan
  import opened Campaign
  import opened GitHub
  import opened Protocol
  import opened Witnesses
  import opened WitnessRuns
  import opened ReadyMeans
  import opened ReadyWitness
  import EW = EvaluatorWitness
  import DC = DeletionContracts
  import CP = CampaignProvenance
  import PT = ProtocolTheorems
  import GameDay
  import ExternalDeletion
  import Promotion
  import Tables

  // ----- workflow paths ------------------------------------------------------------------

  lemma {:induction false} SplitAt(a: string, b: string)
    requires '/' !in a
    ensures SplitWhere(a + "/" + b, c => c == '/') == [a] + SplitWhere(b, c => c == '/')
  {
    var s := a + "/" + b;
    if a == "" {
      assert s == "/" + b && s[1..] == b;
    } else {
      assert s[1..] == a[1..] + "/" + b && s[0] == a[0];
      SplitAt(a[1..], b);
      assert a == [a[0]] + a[1..];
    }
  }

  lemma {:induction false} DotAt(s: string, t: string)
    requires '.' !in t
    ensures LastDot(s + "." + t) == |s|
  {
    var name := s + "." + t;
    if t != "" {
      var n := |t| - 1;
      assert t == t[..n] + [t[n]];
      assert name[|name| - 1] == t[n] && name[..|name| - 1] == s + "." + t[..n];
      DotAt(s, t[..n]);
    }
  }

  lemma SuffixOfWorkflow(name: string)
    requires Tables.NameText(name)
    ensures Suffix(Tables.Workflow(name)) == ".yml"
  {
    hide SplitWhere, LastDot;
    var path, file := Tables.Workflow(name), name + ".yml";
    var cut: char -> bool := c => c == '/';
    assert path == ".github" + "/" + ("workflows" + "/" + file);
    SplitAt(".github", "workflows" + "/" + file);
    SplitAt("workflows", file);
    assert forall i | 0 <= i < |file| :: file[i] == if i < |name| then name[i] else ".yml"[i - |name|];
    DC.OneWord(file, cut);
    assert SplitWhere(path, cut) == [".github", "workflows", file];
    assert file == name + "." + "yml";
    DotAt(name, "yml");
    assert file[|name|..] == ".yml";
  }

  lemma PathIsPlain(path: string)
    requires 0 < |path| <= 512 && forall i | 0 <= i < |path| :: '-' <= path[i] <= '9' || 'a' <= path[i] <= 'z'
    ensures PathPart(path) == Accept(path)
  {
    AsciiSize(path);
    NoIndex(path, '@');
    assert path[..|path|] == path;
  }

  lemma WorkflowIsSafe(name: string)
    requires |name| <= 400 && forall i | 0 <= i < |name| :: '-' <= name[i] <= '9' || 'a' <= name[i] <= 'z'
    ensures PathPart(Tables.Workflow(name)) == Accept(Tables.Workflow(name))
    ensures Tables.NameText(name) ==> SafeWorkflowPath(Tables.Workflow(name)) == Accept(Tables.Workflow(name))
  {
    hide PathPart, Suffix, Tables.NameText;
    var path := Tables.Workflow(name);
    assert |path| == 22 + |name|;
    assert forall i | 0 <= i < |path| ::
        path[i] == if i < 18 then ".github/workflows/"[i]
                   else if i < 18 + |name| then name[i - 18] else ".yml"[i - 18 - |name|];
    PathIsPlain(path);
    assert path[..18] == WORKFLOW_DIRECTORY;
    if Tables.NameText(name) { SuffixOfWorkflow(name); }
  }

  lemma BaseWorkflow(id: string) returns (name: string)
    requires id in Tables.BASE_IDS
    ensures Tables.BaseSpec(id).workflow == Tables.Workflow(name) && Tables.NameText(name) && |name| <= 40
  {
    hide Tables.NameText, Tables.NameChars, Tables.BASE_IDS, Tables.Workflow;
    Tables.SpecFacts(id);
    LiveText();
    name := if id == PLAN_ID then "live-provider-qualification"
            else if id == LINUX_ID then id else id + "-qualification";
    Tables.NameJoins(id, "-qualification");
  }

  lemma LiveText()
    ensures Tables.NameText("live-provider-qualification") && Tables.NameChars("-qualification")
  {
  }

  lemma NameTextIsPlain(name: string)
    requires Tables.NameText(name)
    ensures forall i | 0 <= i < |name| :: '-' <= name[i] <= '9' || 'a' <= name[i] <= 'z'
  {
    assert forall i | 0 <= i < |name| :: Tables.NameChar(name[i]);
  }

  lemma ReviewTexts()
    ensures var a, b := "phase1-campaign-assembly", "phase1-independent-review";
            && (forall i | 0 <= i < |a| :: '-' <= a[i] <= '9' || 'a' <= a[i] <= 'z')
            && (forall i | 0 <= i < |b| :: '-' <= b[i] <= '9' || 'a' <= b[i] <= 'z') && |a| <= 400 && |b| <= 400
  {
  }

  lemma Phase1Fields(catalog: Catalog)
    ensures var k := Tables.Phase1(catalog);
            && k.catalog == catalog && k.campaignWorkflow == Tables.Workflow("phase1-campaign-assembly")
            && k.reviewWorkflow == Tables.Workflow("phase1-independent-review")
            && k.reserved == {"github-actions", "agentos", "qualification-harness", "unknown"}
            && Tables.HasTables(k)
  {
    hide Tables.Workflow, Tables.BaseSpec, Tables.Groups, Tables.BASE_IDS;
  }

  lemma WorkflowsAreSafe(catalog: Catalog)
    ensures WorkflowsSafe(Tables.Phase1(catalog))
  {
    hide Tables.Phase1, Tables.Workflow, SafeWorkflowPath, PathPart, Tables.NameText, Tables.BaseSpec, Tables.BASE_IDS;
    hide Tables.Groups;
    var k := Tables.Phase1(catalog);
    Phase1Fields(catalog);
    ReviewTexts();
    WorkflowIsSafe("phase1-campaign-assembly");
    WorkflowIsSafe("phase1-independent-review");
    forall g | g in k.groups ensures SafeWorkflowPath(g.workflow) == Accept(g.workflow) {
      var i := Tables.GroupAt(g);
      var name := BaseWorkflow(Tables.BASE_IDS[i]);
      NameTextIsPlain(name);
      WorkflowIsSafe(name);
    }
  }

  lemma FilesAreFree(catalog: Catalog)
    ensures BundleNamesFree(Tables.Phase1(catalog))
  {
    hide Tables.Phase1, Tables.BaseSpec, CP.CAMPAIGN_FILE, CP.SIGNATURE_FILE, Tables.NameText, Tables.Groups;
    hide Tables.BASE_IDS, Tables.Workflow;
    var k := Tables.Phase1(catalog);
    Phase1Fields(catalog);
    BundleLetters();
    forall id | id in k.base ensures k.base[id].file != CP.CAMPAIGN_FILE && k.base[id].file != CP.SIGNATURE_FILE {
      BaseLetter(id);
    }
  }

  lemma BaseLetter(id: string)
    requires id in Tables.BASE_IDS
    ensures Tables.BaseSpec(id).file != "" && Tables.BaseSpec(id).file[0] != 'c'
  {
    hide DELETION_ID, GAME_DAY_ID, LINUX_ID, PLAN_ID, SLO_ID, SOAK_ID, STORAGE_ID, Tables.ON_DEVICE_ID;
    hide Tables.BACKUP_ID;
    hide Tables.BaseSpec, Tables.Workflow;
    Tables.SpecFacts(id);
    Tables.IdShapes();
    var i :| 0 <= i < |Tables.BASE_IDS| && Tables.BASE_IDS[i] == id;
    assert |Tables.BASE_IDS| == 9;
  }

  lemma KindsAreBase(catalog: Catalog)
    ensures var k := Tables.Phase1(catalog); forall id | id in k.base :: k.base[id].kind != ProviderKind
  {
    hide Tables.Phase1, Tables.Groups, Tables.BASE_IDS, Tables.Workflow;
    hide DELETION_ID, GAME_DAY_ID, LINUX_ID, PLAN_ID, SLO_ID, SOAK_ID, STORAGE_ID, Tables.ON_DEVICE_ID;
    hide Tables.BACKUP_ID;
    Phase1Fields(catalog);
  }

  // ----- a setting -----------------------------------------------------------------------

  const HOSTED := "openai"
  const CATALOG: Catalog := [HOSTED, OLLAMA, VLLM]
  const COMMIT := "0000000000000000000000000000000000000000"
  const CANDIDATE := "v1.0.0-rc.1"
  const TARGET := "target"
  const DISPATCH := Dispatch(CANDIDATE, COMMIT, TARGET)

  /** The bytes of every file of a run. */
  datatype Files = Files(
    request: Bytes, campaign: Bytes, signature: Bytes, report: string -> Bytes, observation: Bytes, review: Bytes,
    reviewSignature: Bytes)

  function Phase1Setting(f: Files): Setting {
    Setting(Tables.Phase1(CATALOG), CATALOG, DISPATCH, "laptop", "ann", "bob", "o/r", f.request, f.campaign,
            f.signature, f.report, f.observation, f.review, f.reviewSignature)
  }

  lemma ProviderTexts()
    ensures IsProviderName(HOSTED) && IsProviderName(OLLAMA) && IsProviderName(VLLM)
    ensures |HOSTED| == 6 && |OLLAMA| == 6 && |VLLM| == 4 && HOSTED != OLLAMA
  {
    assert HOSTED[1] == 'p' && OLLAMA[1] == 'l';
  }

  lemma CatalogIsPromotable()
    ensures ValidCatalog(CATALOG) && ProviderListOk(CATALOG, CATALOG) && |CATALOG| == 3
    ensures forall p | p in CATALOG :: |p| <= 114
  {
    hide HOSTED, OLLAMA, VLLM, IsProviderName, IsIdentifier, Select;
    ProviderTexts();
    forall i | 0 <= i < 3 ensures IsIdentifier(CATALOG[i]) { ProviderNameFits(CATALOG[i]); }
    SelectAll(CATALOG, CATALOG);
    assert CATALOG[0] != OLLAMA && CATALOG[0] != VLLM && CATALOG[1] == OLLAMA && CATALOG[2] == VLLM;
  }

  lemma {:induction false} SelectAll(catalog: Catalog, all: seq<string>)
    requires forall i | 0 <= i < |catalog| :: catalog[i] in all
    ensures Select(catalog, Members(all)) == catalog
  {
    if catalog != [] { SelectAll(catalog[1..], all); }
  }

  lemma ShortLogin(k: Contract, login: string)
    requires k.reserved == {"github-actions", "agentos", "qualification-harness", "unknown"}
    requires IsLogin(login) && |login| < 7
    ensures Outsider(k, login)
  {
    assert forall r | r in k.reserved :: |r| >= 7;
  }

  lemma SettingTexts()
    ensures IsIdentifier("laptop") && IsRepository("o/r") && IsLogin("ann") && IsLogin("bob")
    ensures Fold("ann") != Fold("bob") && "laptop" != TARGET && IsIdentifier(TARGET)
  {
    assert Fold("ann")[0] == 'a' && Fold("bob")[0] == 'b';
    assert "o/r"[..1] == "o" && "o/r"[2..] == "r" && "o/r"[1] == '/';
    assert "laptop"[0] == 'l' && TARGET[0] == 't';
  }

  lemma CandidateText()
    ensures IsReleaseCandidate(CANDIDATE) && |CANDIDATE| == 11 && IsBoundedText(CANDIDATE, 256)
  {
    var s := CANDIDATE;
    assert SkipDigits(s, 2) == 2 && SkipDigits(s, 1) == 2;
    assert SkipDigits(s, 4) == 4 && SkipDigits(s, 3) == 4;
    assert SkipDigits(s, 6) == 6 && SkipDigits(s, 5) == 6;
    assert s[6..10] == "-rc.";
    assert SkipDigits(s, 11) == 11 && SkipDigits(s, 10) == 11;
    AsciiSize(s);
  }

  lemma NamesFit(k: Contract)
    requires Tables.HasTables(k)
    ensures forall id | id in k.base :: |ArtifactName(k.base[id], CANDIDATE, COMMIT)| <= MAX_IDENTIFIER
  {
    hide CANDIDATE, COMMIT, Tables.BaseSpec, Tables.BASE_IDS, Tables.Groups, Tables.Workflow, ArtifactName, IsCommit;
    CandidateText();
    CommitText();
    forall id | id in k.base ensures |ArtifactName(k.base[id], CANDIDATE, COMMIT)| <= MAX_IDENTIFIER {
      Tables.NameLength(id, DISPATCH);
    }
  }

  lemma CommitText()
    ensures IsCommit(COMMIT)
  {
  }

  /** The checked-in tables give settings, whatever the files hold. */
  lemma SettingExists(f: Files)
    ensures SettingOk(Phase1Setting(f))
  {
    hide ValidContract, ValidCatalog, ProviderListOk, BundleNamesFree, WorkflowsSafe, CATALOG, COMMIT, CANDIDATE;
    hide TARGET;
    hide Outsider, IsIdentifier, IsRepository, IsLogin, Fold, Tables.Phase1, IsReleaseCandidate, IsBoundedText;
    hide IsCommit;
    hide ArtifactName, Tables.HasTables;
    var k := Tables.Phase1(CATALOG);
    CatalogIsPromotable();
    Phase1Fields(CATALOG);
    Tables.TablesAreValid(CATALOG);
    WorkflowsAreSafe(CATALOG);
    FilesAreFree(CATALOG);
    NamesFit(k);
    SettingTexts();
    CandidateText();
    CommitText();
    ShortLogin(k, "ann");
    ShortLogin(k, "bob");
  }

  lemma DispatchIsFit()
    ensures EW.DispatchFits(DISPATCH)
  {
    hide CANDIDATE, COMMIT, IsReleaseCandidate, IsRelease, IsCommit, IsTargetId;
    CandidateText();
    CommitText();
    DC.PlainTarget(TARGET);
    assert forall w | w in GameDay.NON_TARGETS :: |w| != 6;
  }

  // ----- the runs ------------------------------------------------------------------------

  ghost function Phase1Sources(f: Files, storageChecks: set<string>, deletionChecks: set<string>): Sources {
    var k := Tables.Phase1(CATALOG);
    if SOAK_ID in k.base && GAME_DAY_ID in k.base then
      EW.SourcesFor(DISPATCH, f.report(k.base[SOAK_ID].file), f.report(k.base[GAME_DAY_ID].file), storageChecks,
                    deletionChecks)
    else
      EW.SourcesFor(DISPATCH, [], [], storageChecks, deletionChecks)
  }

  lemma SourcesBack(f: Files, storageChecks: set<string>, deletionChecks: set<string>)
    requires |deletionChecks| == 8
    ensures Backs(Phase1Setting(f), Phase1Sources(f, storageChecks, deletionChecks))
  {
    hide Eligible, Tables.Phase1, CATALOG, DISPATCH, SOAK_ID, GAME_DAY_ID, ValidContract, EW.DispatchFits;
    hide EW.StorageObservation, EW.StorageReview, EW.GameDayObservation, EW.GameDayReview, ExternalDeletion.LoadedFrom;
    hide DC.ObservationFor, DC.ReviewFor;
    var k := Tables.Phase1(CATALOG);
    CatalogIsPromotable();
    Tables.TablesAreValid(CATALOG);
    StagesNamed(k);
    KindsAreBase(CATALOG);
    DispatchIsFit();
    EW.SourcesAreEligible(DISPATCH, f.report(k.base[SOAK_ID].file), f.report(k.base[GAME_DAY_ID].file), storageChecks,
                          deletionChecks);
  }

  lemma StagesNamed(k: Contract)
    requires ValidContract(k)
    ensures StageIds(k) && SOAK_ID in k.base && GAME_DAY_ID in k.base
  {
    hide ValidCatalog, NamedIds, FilesOk, NamesOk, GroupsOk, SOAK_ID, GAME_DAY_ID;
  }

  function StoryFor(f: Files, t: Times, now: Micros, late: Micros): Story {
    Story(Phase1Setting(f), t, now, 1, 2, late)
  }

  lemma StoryFits(f: Files, t: Times, now: Micros, late: Micros)
    requires TimesOk(t) && t.review <= now
    ensures StoryOk(StoryFor(f, t, now, late))
  {
    hide SettingOk, Phase1Setting, TimesOk;
    SettingExists(f);
  }

  /** Under the checked-in tables, whatever the files hold, a run ends in a ready decision on eligible
      evaluations. */
  lemma PromotionHappens(f: Files, storageChecks: set<string>, deletionChecks: set<string>)
    returns (w: World, run: seq<State>, i: nat, inp: Promotion.Inputs, x: Sources)
    requires |deletionChecks| == 8
    ensures run != [] && IsRun(w, run) && i < |run[|run| - 1].log|
    ensures run[|run| - 1].log[i].event == Decided(inp, DISPATCH, true) && ReadsReports(inp, x, DISPATCH)
  {
    hide StoryOk, Backs, IsRun, ReadsReports, Phase1Sources, Tables.Phase1, CATALOG, DISPATCH;
    x := Phase1Sources(f, storageChecks, deletionChecks);
    var y := StoryFor(f, Times(0, 1, 2), 2, 3);
    StoryFits(f, y.t, y.now, y.late);
    SourcesBack(f, storageChecks, deletionChecks);
    w, run, i, inp := ReadyRunExists(y, x);
  }

  /** Under the checked-in tables a run whose reports all clear and whose reviewer approved in time for
      build_review ends in a decision that is not ready: evidence at day 0, assembly at day 20, review
      at day 40. */
  lemma LateReviewHappens(f: Files, storageChecks: set<string>, deletionChecks: set<string>)
    returns (w: World, run: seq<State>, inp: Promotion.Inputs, now: Micros)
    requires |deletionChecks| == 8
    ensures run != [] && IsRun(w, run) && WasReviewed(run[|run| - 1].log, inp.review)
    ensures inp.review.value.decision == "approved"
    ensures Enabled(w, run[|run| - 1].log, Decided(inp, DISPATCH, false), now)
    ensures !Enabled(w, run[|run| - 1].log, Decided(inp, DISPATCH, true), now)
    ensures forall a | a in inp.campaign.value.artifacts :: Promotion.Verdict(w.k, inp, DISPATCH, a) == Accept([])
  {
    hide StoryOk, Backs, IsRun, Clearing, Phase1Sources, Tables.Phase1, CATALOG, DISPATCH, EvidenceOf, Enabled;
    hide SettingOk;
    hide Eligible;
    hide Promotion.Verdict, WasReviewed;
    var t := Times(0, 20 * DAY_MICROS, 40 * DAY_MICROS);
    now := t.review;
    var y, x := StoryFor(f, t, now, now), Phase1Sources(f, storageChecks, deletionChecks);
    StoryFits(f, t, now, now);
    SourcesBack(f, storageChecks, deletionChecks);
    StoryFacts(y);
    BacksEligible(y.s, x);
    EvidenceClears(y, x);
    w, run, inp := ReviewedTooLate(y, EvidenceOf(y, x));
  }

  /** Under the checked-in tables a run ends in a ready decision whose assembly finished after the review
      the decision rests on. */
  lemma AssemblyAfterReviewHappens(f: Files, storageChecks: set<string>, deletionChecks: set<string>)
    returns (w: World, run: seq<State>, reviewed: Entry)
    requires |deletionChecks| == 8
    ensures run != [] && IsRun(w, run) && PT.AssemblyFollowsReview(run[|run| - 1].log, reviewed)
  {
    hide StoryOk, Backs, IsRun, Clearing, Phase1Sources, Tables.Phase1, CATALOG, DISPATCH, EvidenceOf;
    hide SettingOk, Eligible, PT.AssemblyFollowsReview;
    var y, x := StoryFor(f, Times(0, 1, 2), 2, 3), Phase1Sources(f, storageChecks, deletionChecks);
    StoryFits(f, y.t, y.now, y.late);
    SourcesBack(f, storageChecks, deletionChecks);
    StoryFacts(y);
    BacksEligible(y.s, x);
    EvidenceClears(y, x);
    w, run, reviewed := AssemblyAfterReview(y, EvidenceOf(y, x), 3);
  }
}

/** scripts/phase1_campaign_assembly.py: the campaign assembled from exact workflow runs. */
module Assembly {
  import opened Primitives
  import opened LiveProviderPlan
  import opened Campaign
  import opened AssemblyPlan
  import opened GitHub

  datatype Inputs = Inputs(
    request: File<Request>, plan: Plan, metadata: map<int, RunMetadata>, downloads: map<string, map<string, Bytes>>,
    repository: string, actor: string, triggeringActor: string)

  /** A human login that is not one of the harness identities. */
  predicate OperatorLogin(k: Contract, login: string) { IsLogin(login) && Fold(login) !in k.reserved }

  predicate EvidenceRunOk(k: Contract, m: RunMetadata, run: PlanRun, repository: string, now: Micros) {
    && m.id > 0 && m.id == run.runId && m.attempt > 0
    && SafeWorkflowPath(m.path) == Accept(run.workflow)
    && m.headSha == run.headSha && m.event == run.event
    && Succeeded(m, repository)
    && m.updatedAt <= now + CLOCK_SKEW
    && OperatorLogin(k, m.actor) && OperatorLogin(k, m.triggeringActor)
  }

  // ----- derived operators ---------------------------------------------------------------

  predicate FoldLeq(a: string, b: string) { TextLeq(Fold(a), Fold(b)) }

  ghost predicate FoldInjective(xs: set<string>) {
    forall x, y | x in xs && y in xs && Fold(x) == Fold(y) :: x == y
  }

  /** Sorting distinct logins by folded text is canonical exactly when no two differ only by case. */
  lemma CanonicalSort(xs: seq<string>)
    requires NoDuplicates(xs) && forall i | 0 <= i < |xs| :: IsIdentifier(xs[i])
    ensures Members(Sort(xs, FoldLeq)) == Members(xs)
    ensures CanonicalIds(Sort(xs, FoldLeq), 1, 10) <==> 1 <= |xs| <= 10 && FoldInjective(Members(xs))
  {
    hide FoldLeq, IsIdentifier, Fold;
    var s := Sort(xs, FoldLeq);
    FoldOrder();
    SortOrders(xs, FoldLeq);
    SortPermutes(xs, FoldLeq);
    PermutationFacts(s, xs);
    PermutationKeepsDistinct(xs, s);
    forall i | 0 <= i < |s| ensures IsIdentifier(s[i]) { assert s[i] in xs; }
    SortedIsCanonical(s);
  }

  lemma FoldOrder()
    ensures TotalPreorder(FoldLeq)
  {
    TextLeqPreorder();
  }

  lemma SortedIsCanonical(s: seq<string>)
    requires NoDuplicates(s) && Nondecreasing(s, FoldLeq) && forall i | 0 <= i < |s| :: IsIdentifier(s[i])
    ensures CanonicalIds(s, 1, 10) <==> 1 <= |s| <= 10 && FoldInjective(Members(s))
  {
    hide IsIdentifier, Fold;
    if FoldInjective(Members(s)) {
      forall i, j | 0 <= i < j < |s| ensures TextLess(Fold(s[i]), Fold(s[j])) {
        assert FoldLeq(s[i], s[j]);
        TextLessTotal(Fold(s[i]), Fold(s[j]));
      }
    }
    if CanonicalIds(s, 1, 10) {
      forall x, y | x in Members(s) && y in Members(s) && Fold(x) == Fold(y) ensures x == y {
        var i :| 0 <= i < |s| && s[i] == x;
        var j :| 0 <= j < |s| && s[j] == y;
        TextLessTotal(Fold(x), Fold(y));
      }
    }
  }

  /** A canonical list is determined by its members. */
  lemma CanonicalUnique(a: seq<string>, b: seq<string>)
    requires CanonicalIds(a, 1, 10) && CanonicalIds(b, 1, 10) && Members(a) == Members(b)
    ensures a == b
  {
    hide IsIdentifier;
    var fa, fb := seq(|a|, i requires 0 <= i < |a| => Fold(a[i])), seq(|b|, i requires 0 <= i < |b| => Fold(b[i]));
    forall x ensures x in fa <==> x in fb {
      if x in fa {
        var i :| 0 <= i < |a| && Fold(a[i]) == x;
        assert a[i] in Members(b);
        var j :| 0 <= j < |b| && b[j] == a[i];
        assert fb[j] == x;
      }
      if x in fb {
        var i :| 0 <= i < |b| && Fold(b[i]) == x;
        assert b[i] in Members(a);
        var j :| 0 <= j < |a| && a[j] == b[i];
        assert fa[j] == x;
      }
    }
    AscendingUnique(fa, fb);
    assert |a| == |fa| == |fb| == |b|;
    forall i | 0 <= i < |a| ensures a[i] == b[i] {
      assert a[i] in Members(b);
      var j :| 0 <= j < |b| && b[j] == a[i];
      assert fa[i] == fb[i] && fb[j] == Fold(a[i]);
      TextLessTotal(fb[i], fb[j]);
    }
  }

  method CollectOperators(logins: seq<string>) returns (r: Outcome<seq<string>>)
    requires forall x | x in logins :: IsLogin(x)
    ensures r.Accept? <==> 1 <= |Members(logins)| <= 10 && FoldInjective(Members(logins))
    ensures r.Accept? ==> CanonicalIds(r.value, 1, 10) && Members(r.value) == Members(logins)
  {
    hide FoldLeq;
    var distinct := Elements(Members(logins));
    forall i | 0 <= i < |distinct| ensures IsIdentifier(distinct[i]) {
      assert distinct[i] in Members(logins);
      LoginIsIdentifier(distinct[i]);
    }
    assert Members(distinct) == Members(logins);
    CanonicalSort(distinct);
    var operators := Sort(distinct, FoldLeq);
    r := if CanonicalIds(operators, 1, 10) then Accept(operators) else Reject;
  }

  // ----- the run loop --------------------------------------------------------------------

  function ActorsOf(runs: seq<PlanRun>, metadata: map<int, RunMetadata>): set<string> {
    (set run | run in runs && run.runId in metadata :: metadata[run.runId].actor) +
    (set run | run in runs && run.runId in metadata :: metadata[run.runId].triggeringActor)
  }

  function RunGroups(runs: seq<PlanRun>): (names: seq<string>)
    ensures |names| == |runs| && forall i | 0 <= i < |names| :: names[i] == runs[i].group
  {
    seq(|runs|, i requires 0 <= i < |runs| => runs[i].group)
  }

  /** Verifies every planned run, recording its metadata under its group and collecting the actors. */
  method VerifyRuns(runs: seq<PlanRun>, metadata: map<int, RunMetadata>, ok: (RunMetadata, PlanRun) -> bool)
    returns (accepted: bool, results: map<string, RunMetadata>, logins: seq<string>)
    requires NoDuplicates(RunGroups(runs))
    ensures accepted <==> forall run | run in runs :: run.runId in metadata && ok(metadata[run.runId], run)
    ensures accepted ==> Members(logins) == ActorsOf(runs, metadata)
    ensures accepted ==> forall run | run in runs :: run.group in results && results[run.group] == metadata[run.runId]
  {
    accepted, results, logins := true, map[], [];
    for i := 0 to |runs|
      invariant forall run | run in runs[..i] :: run.runId in metadata && ok(metadata[run.runId], run)
      invariant Members(logins) == ActorsOf(runs[..i], metadata)
      invariant forall j | 0 <= j < i :: runs[j].group in results && results[runs[j].group] == metadata[runs[j].runId]
    {
      var run := runs[i];
      assert runs[..i + 1] == runs[..i] + [run];
      if run.runId !in metadata || !ok(metadata[run.runId], run) {
        return false, results, logins;
      }
      var m := metadata[run.runId];
      ActorsStep(runs[..i], run, metadata);
      forall j | 0 <= j < i ensures runs[j].group != run.group { assert RunGroups(runs)[j] != RunGroups(runs)[i]; }
      results := results[run.group := m];
      logins := logins + [m.actor, m.triggeringActor];
    }
    assert runs[..|runs|] == runs;
  }

  lemma ActorsStep(runs: seq<PlanRun>, run: PlanRun, metadata: map<int, RunMetadata>)
    requires run.runId in metadata
    ensures ActorsOf(runs + [run], metadata) ==
            ActorsOf(runs, metadata) + {metadata[run.runId].actor, metadata[run.runId].triggeringActor}
  {
    forall x | x in ActorsOf(runs, metadata) ensures x in ActorsOf(runs + [run], metadata) {
      var r :| r in runs && r.runId in metadata
          && (x == metadata[r.runId].actor || x == metadata[r.runId].triggeringActor);
      assert r in runs + [run];
    }
    assert run in runs + [run];
  }

  // ----- the report loop -----------------------------------------------------------------

  /** The workflow of the first planned run of a group. */
  function WorkflowOf(runs: seq<PlanRun>, group: string): string {
    if runs == [] then "" else if runs[0].group == group then runs[0].workflow else WorkflowOf(runs[1..], group)
  }

  lemma {:induction false} WorkflowLookup(runs: seq<PlanRun>, i: nat)
    requires i < |runs| && NoDuplicates(RunGroups(runs))
    ensures WorkflowOf(runs, runs[i].group) == runs[i].workflow
  {
    if i > 0 {
      assert RunGroups(runs)[0] != RunGroups(runs)[i];
      assert RunGroups(runs[1..]) == RunGroups(runs)[1..];
      WorkflowLookup(runs[1..], i - 1);
    }
  }

  predicate Downloaded(a: PlanArtifact, downloads: map<string, map<string, Bytes>>) {
    a.subdir in downloads && a.file in downloads[a.subdir]
  }

  function AssembledArtifact(a: PlanArtifact, plan: Plan, results: map<string, RunMetadata>,
                             downloads: map<string, map<string, Bytes>>): Artifact
    requires Downloaded(a, downloads) && a.group in results
  {
    Artifact(a.evidenceId, a.file, Sha256(downloads[a.subdir][a.file]), WorkflowOf(plan.runs, a.group),
             a.runId, results[a.group].attempt, plan.source.commit, "success", results[a.group].updatedAt)
  }

  function Files(artifacts: seq<PlanArtifact>): (files: seq<string>)
    ensures |files| == |artifacts| && forall i | 0 <= i < |files| :: files[i] == artifacts[i].file
  {
    seq(|artifacts|, i requires 0 <= i < |artifacts| => artifacts[i].file)
  }

  method CollectReports(plan: Plan, results: map<string, RunMetadata>, downloads: map<string, map<string, Bytes>>)
    returns (accepted: bool, artifacts: seq<Artifact>, reports: map<string, Bytes>)
    requires forall a | a in plan.artifacts :: a.group in results
    ensures accepted <==> NoDuplicates(Files(plan.artifacts)) && forall a | a in plan.artifacts ::
            Downloaded(a, downloads)
    ensures accepted ==> |artifacts| == |plan.artifacts|
    ensures accepted ==> forall i | 0 <= i < |artifacts| ::
              artifacts[i] == AssembledArtifact(plan.artifacts[i], plan, results, downloads)
    ensures accepted ==> reports.Keys == Members(Files(plan.artifacts))
    ensures accepted ==> forall a | a in plan.artifacts :: reports[a.file] == downloads[a.subdir][a.file]
  {
    hide WorkflowOf;
    accepted, artifacts, reports := true, [], map[];
    var files := Files(plan.artifacts);
    for i := 0 to |plan.artifacts|
      invariant |artifacts| == i
      invariant forall j | 0 <= j < i :: Downloaded(plan.artifacts[j], downloads)
      invariant forall j | 0 <= j < i :: artifacts[j] == AssembledArtifact(plan.artifacts[j], plan, results, downloads)
      invariant NoDuplicates(files[..i]) && reports.Keys == Members(files[..i])
      invariant forall j | 0 <= j < i :: reports[files[j]] == downloads[plan.artifacts[j].subdir][files[j]]
    {
      var a := plan.artifacts[i];
      if !Downloaded(a, downloads) { return false, artifacts, reports; }
      if a.file in reports {
        assert files[i] in files[..i];
        return false, artifacts, reports;
      }
      assert files[..i + 1] == files[..i] + [a.file];
      forall j | 0 <= j < i ensures files[j] != a.file { assert files[..i][j] == files[j]; }
      reports := reports[a.file := downloads[a.subdir][a.file]];
      assert a.group in results;
      artifacts := artifacts + [AssembledArtifact(a, plan, results, downloads)];
    }
    assert files[..|files|] == files;
    forall a | a in plan.artifacts ensures reports[a.file] == downloads[a.subdir][a.file] {
      var j :| 0 <= j < |plan.artifacts| && plan.artifacts[j] == a;
    }
  }

  // ----- assembly ------------------------------------------------------------------------

  /** Everyone who acted on the assembly or on an evidence run. */
  function Logins(inp: Inputs): set<string> {
    {inp.actor, inp.triggeringActor} + ActorsOf(inp.plan.runs, inp.metadata)
  }

  /** The inputs assemble_campaign accepts at clock `now`. */
  ghost predicate CanAssemble(k: Contract, inp: Inputs, now: Micros) {
    && IsRepository(inp.repository)
    && RequestOk(k, inp.request.value) && IsPlan(k, inp.request.value, inp.request.Sha(), inp.plan)
    && Gathered(k, inp, now)
  }

  ghost predicate RunsVerified(k: Contract, inp: Inputs, now: Micros) {
    && inp.metadata.Keys == (set run | run in inp.plan.runs :: run.runId)
    && (forall run | run in inp.plan.runs ::
          run.runId in inp.metadata && EvidenceRunOk(k, inp.metadata[run.runId], run, inp.repository, now))
  }

  /** What the campaign must say about one planned artifact: the downloaded bytes, the run that
      GitHub reported, and the workflow the evidence table prescribes. */
  ghost predicate Attests(k: Contract, inp: Inputs, p: PlanArtifact, a: Artifact) {
    && Downloaded(p, inp.downloads) && p.runId in inp.metadata && EvidenceSpec(k, p.evidenceId).Some?
    && (var m, spec := inp.metadata[p.runId], EvidenceSpec(k, p.evidenceId).value;
        a == Artifact(p.evidenceId, spec.file, Sha256(inp.downloads[p.subdir][p.file]), spec.workflow,
                      p.runId, m.attempt, inp.request.value.source.commit, "success", m.updatedAt))
  }

  ghost predicate IsAssembly(k: Contract, inp: Inputs, c: Manifest) {
    var q := inp.request.value;
    && c == Manifest(SCHEMA_VERSION, CampaignClass, q.releaseCandidate, Source(q.source.commit, false), k.profileId,
                     q.targetEnvironment, q.onDeviceEnvironment, q.providers, c.operators, c.artifacts)
    && CanonicalIds(c.operators, 1, 10) && Members(c.operators) == Logins(inp)
    && |c.artifacts| == |inp.plan.artifacts|
    && (forall i | 0 <= i < |c.artifacts| :: Attests(k, inp, inp.plan.artifacts[i], c.artifacts[i]))
  }

  /** The report files handed over hold the bytes whose digests the campaign lists. */
  ghost predicate ReportsMatch(c: Manifest, reports: map<string, Bytes>) {
    && reports.Keys == (set a | a in c.artifacts :: a.path)
    && (forall a | a in c.artifacts :: a.path in reports && a.sha256 == Sha256(reports[a.path]))
  }

  lemma PlannedRun(k: Contract, q: Request, sha: Digest, plan: Plan, a: PlanArtifact) returns (i: nat)
    requires ValidContract(k) && RequestOk(k, q) && IsPlan(k, q, sha, plan) && a in plan.artifacts
    ensures a.evidenceId in Required(k, q.providers) && a.subdir == Subdir(a.evidenceId)
    ensures EvidenceSpec(k, a.evidenceId).Some? && a.file == EvidenceSpec(k, a.evidenceId).value.file
    ensures i < |plan.runs| && plan.runs[i] in plan.runs && plan.runs[i] == PlanRunOf(q, k.groups[i])
    ensures plan.runs[i].group == a.group && plan.runs[i].runId == a.runId
    ensures plan.runs[i].workflow == EvidenceSpec(k, a.evidenceId).value.workflow
    ensures a.evidenceId in GroupIds(q.providers, k.groups[i])
  {
    hide ValidContract, Subdir, ArtifactName, GroupIds, Sort;
    var g :| g in k.groups && a.evidenceId in GroupIds(q.providers, g) && a == PlanArtifactOf(k, q, g, a.evidenceId);
    GroupOfId(k, q.providers, g, a.evidenceId);
    i :| 0 <= i < |k.groups| && k.groups[i] == g;
  }

  lemma PlanGroupsDistinct(k: Contract, q: Request, sha: Digest, plan: Plan)
    requires ValidContract(k) && IsPlan(k, q, sha, plan)
    ensures NoDuplicates(RunGroups(plan.runs))
  {
    hide StageIds, FilesOk, NamesOk, ValidCatalog, GroupIds, Sort, ArePlanArtifacts;
    AscendingIffSortedDistinct(GroupNames(k.groups));
    assert RunGroups(plan.runs) == GroupNames(k.groups);
  }

  lemma ProviderFileInjective(p: string, q: string)
    requires ProviderFile(p) == ProviderFile(q)
    ensures p == q
  {
    assert |p| == |q|;
    assert ProviderFile(p)[9..9 + |p|] == p && ProviderFile(q)[9..9 + |q|] == q;
  }

  lemma EvidenceFilesDistinct(k: Contract, id: string, id': string)
    requires ValidContract(k) && EvidenceSpec(k, id).Some? && EvidenceSpec(k, id').Some?
    requires EvidenceSpec(k, id).value.file == EvidenceSpec(k, id').value.file
    ensures id == id'
  {
    hide StageIds, GroupsOk, NamesOk, ValidCatalog, ProviderFile;
    if id !in k.base && id' !in k.base {
      ProviderFileInjective(ProviderOf(id), ProviderOf(id'));
      assert id == ProviderId(ProviderOf(id)) && id' == ProviderId(ProviderOf(id'));
    }
  }

  lemma PlanFilesDistinct(k: Contract, q: Request, sha: Digest, plan: Plan)
    requires ValidContract(k) && RequestOk(k, q) && IsPlan(k, q, sha, plan)
    ensures NoDuplicates(Files(plan.artifacts))
  {
    hide ValidContract, RequestOk, EvidenceSpec, Required, GroupIds, PlanRunOf;
    var files := Files(plan.artifacts);
    AscendingIffSortedDistinct(PlanIds(plan.artifacts));
    forall i, j | 0 <= i < j < |files| ensures files[i] != files[j] {
      var a, b := plan.artifacts[i], plan.artifacts[j];
      var m := PlannedRun(k, q, sha, plan, a);
      var n := PlannedRun(k, q, sha, plan, b);
      assert PlanIds(plan.artifacts)[i] != PlanIds(plan.artifacts)[j];
      if a.file == b.file { EvidenceFilesDistinct(k, a.evidenceId, b.evidenceId); }
    }
  }

  function ByArtifactId(a: Artifact, b: Artifact): bool { TextLeq(a.evidenceId, b.evidenceId) }

  /** The lists the two loops gather are what IsAssembly and ReportsMatch ask for. */
  lemma LoopsAttest(k: Contract, inp: Inputs, now: Micros, results: map<string, RunMetadata>, artifacts: seq<Artifact>)
    requires ValidContract(k) && RequestOk(k, inp.request.value) && RunsVerified(k, inp, now)
    requires IsPlan(k, inp.request.value, inp.request.Sha(), inp.plan)
    requires forall a | a in inp.plan.artifacts :: Downloaded(a, inp.downloads)
    requires forall run | run in inp.plan.runs :: run.group in results && results[run.group] == inp.metadata[run.runId]
    requires forall a | a in inp.plan.artifacts :: a.group in results
    requires |artifacts| == |inp.plan.artifacts|
    requires forall i | 0 <= i < |artifacts| ::
               artifacts[i] == AssembledArtifact(inp.plan.artifacts[i], inp.plan, results, inp.downloads)
    ensures forall i | 0 <= i < |artifacts| :: Attests(k, inp, inp.plan.artifacts[i], artifacts[i])
    ensures Ids(artifacts) == PlanIds(inp.plan.artifacts)
  {
    hide ValidContract, RequestOk, EvidenceSpec, Required, GroupIds, EvidenceRunOk, OperatorLogin, IsRepository;
    var q := inp.request.value;
    PlanGroupsDistinct(k, q, inp.request.Sha(), inp.plan);
    forall i | 0 <= i < |artifacts| ensures Attests(k, inp, inp.plan.artifacts[i], artifacts[i]) {
      var p := inp.plan.artifacts[i];
      var j := PlannedRun(k, q, inp.request.Sha(), inp.plan, p);
      WorkflowLookup(inp.plan.runs, j);
    }
  }

  lemma SortByArtifactId(artifacts: seq<Artifact>)
    requires Ascending(Ids(artifacts))
    ensures Sort(artifacts, ByArtifactId) == artifacts
  {
    forall i, j | 0 <= i < j < |artifacts| ensures ByArtifactId(artifacts[i], artifacts[j]) {
      assert TextLess(Ids(artifacts)[i], Ids(artifacts)[j]);
      TextLessTotal(Ids(artifacts)[i], Ids(artifacts)[j]);
    }
    SortFixpoint(artifacts, ByArtifactId);
  }

  ghost predicate Gathered(k: Contract, inp: Inputs, now: Micros) {
    && OperatorLogin(k, inp.actor) && OperatorLogin(k, inp.triggeringActor)
    && RunsVerified(k, inp, now)
    && |Logins(inp)| <= 10 && FoldInjective(Logins(inp))
    && inp.downloads.Keys == (set a | a in inp.plan.artifacts :: a.subdir)
    && (forall a | a in inp.plan.artifacts :: Downloaded(a, inp.downloads))
  }

  /** The operators, from both assembly actors and every evidence run. */
  method GatherOperators(k: Contract, inp: Inputs, now: Micros)
    returns (accepted: bool, operators: seq<string>, results: map<string, RunMetadata>)
    requires NoDuplicates(RunGroups(inp.plan.runs))
    ensures accepted <==>
              && OperatorLogin(k, inp.actor) && OperatorLogin(k, inp.triggeringActor)
              && RunsVerified(k, inp, now) && |Logins(inp)| <= 10 && FoldInjective(Logins(inp))
    ensures accepted ==> CanonicalIds(operators, 1, 10) && Members(operators) == Logins(inp)
    ensures accepted ==> forall run | run in inp.plan.runs ::
              run.group in results && results[run.group] == inp.metadata[run.runId]
  {
    hide EvidenceRunOk, OperatorLogin, FoldInjective;
    operators, results := [], map[];
    if inp.metadata.Keys != (set run | run in inp.plan.runs :: run.runId) { return false, operators, results; }
    if !OperatorLogin(k, inp.actor) || !OperatorLogin(k, inp.triggeringActor) { return false, operators, results; }
    var actors;
    accepted, results, actors :=
      VerifyRuns(inp.plan.runs, inp.metadata, (m, run) => EvidenceRunOk(k, m, run, inp.repository, now));
    if !accepted { return; }
    var logins := [inp.actor, inp.triggeringActor] + actors;
    assert Members(logins) == Logins(inp);
    AllLogins(k, inp, now);
    var canonical := CollectOperators(logins);
    if canonical.Reject? { return false, operators, results; }
    operators := canonical.value;
  }

  /** The campaign entries and the report bytes behind them. */
  method GatherReports(k: Contract, inp: Inputs, now: Micros, results: map<string, RunMetadata>)
    returns (accepted: bool, artifacts: seq<Artifact>, reports: map<string, Bytes>)
    requires ValidContract(k) && RequestOk(k, inp.request.value) && RunsVerified(k, inp, now)
    requires IsPlan(k, inp.request.value, inp.request.Sha(), inp.plan)
    requires forall run | run in inp.plan.runs :: run.group in results && results[run.group] == inp.metadata[run.runId]
    ensures accepted <==>
              && inp.downloads.Keys == (set a | a in inp.plan.artifacts :: a.subdir)
              && (forall a | a in inp.plan.artifacts :: Downloaded(a, inp.downloads))
    ensures accepted ==> |artifacts| == |inp.plan.artifacts|
    ensures accepted ==> forall i | 0 <= i < |artifacts| :: Attests(k, inp, inp.plan.artifacts[i], artifacts[i])
    ensures accepted ==> Ids(artifacts) == PlanIds(inp.plan.artifacts)
    ensures accepted ==> reports.Keys == Members(Files(inp.plan.artifacts))
    ensures accepted ==> forall a | a in inp.plan.artifacts ::
              a.file in reports && reports[a.file] == inp.downloads[a.subdir][a.file]
  {
    hide ValidContract, RequestOk, IsPlan, Attests, RunsVerified, EvidenceSpec, Required, GroupIds, PlanRunOf;
    hide WorkflowOf;
    var q, sha, plan := inp.request.value, inp.request.Sha(), inp.plan;
    accepted, artifacts, reports := false, [], map[];
    if inp.downloads.Keys != (set a | a in plan.artifacts :: a.subdir) { return; }
    PlanFilesDistinct(k, q, sha, plan);
    forall a | a in plan.artifacts ensures a.group in results {
      var i := PlannedRun(k, q, sha, plan, a);
    }
    accepted, artifacts, reports := CollectReports(plan, results, inp.downloads);
    if !accepted { return; }
    LoopsAttest(k, inp, now, results, artifacts);
    forall a | a in plan.artifacts ensures a.file in reports { FileOf(plan.artifacts, a); }
  }

  lemma FileOf(artifacts: seq<PlanArtifact>, a: PlanArtifact)
    requires a in artifacts
    ensures a.file in Members(Files(artifacts))
  {
    var i :| 0 <= i < |artifacts| && artifacts[i] == a;
    assert Files(artifacts)[i] == a.file;
  }

  /** The manifest and the report bytes, once the plan has been accepted. */
  method GatherCampaign(k: Contract, inp: Inputs, now: Micros) returns (r: Outcome<(Manifest, map<string, Bytes>)>)
    requires ValidContract(k) && RequestOk(k, inp.request.value)
    requires IsPlan(k, inp.request.value, inp.request.Sha(), inp.plan)
    ensures r.Accept? <==> Gathered(k, inp, now)
    ensures r.Accept? ==> IsAssembly(k, inp, r.value.0) && ReportsMatch(r.value.0, r.value.1)
  {
    hide ValidContract, RequestOk, OperatorLogin, FoldInjective, IsPlan, Attests, RunsVerified, Logins, CanonicalIds;
    hide ReportsMatch, Ascending, Downloaded, Files, Ids, PlanIds, Required;
    var q, sha, plan := inp.request.value, inp.request.Sha(), inp.plan;
    PlanGroupsDistinct(k, q, sha, plan);
    var accepted, operators, results := GatherOperators(k, inp, now);
    if !accepted { return Reject; }
    var collected, artifacts, reports := GatherReports(k, inp, now, results);
    if !collected { return Reject; }
    PlanAscending(k, q, sha, plan);
    SortByArtifactId(artifacts);
    var c := Manifest(SCHEMA_VERSION, CampaignClass, plan.releaseCandidate, plan.source, plan.profileId,
                      plan.targetEnvironment,
                      plan.onDeviceEnvironment, plan.providers, operators, Sort(artifacts, ByArtifactId));
    ReportsHold(k, inp, c, reports);
    r := Accept((c, reports));
  }

  method AssembleCampaign(k: Contract, inp: Inputs, now: Micros) returns (r: Outcome<(Manifest, map<string, Bytes>)>)
    requires ValidContract(k)
    ensures r.Accept? <==> CanAssemble(k, inp, now)
    ensures r.Accept? ==> IsAssembly(k, inp, r.value.0) && ReportsMatch(r.value.0, r.value.1)
  {
    hide ValidContract, RequestOk, Gathered, IsPlan, IsAssembly, ReportsMatch, IsRepository;
    if !IsRepository(inp.repository) { return Reject; }
    var plan :- BuildPlan(k, inp.request.value, inp.request.Sha());
    PlanUnique(k, inp.request.value, inp.request.Sha(), plan, inp.plan);
    if inp.plan != plan { return Reject; }
    r := GatherCampaign(k, inp, now);
  }

  lemma AllLogins(k: Contract, inp: Inputs, now: Micros)
    requires OperatorLogin(k, inp.actor) && OperatorLogin(k, inp.triggeringActor)
    requires forall run | run in inp.plan.runs ::
               run.runId in inp.metadata && EvidenceRunOk(k, inp.metadata[run.runId], run, inp.repository, now)
    ensures forall x | x in Logins(inp) :: OperatorLogin(k, x) && IsLogin(x)
    ensures |Logins(inp)| >= 1
  {
    hide SafeWorkflowPath, IsLogin;
    assert inp.actor in Logins(inp);
    assert Logins(inp) != {};
  }

  lemma ReportsHold(k: Contract, inp: Inputs, c: Manifest, reports: map<string, Bytes>)
    requires ValidContract(k) && RequestOk(k, inp.request.value)
    requires IsPlan(k, inp.request.value, inp.request.Sha(), inp.plan)
    requires |c.artifacts| == |inp.plan.artifacts|
    requires forall i | 0 <= i < |c.artifacts| :: Attests(k, inp, inp.plan.artifacts[i], c.artifacts[i])
    requires reports.Keys == Members(Files(inp.plan.artifacts))
    requires forall a | a in inp.plan.artifacts ::
               Downloaded(a, inp.downloads) && a.file in reports && reports[a.file] == inp.downloads[a.subdir][a.file]
    ensures ReportsMatch(c, reports)
  {
    hide ValidContract, RequestOk, GroupIds, EvidenceSpec, Required;
    forall i | 0 <= i < |c.artifacts|
      ensures c.artifacts[i].path == inp.plan.artifacts[i].file && c.artifacts[i].path in reports
      ensures c.artifacts[i].sha256 == Sha256(reports[c.artifacts[i].path])
    {
      var j := PlannedRun(k, inp.request.value, inp.request.Sha(), inp.plan, inp.plan.artifacts[i]);
    }
    forall f ensures f in reports <==> exists a :: a in c.artifacts && a.path == f {
      if f in reports {
        var i :| 0 <= i < |inp.plan.artifacts| && Files(inp.plan.artifacts)[i] == f;
        assert c.artifacts[i] in c.artifacts;
      }
    }
  }

  lemma PlanAscending(k: Contract, q: Request, sha: Digest, plan: Plan)
    requires IsPlan(k, q, sha, plan)
    ensures Ascending(PlanIds(plan.artifacts)) && Members(PlanIds(plan.artifacts)) == Required(k, q.providers)
    ensures plan.releaseCandidate == q.releaseCandidate && plan.source == Source(q.source.commit, false)
    ensures plan.profileId == k.profileId && plan.targetEnvironment == q.targetEnvironment
    ensures plan.onDeviceEnvironment == q.onDeviceEnvironment && plan.providers == q.providers
  {
  }

  /** A request has one plan. */
  lemma PlanUnique(k: Contract, q: Request, sha: Digest, a: Plan, b: Plan)
    requires ValidContract(k) && RequestOk(k, q) && IsPlan(k, q, sha, a)
    ensures IsPlan(k, q, sha, b) <==> a == b
  {
    hide ValidContract, EvidenceSpec, Required, GroupIds, PlanRunOf;
    if IsPlan(k, q, sha, b) {
      assert Members(PlanIds(a.artifacts)) == Members(PlanIds(b.artifacts));
      forall x ensures x in PlanIds(a.artifacts) <==> x in PlanIds(b.artifacts) {
        assert x in Members(PlanIds(a.artifacts)) <==> x in Members(PlanIds(b.artifacts));
      }
      AscendingUnique(PlanIds(a.artifacts), PlanIds(b.artifacts));
      assert |a.artifacts| == |PlanIds(a.artifacts)| == |PlanIds(b.artifacts)| == |b.artifacts|;
      forall i | 0 <= i < |a.artifacts| ensures a.artifacts[i] == b.artifacts[i] {
        var x, y := a.artifacts[i], b.artifacts[i];
        assert PlanIds(a.artifacts)[i] == PlanIds(b.artifacts)[i];
        var g :| g in k.groups && x.evidenceId in GroupIds(q.providers, g)
            && x == PlanArtifactOf(k, q, g, x.evidenceId);
        var h :| h in k.groups && y.evidenceId in GroupIds(q.providers, h)
            && y == PlanArtifactOf(k, q, h, y.evidenceId);
        GroupIsUnique(k, q.providers, g, h, x.evidenceId);
      }
      assert a.runs == b.runs;
    }
  }
}

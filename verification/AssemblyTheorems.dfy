/** What an assembled campaign guarantees to the stages that read it. */
module AssemblyTheorems {
  import opened Primitives
  import opened LiveProviderPlan
  import opened Campaign
  import opened AssemblyPlan
  import opened GitHub
  import opened Assembly

  function DispatchOf(q: Request): Dispatch { Dispatch(q.releaseCandidate, q.source.commit, q.targetEnvironment) }

  // ----- names that fit ------------------------------------------------------------------

  lemma ProviderFileSize(p: string)
    requires IsProviderName(p)
    ensures Utf8Size(ProviderFile(p)) == |p| + 14 && '/' !in ProviderFile(p)
  {
    var f := ProviderFile(p);
    forall i | 0 <= i < |f| ensures f[i] as int < 0x80 && f[i] != '/' {
      if 9 <= i < 9 + |p| {
        assert f[i] == p[i - 9];
      } else if i < 9 {
        assert f[i] == "provider-"[i];
      } else {
        assert f[i] == ".json"[i - 9 - |p|];
      }
    }
    AsciiSize(f);
  }

  lemma ProviderIdIsIdentifier(p: string)
    requires IsProviderName(p)
    ensures IsIdentifier(ProviderId(p)) <==> |p| <= 119
  {
    var id := ProviderId(p);
    forall i | 0 <= i < |id| ensures IsIdChar(id[i]) {
      if i < 9 {
        assert id[i] == PROVIDER_PREFIX[i];
      } else {
        assert id[i] == p[i - 9];
      }
    }
    assert id[0] == PROVIDER_PREFIX[0];
  }

  /** Whether the campaign parser's name bounds admit an evidence id of the inventory. */
  predicate NamesFit(q: Request) { forall p | p in q.providers :: |p| <= 114 }

  lemma SpecFits(k: Contract, q: Request, id: string)
    requires ValidContract(k) && ProviderListOk(q.providers, k.catalog) && id in Required(k, q.providers)
    ensures EvidenceSpec(k, id).Some?
    ensures var spec := EvidenceSpec(k, id).value;
            (IsIdentifier(id) && '/' !in spec.file && IsBoundedText(spec.file, 128)) <==>
              (IsProviderId(id) ==> |ProviderOf(id)| <= 114)
  {
    hide StageIds, GroupsOk, NamesOk, ProviderFile, IsIdentifier;
    RequiredProviderIds(k, q.providers, id);
    if id !in k.base {
      var p := ProviderOf(id);
      assert p in Members(k.catalog);
      ProviderIdIsIdentifier(p);
      ProviderFileSize(p);
    }
  }

  // ----- the inventory -------------------------------------------------------------------

  lemma {:induction false} ProviderIdCount(providers: seq<string>)
    requires NoDuplicates(providers)
    ensures |set p | p in providers :: ProviderId(p)| == |providers|
  {
    var ids := ProviderIds(providers);
    forall i, j | 0 <= i < j < |ids| ensures ids[i] != ids[j] {
      assert ids[i][9..] == providers[i] && ids[j][9..] == providers[j];
    }
    DistinctCardinality(ids);
    assert (set x | x in ids) == set p | p in providers :: ProviderId(p);
  }

  lemma InventorySize(k: Contract, providers: seq<string>)
    requires NamedIds(k) && NoDuplicates(providers)
    ensures |Required(k, providers)| == |k.base| + |providers|
  {
    ProviderIdCount(providers);
    var ids := set p | p in providers :: ProviderId(p);
    forall x | x in ids ensures x !in k.base.Keys { assert IsProviderId(x); }
    assert |k.base.Keys + ids| == |k.base.Keys| + |ids|;
  }

  lemma ContractNames(k: Contract)
    requires ValidContract(k)
    ensures NamedIds(k)
  {
  }

  lemma ArtifactCount(k: Contract, inp: Inputs, c: Manifest, now: Micros)
    requires ValidContract(k) && CanAssemble(k, inp, now) && IsAssembly(k, inp, c)
    ensures Ids(c.artifacts) == PlanIds(inp.plan.artifacts)
    ensures Ascending(Ids(c.artifacts)) && Members(Ids(c.artifacts)) == Required(k, inp.request.value.providers)
    ensures |c.artifacts| == |k.base| + |inp.request.value.providers|
  {
    hide ValidContract, IsPlan, Gathered, EvidenceSpec, Required, Logins, CanonicalIds, IsRepository;
    var q := inp.request.value;
    ContractNames(k);
    PlanAscending(k, q, inp.request.Sha(), inp.plan);
    AscendingIffSortedDistinct(Ids(c.artifacts));
    DistinctCardinality(Ids(c.artifacts));
    InventorySize(k, q.providers);
  }

  /** The facts one campaign entry inherits from the run that GitHub reported. */
  lemma EntryFacts(k: Contract, inp: Inputs, c: Manifest, now: Micros, i: nat) returns (run: PlanRun)
    requires ValidContract(k) && CanAssemble(k, inp, now) && IsAssembly(k, inp, c) && i < |c.artifacts|
    ensures run in inp.plan.runs && run.runId == c.artifacts[i].runId && run.runId in inp.metadata
    ensures exists g :: g in k.groups && c.artifacts[i].evidenceId in GroupIds(inp.request.value.providers, g) &&
                        run == PlanRunOf(inp.request.value, g)
    ensures var a, m := c.artifacts[i], inp.metadata[run.runId];
            && EvidenceRunOk(k, m, run, inp.repository, now)
            && a.runAttempt == m.attempt && a.completedAt == m.updatedAt
            && a.workflowPath == run.workflow
            && a.evidenceId in Required(k, inp.request.value.providers)
            && EvidenceSpec(k, a.evidenceId).Some?
            && a.path == EvidenceSpec(k, a.evidenceId).value.file
            && a.workflowPath == EvidenceSpec(k, a.evidenceId).value.workflow
            && a.sha256.Sha256? && a.headSha == inp.request.value.source.commit && a.conclusion == "success"
  {
    hide ValidContract, RequestOk, GroupIds, PlanRunOf, EvidenceSpec, Required, OperatorLogin, FoldInjective;
    hide CanonicalIds;
    var p := inp.plan.artifacts[i];
    var j := PlannedRun(k, inp.request.value, inp.request.Sha(), inp.plan, p);
    run := inp.plan.runs[j];
    assert Attests(k, inp, p, c.artifacts[i]);
    assert p.evidenceId in GroupIds(inp.request.value.providers, k.groups[j]);
  }

  // ----- assembly refines the parser -----------------------------------------------------

  lemma EntryAccepted(k: Contract, inp: Inputs, c: Manifest, now: Micros, later: Micros, i: nat)
    requires ValidContract(k) && CanAssemble(k, inp, now) && IsAssembly(k, inp, c) && now <= later && i < |c.artifacts|
    ensures ArtifactOk(k, c.artifacts[i], DispatchOf(inp.request.value), later) <==>
            (IsProviderId(c.artifacts[i].evidenceId) ==> |ProviderOf(c.artifacts[i].evidenceId)| <= 114)
  {
    hide ValidContract, IsPlan, GroupIds, PlanRunOf, EvidenceSpec, Required, OperatorLogin, IsAssembly, Gathered;
    hide IsIdentifier, IsBoundedText, SafeWorkflowPath;
    var run := EntryFacts(k, inp, c, now, i);
    SpecFits(k, inp.request.value, c.artifacts[i].evidenceId);
  }

  lemma OperatorsAccepted(k: Contract, inp: Inputs, c: Manifest, now: Micros)
    requires CanAssemble(k, inp, now) && IsAssembly(k, inp, c)
    ensures OperatorsOk(k, c.operators)
  {
    hide IsPlan, RequestOk, EvidenceRunOk, IsIdentifier, IsLogin;
    AllLogins(k, inp, now);
    forall i | 0 <= i < |c.operators| ensures Fold(c.operators[i]) !in k.reserved {
      assert c.operators[i] in Members(c.operators);
    }
  }

  /** Two entries of one evidence group report the same run; entries of different groups never do. */
  lemma GroupDecidesRun(k: Contract, inp: Inputs, c: Manifest, now: Micros, i: nat, j: nat)
    requires ValidContract(k) && CanAssemble(k, inp, now) && IsAssembly(k, inp, c) && i < |c.artifacts|
    requires j < |c.artifacts|
    ensures c.artifacts[i].runId == c.artifacts[j].runId ==>
              && SameRun(c.artifacts[i], c.artifacts[j])
              && c.artifacts[i].workflowPath == c.artifacts[j].workflowPath
              && inp.metadata[c.artifacts[i].runId] == inp.metadata[c.artifacts[j].runId]
    ensures c.artifacts[i].evidenceId == PLAN_ID && IsProviderId(c.artifacts[j].evidenceId) ==>
              SameRun(c.artifacts[i], c.artifacts[j])
  {
    hide StageIds, FilesOk, NamesOk, ValidCatalog, IsPlan, GroupIds, EvidenceSpec, Required, IsAssembly, Gathered;
    hide EvidenceRunOk, Sort;
    var q := inp.request.value;
    var run := EntryFacts(k, inp, c, now, i);
    var run' := EntryFacts(k, inp, c, now, j);
    var g :| g in k.groups && c.artifacts[i].evidenceId in GroupIds(q.providers, g) && run == PlanRunOf(q, g);
    var h :| h in k.groups && c.artifacts[j].evidenceId in GroupIds(q.providers, h) && run' == PlanRunOf(q, h);
    GroupOfId(k, q.providers, g, c.artifacts[i].evidenceId);
    GroupOfId(k, q.providers, h, c.artifacts[j].evidenceId);
    if run.runId == run'.runId { RunIdDecidesGroup(k, q, g, h); }
  }

  lemma RunIdDecidesGroup(k: Contract, q: Request, g: Group, h: Group)
    requires ValidContract(k) && RequestOk(k, q) && g in k.groups && h in k.groups && RunIdOf(q, g) == RunIdOf(q, h)
    ensures g == h && RunIdOf(q, g) > 0
  {
    hide StageIds, FilesOk, NamesOk, ValidCatalog, NamedIds, ProviderListOk, IsReleaseCandidate;
    var i :| 0 <= i < |k.groups| && k.groups[i] == g;
    var j :| 0 <= j < |k.groups| && k.groups[j] == h;
    assert GroupNames(k.groups)[i] in Members(GroupNames(k.groups));
    assert GroupNames(k.groups)[j] in Members(GroupNames(k.groups));
    TextLessTotal(g.name, h.name);
  }

  /** Every campaign the assembler accepts is accepted by the parser at any later clock, exactly
      when its inventory has at most 32 entries and no provider name is over 114 characters. */
  lemma AssemblyRefinesParser(k: Contract, inp: Inputs, c: Manifest, now: Micros, later: Micros)
    requires ValidContract(k) && CanAssemble(k, inp, now) && IsAssembly(k, inp, c) && now <= later
    ensures CampaignOk(k, c, DispatchOf(inp.request.value), later) <==>
            |k.base| + |inp.request.value.providers| <= MAX_ARTIFACTS && NamesFit(inp.request.value)
  {
    hide ValidContract, ArtifactOk, Required, EvidenceSpec, OperatorsOk, Gathered, IsPlan, Attests;
    var q := inp.request.value;
    ArtifactCount(k, inp, c, now);
    OperatorsAccepted(k, inp, c, now);
    ArtifactsAccepted(k, inp, c, now);
    if NamesFit(q) {
      forall a | a in c.artifacts ensures ArtifactOk(k, a, DispatchOf(q), later) {
        var i :| 0 <= i < |c.artifacts| && c.artifacts[i] == a;
        EntryAccepted(k, inp, c, now, later, i);
        InventoryProvider(k, q, Ids(c.artifacts), i);
      }
    }
    if CampaignOk(k, c, DispatchOf(q), later) {
      forall p | p in q.providers ensures |p| <= 114 {
        var i := ProviderEntry(k, q, Ids(c.artifacts), p);
        EntryAccepted(k, inp, c, now, later, i);
        assert c.artifacts[i] in c.artifacts;
      }
    }
  }

  lemma InventoryProvider(k: Contract, q: Request, ids: seq<string>, i: nat)
    requires ValidContract(k) && Members(ids) == Required(k, q.providers) && i < |ids|
    ensures IsProviderId(ids[i]) ==> ProviderOf(ids[i]) in q.providers
  {
    assert ids[i] in Members(ids);
    RequiredProviderIds(k, q.providers, ids[i]);
  }

  lemma ProviderEntry(k: Contract, q: Request, ids: seq<string>, p: string) returns (i: nat)
    requires Members(ids) == Required(k, q.providers) && p in q.providers
    ensures i < |ids| && ids[i] == ProviderId(p) && IsProviderId(ids[i]) && ProviderOf(ids[i]) == p
  {
    assert ProviderId(p) in Members(ids);
    i :| 0 <= i < |ids| && ids[i] == ProviderId(p);
  }

  lemma ArtifactsAccepted(k: Contract, inp: Inputs, c: Manifest, now: Micros)
    requires ValidContract(k) && CanAssemble(k, inp, now) && IsAssembly(k, inp, c)
    ensures ArtifactsOk(k, c.artifacts, c.providers)
  {
    hide ValidContract, CanAssemble, Required, Attests, SameRun, CanonicalIds, Logins;
    ArtifactCount(k, inp, c, now);
    forall a, b | a in c.artifacts && b in c.artifacts && a.evidenceId == PLAN_ID && IsProviderId(b.evidenceId)
      ensures SameRun(a, b)
    {
      var i :| 0 <= i < |c.artifacts| && c.artifacts[i] == a;
      var j :| 0 <= j < |c.artifacts| && c.artifacts[j] == b;
      GroupDecidesRun(k, inp, c, now, i, j);
    }
  }

  /** In an assembled campaign no run attempt carries two workflows or two completion times. */
  lemma OneWorkflowPerAttempt(k: Contract, inp: Inputs, c: Manifest, now: Micros, a: Artifact, b: Artifact)
    requires ValidContract(k) && CanAssemble(k, inp, now) && IsAssembly(k, inp, c)
    requires a in c.artifacts && b in c.artifacts && RunKey(a) == RunKey(b)
    ensures a.workflowPath == b.workflowPath && a.completedAt == b.completedAt
  {
    hide ValidContract, CanAssemble, IsAssembly;
    var i :| 0 <= i < |c.artifacts| && c.artifacts[i] == a;
    var j :| 0 <= j < |c.artifacts| && c.artifacts[j] == b;
    GroupDecidesRun(k, inp, c, now, i, j);
  }

  /** The same runs, reports and actors always assemble into the same campaign. */
  lemma AssemblyDeterministic(k: Contract, inp: Inputs, c: Manifest, d: Manifest)
    requires IsAssembly(k, inp, c) && IsAssembly(k, inp, d)
    ensures c == d
  {
    hide Logins, EvidenceSpec, CanonicalIds;
    CanonicalUnique(c.operators, d.operators);
    assert forall i | 0 <= i < |c.artifacts| :: c.artifacts[i] == d.artifacts[i];
    assert c.artifacts == d.artifacts;
  }
}

/** scripts/phase1_campaign_assembly.py: the assembly request and its plan. */
module AssemblyPlan {
  import opened Primitives
  import opened LiveProviderPlan
  import opened Campaign

  datatype Request = Request(
    schemaVersion: int, qualificationClass: Class, releaseCandidate: string, source: Source, profileId: string,
    targetEnvironment: string, onDeviceEnvironment: string, providers: seq<string>, runIds: map<string, int>)

  predicate RequestOk(k: Contract, q: Request) {
    && q.schemaVersion == SCHEMA_VERSION && q.qualificationClass == RequestClass
    && IsBoundedText(q.releaseCandidate, 256) && IsReleaseCandidate(q.releaseCandidate)
    && !q.source.dirty && IsCommit(q.source.commit) && q.profileId == k.profileId
    && IsIdentifier(q.targetEnvironment) && IsIdentifier(q.onDeviceEnvironment)
    && q.onDeviceEnvironment != q.targetEnvironment
    && ProviderListOk(q.providers, k.catalog)
    && RunIdsOk(k, q.runIds)
  }

  /** One positive run id per group, all different. */
  predicate RunIdsOk(k: Contract, runIds: map<string, int>) {
    && runIds.Keys == Members(GroupNames(k.groups))
    && (forall g | g in runIds :: runIds[g] > 0)
    && (forall g, g' | g in runIds && g' in runIds && runIds[g] == runIds[g'] :: g == g')
  }

  // ----- the plan ------------------------------------------------------------------------

  datatype PlanRun = PlanRun(group: string, runId: int, workflow: string, event: string, headSha: string,
                             ids: seq<string>)

  datatype PlanArtifact = PlanArtifact(
    evidenceId: string, group: string, runId: int, name: string, subdir: string, file: string)

  datatype Plan = Plan(
    releaseCandidate: string, source: Source, profileId: string, targetEnvironment: string,
    onDeviceEnvironment: string, providers: seq<string>, requestSha: Digest, runs: seq<PlanRun>,
    artifacts: seq<PlanArtifact>)

  function Subdir(id: string): string {
    if id == "" then "" else (if id[0] == ':' then "__" else [id[0]]) + Subdir(id[1..])
  }

  function ProviderIds(providers: seq<string>): (ids: seq<string>)
    ensures |ids| == |providers| && forall i | 0 <= i < |ids| :: ids[i] == ProviderId(providers[i])
  {
    seq(|providers|, i requires 0 <= i < |providers| => ProviderId(providers[i]))
  }

  /** The evidence one group's run carries: its base ids, and the providers for the plan's group. */
  function GroupIds(providers: seq<string>, g: Group): seq<string> {
    g.base + if PLAN_ID in g.base then ProviderIds(providers) else []
  }

  function RunIdOf(q: Request, g: Group): int {
    if g.name in q.runIds then q.runIds[g.name] else 0
  }

  function PlanRunOf(q: Request, g: Group): PlanRun {
    PlanRun(g.name, RunIdOf(q, g), g.workflow, g.event, q.source.commit, Sort(GroupIds(q.providers, g), TextLeq))
  }

  function PlanArtifactOf(k: Contract, q: Request, g: Group, id: string): PlanArtifact {
    var spec := match EvidenceSpec(k, id) case Some(spec) => spec case None => Spec("", "", Fixed(""), ProviderKind);
    PlanArtifact(id, g.name, RunIdOf(q, g), ArtifactName(spec, q.releaseCandidate, q.source.commit),
                 Subdir(id), spec.file)
  }

  function PlanIds(artifacts: seq<PlanArtifact>): (ids: seq<string>)
    ensures |ids| == |artifacts| && forall i | 0 <= i < |ids| :: ids[i] == artifacts[i].evidenceId
  {
    seq(|artifacts|, i requires 0 <= i < |artifacts| => artifacts[i].evidenceId)
  }

  /** The plan of a request: one run per group, and one entry per required evidence id, in id
      order, taken from the group that carries the id. */
  ghost predicate IsPlan(k: Contract, q: Request, requestSha: Digest, plan: Plan) {
    && plan.releaseCandidate == q.releaseCandidate && plan.source == Source(q.source.commit, false)
    && plan.profileId == k.profileId && plan.targetEnvironment == q.targetEnvironment
    && plan.onDeviceEnvironment == q.onDeviceEnvironment && plan.providers == q.providers
    && plan.requestSha == requestSha
    && |plan.runs| == |k.groups| && (forall i | 0 <= i < |k.groups| :: plan.runs[i] == PlanRunOf(q, k.groups[i]))
    && ArePlanArtifacts(k, q, plan.artifacts)
  }

  ghost predicate ArePlanArtifacts(k: Contract, q: Request, artifacts: seq<PlanArtifact>) {
    && Ascending(PlanIds(artifacts)) && Members(PlanIds(artifacts)) == Required(k, q.providers)
    && forall a | a in artifacts ::
         exists g :: g in k.groups && a.evidenceId in GroupIds(q.providers, g)
             && a == PlanArtifactOf(k, q, g, a.evidenceId)
  }

  // ----- every evidence id belongs to exactly one group -----------------------------------

  function GroupArtifacts(k: Contract, q: Request, g: Group): (r: seq<PlanArtifact>)
    ensures |r| == |GroupIds(q.providers, g)|
    ensures forall i | 0 <= i < |r| :: r[i] == PlanArtifactOf(k, q, g, GroupIds(q.providers, g)[i])
  {
    var ids := GroupIds(q.providers, g);
    seq(|ids|, i requires 0 <= i < |ids| => PlanArtifactOf(k, q, g, ids[i]))
  }

  /** The entries of the first `n` groups, in loop order. */
  function AllArtifacts(k: Contract, q: Request, n: nat): seq<PlanArtifact>
    requires n <= |k.groups|
  {
    if n == 0 then [] else AllArtifacts(k, q, n - 1) + GroupArtifacts(k, q, k.groups[n - 1])
  }

  lemma GroupOfId(k: Contract, providers: seq<string>, g: Group, id: string)
    requires ValidContract(k) && Members(providers) <= Members(k.catalog)
    requires g in k.groups && id in GroupIds(providers, g)
    ensures id in Required(k, providers)
    ensures EvidenceSpec(k, id).Some? && EvidenceSpec(k, id).value.workflow == g.workflow
    ensures if IsProviderId(id) then PLAN_ID in g.base else id in g.base
  {
    hide StageIds, FilesOk, NamesOk, ValidCatalog;
    if id !in g.base {
      var i :| 0 <= i < |providers| && id == ProviderId(providers[i]);
      assert ProviderOf(id) == providers[i];
      assert providers[i] in Members(k.catalog);
      assert IsProviderId(id) && id !in k.base;
    }
  }

  lemma GroupIsUnique(k: Contract, providers: seq<string>, g: Group, g': Group, id: string)
    requires ValidContract(k) && Members(providers) <= Members(k.catalog)
    requires g in k.groups && g' in k.groups && id in GroupIds(providers, g) && id in GroupIds(providers, g')
    ensures g == g'
  {
    hide StageIds, FilesOk, NamesOk, ValidCatalog;
    GroupOfId(k, providers, g, id);
    GroupOfId(k, providers, g', id);
  }

  lemma GroupExists(k: Contract, providers: seq<string>, id: string) returns (g: Group)
    requires ValidContract(k) && id in Required(k, providers)
    ensures g in k.groups && id in GroupIds(providers, g)
  {
    hide StageIds, FilesOk, NamesOk, ValidCatalog;
    RequiredProviderIds(k, providers, id);
    if id in k.base {
      g :| g in k.groups && id in g.base;
    } else {
      g :| g in k.groups && PLAN_ID in g.base;
      var i :| 0 <= i < |providers| && providers[i] == ProviderOf(id);
      assert ProviderIds(providers)[i] == id;
    }
  }

  lemma GroupIdsDistinct(k: Contract, providers: seq<string>, g: Group)
    requires ValidContract(k) && g in k.groups && NoDuplicates(providers)
    ensures NoDuplicates(GroupIds(providers, g))
  {
    hide StageIds, FilesOk, NamesOk, ValidCatalog, NamedIds, ProviderId;
    var ids := GroupIds(providers, g);
    var n := |g.base|;
    forall i, j | 0 <= i < j < |ids| ensures ids[i] != ids[j] {
      if j < n {
        assert ids[i] == g.base[i] && ids[j] == g.base[j];
      } else {
        ProviderIdNamed(k, providers[j - n]);
        if i < n {
          assert ids[i] in g.base;
        } else {
          ProviderIdNamed(k, providers[i - n]);
        }
      }
    }
  }

  lemma ProviderIdNamed(k: Contract, p: string)
    requires NamedIds(k)
    ensures IsProviderId(ProviderId(p)) && ProviderOf(ProviderId(p)) == p && ProviderId(p) !in k.base
  {
  }

  ghost predicate FromGroup(k: Contract, q: Request, n: nat, a: PlanArtifact) requires n <= |k.groups| {
    exists i :: 0 <= i < n && a.evidenceId in GroupIds(q.providers, k.groups[i]) &&
                a == PlanArtifactOf(k, q, k.groups[i], a.evidenceId)
  }

  lemma {:induction false} AllArtifactsAre(k: Contract, q: Request, n: nat)
    requires n <= |k.groups|
    ensures forall a | a in AllArtifacts(k, q, n) :: FromGroup(k, q, n, a)
    ensures forall i, id | 0 <= i < n && id in GroupIds(q.providers, k.groups[i]) ::
            id in PlanIds(AllArtifacts(k, q, n))
  {
    if n > 0 {
      AllArtifactsAre(k, q, n - 1);
      var before, g := AllArtifacts(k, q, n - 1), k.groups[n - 1];
      var now := GroupArtifacts(k, q, g);
      assert PlanIds(before + now) == PlanIds(before) + PlanIds(now);
      assert PlanIds(now) == GroupIds(q.providers, g);
      forall a | a in before + now ensures FromGroup(k, q, n, a) {
        if a in before {
          assert FromGroup(k, q, n - 1, a);
        } else {
          var j :| 0 <= j < |now| && now[j] == a;
          assert a.evidenceId in GroupIds(q.providers, k.groups[n - 1]);
        }
      }
    }
  }

  /** No id of an earlier group comes back in a later one. */
  lemma LaterGroupIsNew(k: Contract, q: Request, n: nat, a: PlanArtifact, id: string)
    requires ValidContract(k) && Members(q.providers) <= Members(k.catalog) && n < |k.groups|
    requires FromGroup(k, q, n, a) && id in GroupIds(q.providers, k.groups[n])
    ensures a.evidenceId != id
  {
    hide StageIds, FilesOk, NamesOk, ValidCatalog, PlanArtifactOf, GroupIds;
    if a.evidenceId == id {
      var m :| 0 <= m < n && id in GroupIds(q.providers, k.groups[m]);
      GroupIsUnique(k, q.providers, k.groups[m], k.groups[n], id);
      TextLessTotal(GroupNames(k.groups)[m], GroupNames(k.groups)[n]);
    }
  }

  lemma {:induction false} AllArtifactsDistinct(k: Contract, q: Request, n: nat)
    requires ValidContract(k) && NoDuplicates(q.providers) && Members(q.providers) <= Members(k.catalog)
    requires n <= |k.groups|
    ensures NoDuplicates(PlanIds(AllArtifacts(k, q, n)))
  {
    hide PlanArtifactOf, GroupIds, ValidContract, FromGroup;
    if n > 0 {
      AllArtifactsDistinct(k, q, n - 1);
      AllArtifactsAre(k, q, n - 1);
      var before, g := AllArtifacts(k, q, n - 1), k.groups[n - 1];
      var now := GroupArtifacts(k, q, g);
      GroupIdsDistinct(k, q.providers, g);
      var ids := PlanIds(before + now);
      forall j | 0 <= j < |now| ensures now[j].evidenceId == GroupIds(q.providers, g)[j] {
        EntryId(k, q, g, GroupIds(q.providers, g)[j]);
      }
      forall i, j | 0 <= i < j < |ids| ensures ids[i] != ids[j] {
        var m := |before|;
        if j < m {
          assert ids[i] == PlanIds(before)[i] && ids[j] == PlanIds(before)[j];
        } else if i >= m {
          assert ids[i] == GroupIds(q.providers, g)[i - m] && ids[j] == GroupIds(q.providers, g)[j - m];
        } else {
          assert before[i] in before;
          LaterGroupIsNew(k, q, n - 1, before[i], ids[j]);
        }
      }
    }
  }

  lemma EntryId(k: Contract, q: Request, g: Group, id: string)
    ensures PlanArtifactOf(k, q, g, id).evidenceId == id
  {
  }

  function ByEvidenceId(a: PlanArtifact, b: PlanArtifact): bool { TextLeq(a.evidenceId, b.evidenceId) }

  /** Sorting entries with distinct ids by id gives ascending ids and the same entries. */
  lemma SortByEvidenceId(xs: seq<PlanArtifact>)
    requires NoDuplicates(PlanIds(xs))
    ensures Ascending(PlanIds(Sort(xs, ByEvidenceId)))
    ensures forall a :: a in Sort(xs, ByEvidenceId) <==> a in xs
    ensures Members(PlanIds(Sort(xs, ByEvidenceId))) == Members(PlanIds(xs))
  {
    var s := Sort(xs, ByEvidenceId);
    TextLeqPreorder();
    assert TotalPreorder(ByEvidenceId);
    SortOrders(xs, ByEvidenceId);
    SortPermutes(xs, ByEvidenceId);
    PermutationFacts(s, xs);
    assert NoDuplicates(xs) by {
      forall i, j | 0 <= i < j < |xs| ensures xs[i] != xs[j] { assert PlanIds(xs)[i] != PlanIds(xs)[j]; }
    }
    PermutationKeepsDistinct(xs, s);
    forall i, j | 0 <= i < j < |s| ensures TextLess(PlanIds(s)[i], PlanIds(s)[j]) {
      assert s[i] in xs && s[j] in xs;
      var a :| 0 <= a < |xs| && xs[a] == s[i];
      var b :| 0 <= b < |xs| && xs[b] == s[j];
      assert a != b;
      assert PlanIds(xs)[a] != PlanIds(xs)[b];
      assert ByEvidenceId(s[i], s[j]);
      TextLessTotal(s[i].evidenceId, s[j].evidenceId);
    }
    forall id ensures id in PlanIds(s) <==> id in PlanIds(xs) {
      if id in PlanIds(s) {
        var i :| 0 <= i < |s| && s[i].evidenceId == id;
        assert s[i] in xs;
        var j :| 0 <= j < |xs| && xs[j] == s[i];
        assert PlanIds(xs)[j] == id;
      }
      if id in PlanIds(xs) {
        var i :| 0 <= i < |xs| && xs[i].evidenceId == id;
        assert xs[i] in s;
        var j :| 0 <= j < |s| && s[j] == xs[i];
        assert PlanIds(s)[j] == id;
      }
    }
  }

  lemma AllArtifactIds(k: Contract, q: Request, id: string)
    requires ValidContract(k) && Members(q.providers) <= Members(k.catalog)
    ensures id in PlanIds(AllArtifacts(k, q, |k.groups|)) <==> id in Required(k, q.providers)
  {
    hide PlanArtifactOf, GroupIds, ValidContract;
    var n := |k.groups|;
    var all := AllArtifacts(k, q, n);
    AllArtifactsAre(k, q, n);
    if id in PlanIds(all) {
      var i :| 0 <= i < |all| && all[i].evidenceId == id;
      assert FromGroup(k, q, n, all[i]);
      var m :| 0 <= m < n && id in GroupIds(q.providers, k.groups[m]);
      GroupOfId(k, q.providers, k.groups[m], id);
    }
    if id in Required(k, q.providers) {
      var g := GroupExists(k, q.providers, id);
      var m :| 0 <= m < n && k.groups[m] == g;
    }
  }

  lemma AllArtifactsArePlan(k: Contract, q: Request)
    requires ValidContract(k) && NoDuplicates(q.providers) && Members(q.providers) <= Members(k.catalog)
    ensures ArePlanArtifacts(k, q, Sort(AllArtifacts(k, q, |k.groups|), ByEvidenceId))
  {
    hide PlanArtifactOf, GroupIds, ValidContract;
    var n := |k.groups|;
    var all := AllArtifacts(k, q, n);
    AllArtifactsDistinct(k, q, n);
    AllArtifactsAre(k, q, n);
    SortByEvidenceId(all);
    forall id { AllArtifactIds(k, q, id); }
    assert Members(PlanIds(all)) == Required(k, q.providers);
    forall a | a in Sort(all, ByEvidenceId)
      ensures exists g ::
                g in k.groups && a.evidenceId in GroupIds(q.providers, g) && a == PlanArtifactOf(k, q, g, a.evidenceId)
    {
      assert FromGroup(k, q, n, a);
      var m :| 0 <= m < n && a.evidenceId in GroupIds(q.providers, k.groups[m])
          && a == PlanArtifactOf(k, q, k.groups[m], a.evidenceId);
      assert k.groups[m] in k.groups;
    }
  }

  /** build_plan: nested loops over the groups and their evidence, then a sort by evidence id. */
  method BuildPlan(k: Contract, q: Request, requestSha: Digest) returns (r: Outcome<Plan>)
    requires ValidContract(k)
    ensures r.Accept? <==> RequestOk(k, q)
    ensures r.Accept? ==> IsPlan(k, q, requestSha, r.value)
  {
    if !RequestOk(k, q) { return Reject; }
    var runs, artifacts := PlanLoops(k, q);
    AllArtifactsArePlan(k, q);
    r := Accept(Plan(q.releaseCandidate, Source(q.source.commit, false), k.profileId, q.targetEnvironment,
                     q.onDeviceEnvironment, q.providers, requestSha, runs, Sort(artifacts, ByEvidenceId)));
  }

  method PlanLoops(k: Contract, q: Request) returns (runs: seq<PlanRun>, artifacts: seq<PlanArtifact>)
    ensures |runs| == |k.groups| && forall i | 0 <= i < |k.groups| :: runs[i] == PlanRunOf(q, k.groups[i])
    ensures artifacts == AllArtifacts(k, q, |k.groups|)
  {
    hide PlanArtifactOf, GroupIds, TextLeq;
    runs, artifacts := [], [];
    for i := 0 to |k.groups|
      invariant |runs| == i && forall j | 0 <= j < i :: runs[j] == PlanRunOf(q, k.groups[j])
      invariant artifacts == AllArtifacts(k, q, i)
    {
      var g := k.groups[i];
      var ids := GroupIds(q.providers, g);
      runs := runs + [PlanRun(g.name, RunIdOf(q, g), g.workflow, g.event, q.source.commit, Sort(ids, TextLeq))];
      ghost var before, entries := artifacts, GroupArtifacts(k, q, g);
      for j := 0 to |ids|
        invariant artifacts == before + entries[..j]
      {
        artifacts := artifacts + [PlanArtifactOf(k, q, g, ids[j])];
        assert entries[..j + 1] == entries[..j] + [entries[j]];
      }
      assert entries[..|ids|] == entries;
    }
  }
}

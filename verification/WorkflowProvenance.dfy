/** scripts/phase1_workflow_provenance.py, and its consumer in scripts/phase1_promotion_qualification.py:
    every workflow attempt and report artifact, authenticated and grouped by run. */
module WorkflowProvenance {
  import opened Primitives
  import opened LiveProviderPlan
  import opened Campaign
  import opened AssemblyPlan
  import opened GitHub

  datatype VerifiedRun = VerifiedRun(
    runId: int, attempt: int, workflow: string, headSha: string, updatedAt: Micros, ids: seq<string>)

  datatype VerifiedArtifact = VerifiedArtifact(evidenceId: string, runId: int, attempt: int, name: string,
                                               sha256: Digest)

  datatype Report = Report(
    schemaVersion: int, qualificationClass: Class, generatedAt: Micros, repository: string, releaseCandidate: string,
    source: Source, campaignSha: Digest, runCount: int, artifactCount: int, runs: seq<VerifiedRun>,
    artifacts: seq<VerifiedArtifact>, workflowsVerified: bool, bytesVerified: bool, productionClaim: bool)

  // ----- run keys ------------------------------------------------------------------------

  type Key = (int, int)

  predicate KeyLess(x: Key, y: Key) { x.0 < y.0 || (x.0 == y.0 && x.1 < y.1) }
  predicate KeyLeq(x: Key, y: Key) { !KeyLess(y, x) }

  function KeyOf(run: VerifiedRun): Key { (run.runId, run.attempt) }

  function KeysOf(runs: seq<VerifiedRun>): (keys: seq<Key>)
    ensures |keys| == |runs| && forall i | 0 <= i < |keys| :: keys[i] == KeyOf(runs[i])
  {
    seq(|runs|, i requires 0 <= i < |runs| => KeyOf(runs[i]))
  }

  /** The attempts that produced the campaign's artifacts. */
  function Attempts(artifacts: seq<Artifact>): set<Key> { set a | a in artifacts :: RunKey(a) }

  /** The evidence ids of one attempt, in campaign order. */
  function IdsOf(artifacts: seq<Artifact>, key: Key): seq<string> {
    if artifacts == [] then []
    else
      var n := |artifacts| - 1;
      IdsOf(artifacts[..n], key) + if RunKey(artifacts[n]) == key then [artifacts[n].evidenceId] else []
  }

  /** `run` is the one record of its attempt: it names the attempt's only workflow and completion
      time, and lists its evidence. */
  ghost predicate IsRunOf(run: VerifiedRun, artifacts: seq<Artifact>, commit: string) {
    && KeyOf(run) in Attempts(artifacts) && run.headSha == commit
    && (forall a | a in artifacts && RunKey(a) == KeyOf(run) ::
              a.workflowPath == run.workflow && a.completedAt == run.updatedAt)
    && run.ids == IdsOf(artifacts, KeyOf(run))
  }

  /** No attempt is reported with two workflows or two completion times. */
  ghost predicate Unmixed(artifacts: seq<Artifact>) {
    forall a, b | a in artifacts && b in artifacts && RunKey(a) == RunKey(b) ::
      a.workflowPath == b.workflowPath && a.completedAt == b.completedAt
  }

  /** The canonical run list of a campaign: one record per attempt, in key order. */
  ghost predicate IsRunList(runs: seq<VerifiedRun>, artifacts: seq<Artifact>, commit: string) {
    && AscendingBy(KeysOf(runs), KeyLess)
    && (forall key :: key in KeysOf(runs) <==> key in Attempts(artifacts))
    && (forall i | 0 <= i < |runs| :: IsRunOf(runs[i], artifacts, commit))
  }

  lemma KeyOrder()
    ensures StrictTotal(KeyLess) && TotalPreorder(KeyLeq)
  {
  }

  lemma RunDetermined(x: VerifiedRun, y: VerifiedRun, artifacts: seq<Artifact>, commit: string)
    requires IsRunOf(x, artifacts, commit) && IsRunOf(y, artifacts, commit) && KeyOf(x) == KeyOf(y)
    ensures x == y
  {
    var a :| a in artifacts && RunKey(a) == KeyOf(x);
  }

  /** A campaign has one canonical run list. */
  lemma RunListUnique(xs: seq<VerifiedRun>, ys: seq<VerifiedRun>, artifacts: seq<Artifact>, commit: string)
    requires IsRunList(xs, artifacts, commit) && IsRunList(ys, artifacts, commit)
    ensures xs == ys
  {
    hide IsRunOf, Attempts;
    KeyOrder();
    AscendingByUnique(KeysOf(xs), KeysOf(ys), KeyLess);
    assert |xs| == |KeysOf(xs)| == |KeysOf(ys)| == |ys|;
    forall i | 0 <= i < |xs| ensures xs[i] == ys[i] {
      assert KeysOf(xs)[i] == KeysOf(ys)[i];
      RunDetermined(xs[i], ys[i], artifacts, commit);
    }
  }

  lemma RunListIsUnmixed(runs: seq<VerifiedRun>, artifacts: seq<Artifact>, commit: string)
    requires IsRunList(runs, artifacts, commit)
    ensures Unmixed(artifacts)
  {
    forall a, b | a in artifacts && b in artifacts && RunKey(a) == RunKey(b)
      ensures a.workflowPath == b.workflowPath && a.completedAt == b.completedAt
    {
      assert RunKey(a) in Attempts(artifacts);
      var i :| 0 <= i < |runs| && KeysOf(runs)[i] == RunKey(a);
      assert IsRunOf(runs[i], artifacts, commit);
    }
  }

  ghost function RunFor(artifacts: seq<Artifact>, key: Key, commit: string): VerifiedRun
    requires key in Attempts(artifacts)
  {
    var a :| a in artifacts && RunKey(a) == key;
    VerifiedRun(key.0, key.1, a.workflowPath, commit, a.completedAt, IdsOf(artifacts, key))
  }

  lemma SortedKeySet(keys: set<Key>) returns (s: seq<Key>)
    ensures AscendingBy(s, KeyLess) && forall key :: key in s <==> key in keys
  {
    var listed := Listed(keys);
    s := Sort(listed, KeyLeq);
    KeyOrder();
    SortOrders(listed, KeyLeq);
    SortPermutes(listed, KeyLeq);
    PermutationFacts(s, listed);
    PermutationKeepsDistinct(listed, s);
    forall i, j | 0 <= i < j < |s| ensures KeyLess(s[i], s[j]) { assert KeyLeq(s[i], s[j]) && s[i] != s[j]; }
  }

  /** A campaign that mixes no attempt has a run list. */
  lemma RunListExists(artifacts: seq<Artifact>, commit: string) returns (runs: seq<VerifiedRun>)
    requires Unmixed(artifacts)
    ensures IsRunList(runs, artifacts, commit)
  {
    hide IdsOf;
    var keys := SortedKeySet(Attempts(artifacts));
    assert forall i | 0 <= i < |keys| :: keys[i] in Attempts(artifacts);
    runs := seq(|keys|, i requires 0 <= i < |keys| => RunFor(artifacts, keys[i], commit));
    forall i | 0 <= i < |runs| ensures IsRunOf(runs[i], artifacts, commit) && KeyOf(runs[i]) == keys[i] { }
    assert KeysOf(runs) == keys;
  }

  // ----- grouping ------------------------------------------------------------------------

  ghost predicate IsGrouping(grouped: map<Key, VerifiedRun>, artifacts: seq<Artifact>, commit: string) {
    && grouped.Keys == Attempts(artifacts)
    && forall key | key in grouped :: KeyOf(grouped[key]) == key && IsRunOf(grouped[key], artifacts, commit)
  }

  /** What the loop does with one record: open its run or check and extend it. */
  function Extend(grouped: map<Key, VerifiedRun>, a: Artifact, commit: string): VerifiedRun {
    var run := if RunKey(a) in grouped then grouped[RunKey(a)]
               else VerifiedRun(a.runId, a.runAttempt, a.workflowPath, commit, a.completedAt, []);
    run.(ids := run.ids + [a.evidenceId])
  }

  predicate Mixes(grouped: map<Key, VerifiedRun>, a: Artifact) {
    RunKey(a) in grouped &&
    (grouped[RunKey(a)].workflow != a.workflowPath || grouped[RunKey(a)].updatedAt != a.completedAt)
  }

  lemma {:induction false} IdsOfNewAttempt(artifacts: seq<Artifact>, key: Key)
    requires key !in Attempts(artifacts)
    ensures IdsOf(artifacts, key) == []
  {
    if artifacts != [] {
      var n := |artifacts| - 1;
      assert artifacts[n] in artifacts;
      forall a | a in artifacts[..n] ensures RunKey(a) != key { assert a in artifacts; }
      IdsOfNewAttempt(artifacts[..n], key);
    }
  }

  lemma GroupStep(grouped: map<Key, VerifiedRun>, artifacts: seq<Artifact>, i: nat, commit: string)
    requires i < |artifacts| && IsGrouping(grouped, artifacts[..i], commit)
    ensures !Mixes(grouped, artifacts[i]) ==>
              IsGrouping(grouped[RunKey(artifacts[i]) := Extend(grouped, artifacts[i], commit)], artifacts[..i + 1],
                         commit)
    ensures Mixes(grouped, artifacts[i]) ==> !Unmixed(artifacts)
  {
    hide IsRunOf;
    var a, before := artifacts[i], artifacts[..i];
    var key := RunKey(a);
    assert artifacts[..i + 1] == before + [a];
    if Mixes(grouped, a) {
      MixedAttempt(grouped[key], before, a, commit);
      assert a in artifacts && forall b | b in before :: b in artifacts;
    } else {
      var grouped' := grouped[key := Extend(grouped, a, commit)];
      assert Attempts(before + [a]) == Attempts(before) + {key} by { AttemptsGrow(before, a); }
      forall j | j in grouped' ensures KeyOf(grouped'[j]) == j && IsRunOf(grouped'[j], before + [a], commit) {
        if j == key {
          AttemptExtended(grouped, before, a, commit);
        } else {
          OtherAttempt(grouped[j], before, a, commit);
        }
      }
    }
  }

  lemma AttemptsGrow(before: seq<Artifact>, a: Artifact)
    ensures Attempts(before + [a]) == Attempts(before) + {RunKey(a)}
  {
    forall key ensures key in Attempts(before + [a]) <==> key in Attempts(before) + {RunKey(a)} {
      if key in Attempts(before) {
        var b :| b in before && RunKey(b) == key;
        assert b in before + [a];
      }
      if key == RunKey(a) { assert a in before + [a]; }
    }
  }

  lemma MixedAttempt(run: VerifiedRun, before: seq<Artifact>, a: Artifact, commit: string)
    requires IsRunOf(run, before, commit) && KeyOf(run) == RunKey(a)
        && (run.workflow != a.workflowPath || run.updatedAt != a.completedAt)
    ensures exists b ::
              b in before && RunKey(b) == RunKey(a)
                  && !(a.workflowPath == b.workflowPath && a.completedAt == b.completedAt)
  {
    var b :| b in before && RunKey(b) == KeyOf(run);
  }

  lemma OtherAttempt(run: VerifiedRun, before: seq<Artifact>, a: Artifact, commit: string)
    requires IsRunOf(run, before, commit) && KeyOf(run) != RunKey(a)
    ensures IsRunOf(run, before + [a], commit)
  {
    assert (before + [a])[..|before|] == before;
    AttemptsGrow(before, a);
  }

  lemma AttemptExtended(grouped: map<Key, VerifiedRun>, before: seq<Artifact>, a: Artifact, commit: string)
    requires IsGrouping(grouped, before, commit) && !Mixes(grouped, a)
    ensures KeyOf(Extend(grouped, a, commit)) == RunKey(a) && IsRunOf(Extend(grouped, a, commit), before + [a], commit)
  {
    assert (before + [a])[..|before|] == before;
    AttemptsGrow(before, a);
    var key := RunKey(a);
    if key !in grouped {
      IdsOfNewAttempt(before, key);
      forall b | b in before ensures RunKey(b) != key { assert RunKey(b) in Attempts(before); }
    }
  }

  /** The grouping loop of producer and consumer, over the records in id order. */
  method GroupRuns(records: map<string, Artifact>, commit: string, ghost artifacts: seq<Artifact>)
    returns (r: Outcome<map<Key, VerifiedRun>>, ids: seq<string>)
    requires Ascending(Ids(artifacts)) && records == Records(artifacts)
    ensures ids == Ids(artifacts)
    ensures r.Accept? <==> Unmixed(artifacts)
    ensures r.Accept? ==> IsGrouping(r.value, artifacts, commit)
  {
    hide IsGrouping, TextLeq, Mixes, Extend;
    ids := SortedKeys(records, artifacts);
    AscendingIffSortedDistinct(ids);
    var grouped: map<Key, VerifiedRun> := map[];
    assert IsGrouping(grouped, artifacts[..0], commit) by { EmptyGrouping(commit); assert artifacts[..0] == []; }
    for i := 0 to |ids|
      invariant IsGrouping(grouped, artifacts[..i], commit)
    {
      RecordsLookup(artifacts, i);
      var record := records[ids[i]];
      GroupStep(grouped, artifacts, i, commit);
      if Mixes(grouped, record) { return Reject, ids; }
      grouped := grouped[RunKey(record) := Extend(grouped, record, commit)];
    }
    assert artifacts[..|ids|] == artifacts;
    GroupingIsUnmixed(grouped, artifacts, commit);
    r := Accept(grouped);
  }

  lemma EmptyGrouping(commit: string)
    ensures IsGrouping(map[], [], commit)
  {
  }

  lemma GroupingIsUnmixed(grouped: map<Key, VerifiedRun>, artifacts: seq<Artifact>, commit: string)
    requires IsGrouping(grouped, artifacts, commit)
    ensures Unmixed(artifacts)
  {
    hide IdsOf;
    forall a, b | a in artifacts && b in artifacts && RunKey(a) == RunKey(b)
      ensures a.workflowPath == b.workflowPath && a.completedAt == b.completedAt
    {
      assert RunKey(a) in Attempts(artifacts);
      assert IsRunOf(grouped[RunKey(a)], artifacts, commit);
    }
  }

  /** sorted(records): the ids in the order of the campaign. */
  method SortedKeys(records: map<string, Artifact>, ghost artifacts: seq<Artifact>) returns (ids: seq<string>)
    requires Ascending(Ids(artifacts)) && records == Records(artifacts)
    ensures ids == Ids(artifacts)
  {
    hide TextLeq;
    var keys := Elements(records.Keys);
    SortedDistinctIsAscending(keys);
    ids := Sort(keys, TextLeq);
    forall x ensures x in ids <==> x in Ids(artifacts) {
      assert x in records.Keys <==> x in Members(Ids(artifacts));
    }
    AscendingUnique(ids, Ids(artifacts));
  }

  method SortedAttempts(grouped: map<Key, VerifiedRun>) returns (keys: seq<Key>)
    ensures AscendingBy(keys, KeyLess) && forall key :: key in keys <==> key in grouped
  {
    var distinct := Elements(grouped.Keys);
    keys := Sort(distinct, KeyLeq);
    KeyOrder();
    SortOrders(distinct, KeyLeq);
    SortPermutes(distinct, KeyLeq);
    PermutationFacts(keys, distinct);
    PermutationKeepsDistinct(distinct, keys);
    forall i, j | 0 <= i < j < |keys| ensures KeyLess(keys[i], keys[j]) {
      assert KeyLeq(keys[i], keys[j]) && keys[i] != keys[j];
    }
  }

  lemma {:induction false} IdsOfAscending(artifacts: seq<Artifact>, key: Key)
    requires Ascending(Ids(artifacts))
    ensures Ascending(IdsOf(artifacts, key))
    ensures forall x :: x in IdsOf(artifacts, key) <==>
              exists a :: a in artifacts && RunKey(a) == key && a.evidenceId == x
    ensures |IdsOf(artifacts, key)| <= |artifacts|
  {
    if artifacts != [] {
      var n := |artifacts| - 1;
      var a := artifacts[n];
      var before := artifacts[..n];
      assert artifacts == before + [a];
      assert Ids(before) == Ids(artifacts)[..n];
      IdsOfAscending(before, key);
      var ids := IdsOf(before, key);
      forall i | 0 <= i < |ids| ensures TextLess(ids[i], a.evidenceId) {
        assert ids[i] in ids;
        var b :| b in before && RunKey(b) == key && b.evidenceId == ids[i];
        var j :| 0 <= j < n && before[j] == b;
        assert Ids(artifacts)[j] == ids[i] && Ids(artifacts)[n] == a.evidenceId;
      }
    }
  }

  // ----- the producer --------------------------------------------------------------------

  predicate AttemptOk(m: RunMetadata, run: VerifiedRun, repository: string) {
    && m.id > 0 && m.id == run.runId && m.attempt > 0 && m.attempt == run.attempt
    && SafeWorkflowPath(m.path) == Accept(run.workflow)
    && m.headSha == run.headSha && Succeeded(m, repository) && m.updatedAt == run.updatedAt
  }

  /** What the verifier is given besides the campaign. */
  datatype Inputs = Inputs(
    repository: string, linuxRunId: int, metadata: map<Key, RunMetadata>,
    downloads: map<string, map<string, Bytes>>, evidence: map<string, Bytes>)

  predicate BytesHeld(a: Artifact, inp: Inputs) {
    var subdir := Subdir(a.evidenceId);
    && subdir in inp.downloads && a.path in inp.downloads[subdir] && a.path in inp.evidence
    && Sha256(inp.downloads[subdir][a.path]) == a.sha256 && Sha256(inp.evidence[a.path]) == a.sha256
  }

  function VerifiedArtifactOf(k: Contract, a: Artifact, d: Dispatch): VerifiedArtifact {
    var name := match EvidenceSpec(k, a.evidenceId)
                case Some(spec) => ArtifactName(spec, d.releaseCandidate, d.commit)
                case None => "";
    VerifiedArtifact(a.evidenceId, a.runId, a.runAttempt, name, a.sha256)
  }

  /** The inputs verify_provenance accepts for a campaign it has parsed. */
  ghost predicate CanVerify(c: Manifest, d: Dispatch, inp: Inputs) {
    && IsRepository(inp.repository)
    && inp.linuxRunId > 0 && LINUX_ID in Records(c.artifacts) && Records(c.artifacts)[LINUX_ID].runId == inp.linuxRunId
    && Unmixed(c.artifacts)
    && inp.metadata.Keys == Attempts(c.artifacts)
    && AttemptsVerified(c, d, inp)
    && inp.downloads.Keys == (set a | a in c.artifacts :: Subdir(a.evidenceId))
    && (forall a | a in c.artifacts :: BytesHeld(a, inp))
  }

  /** GitHub's record of every attempt agrees with the campaign. */
  ghost predicate AttemptsVerified(c: Manifest, d: Dispatch, inp: Inputs) {
    forall run | IsRunOf(run, c.artifacts, d.commit) ::
      KeyOf(run) in inp.metadata && AttemptOk(inp.metadata[KeyOf(run)], run, inp.repository)
  }

  ghost predicate IsReport(k: Contract, campaign: File<Manifest>, d: Dispatch, repository: string, now: Micros,
                           r: Report) {
    var artifacts := campaign.value.artifacts;
    && r == Report(SCHEMA_VERSION, WorkflowProvenanceClass, now, repository, d.releaseCandidate,
                   Source(d.commit, false),
                   campaign.Sha(), |r.runs|, |artifacts|, r.runs, r.artifacts, true, true, false)
    && IsRunList(r.runs, artifacts, d.commit)
    && |r.artifacts| == |artifacts|
    && (forall i | 0 <= i < |artifacts| :: r.artifacts[i] == VerifiedArtifactOf(k, artifacts[i], d))
  }

  /** Checks every attempt against the metadata GitHub returned, in key order. */
  method VerifyAttempts(grouped: map<Key, VerifiedRun>, inp: Inputs, commit: string, ghost artifacts: seq<Artifact>)
    returns (ok: bool, runs: seq<VerifiedRun>)
    requires Ascending(Ids(artifacts)) && IsGrouping(grouped, artifacts, commit) && inp.metadata.Keys == grouped.Keys
    ensures ok <==> forall key | key in grouped :: AttemptOk(inp.metadata[key], grouped[key], inp.repository)
    ensures ok ==> IsRunList(runs, artifacts, commit)
  {
    hide AttemptOk, IsRunOf, TextLeq;
    var keys := SortedAttempts(grouped);
    ok, runs := true, [];
    for i := 0 to |keys|
      invariant |runs| == i && forall j | 0 <= j < i :: keys[j] in grouped && runs[j] == grouped[keys[j]]
      invariant forall j | 0 <= j < i :: AttemptOk(inp.metadata[keys[j]], grouped[keys[j]], inp.repository)
    {
      assert keys[i] in grouped;
      var run := grouped[keys[i]];
      RunIds(run, artifacts, commit);
      if !AttemptOk(inp.metadata[keys[i]], run, inp.repository) { return false, runs; }
      runs := runs + [run.(ids := Sort(run.ids, TextLeq))];
    }
    assert KeysOf(runs) == keys;
  }

  lemma RunIds(run: VerifiedRun, artifacts: seq<Artifact>, commit: string)
    requires Ascending(Ids(artifacts)) && IsRunOf(run, artifacts, commit)
    ensures Sort(run.ids, TextLeq) == run.ids
  {
    IdsOfAscending(artifacts, KeyOf(run));
    SortedIsFixpoint(run.ids);
  }

  method VerifyBytes(k: Contract, artifacts: seq<Artifact>, d: Dispatch, held: Artifact -> bool)
    returns (ok: bool, verified: seq<VerifiedArtifact>)
    ensures ok <==> forall a | a in artifacts :: held(a)
    ensures ok ==> |verified| == |artifacts| && forall i | 0 <= i < |artifacts| ::
        verified[i] == VerifiedArtifactOf(k, artifacts[i], d)
  {
    hide VerifiedArtifactOf;
    ok, verified := true, [];
    for i := 0 to |artifacts|
      invariant |verified| == i && forall j | 0 <= j < i :: verified[j] == VerifiedArtifactOf(k, artifacts[j], d)
      invariant forall j | 0 <= j < i :: held(artifacts[j])
    {
      if !held(artifacts[i]) { return false, verified; }
      verified := verified + [VerifiedArtifactOf(k, artifacts[i], d)];
    }
  }

  lemma GroupingCoversRuns(grouped: map<Key, VerifiedRun>, c: Manifest, d: Dispatch, inp: Inputs)
    requires IsGrouping(grouped, c.artifacts, d.commit) && inp.metadata.Keys == grouped.Keys
    ensures (forall key | key in grouped :: AttemptOk(inp.metadata[key], grouped[key], inp.repository)) <==>
            AttemptsVerified(c, d, inp)
  {
    hide AttemptOk, IsRunOf;
    forall run | IsRunOf(run, c.artifacts, d.commit) ensures KeyOf(run) in grouped && grouped[KeyOf(run)] == run {
      RunKeyKnown(run, c.artifacts, d.commit);
      RunDetermined(run, grouped[KeyOf(run)], c.artifacts, d.commit);
    }
  }

  lemma RunKeyKnown(run: VerifiedRun, artifacts: seq<Artifact>, commit: string)
    requires IsRunOf(run, artifacts, commit)
    ensures KeyOf(run) in Attempts(artifacts)
  {
  }

  /** Attempts, then bytes, once the runs are grouped. */
  method VerifyGrouped(k: Contract, c: Manifest, d: Dispatch, inp: Inputs, grouped: map<Key, VerifiedRun>)
    returns (ok: bool, runs: seq<VerifiedRun>, artifacts: seq<VerifiedArtifact>)
    requires Ascending(Ids(c.artifacts)) && IsGrouping(grouped, c.artifacts, d.commit)
    ensures ok <==>
              && inp.metadata.Keys == Attempts(c.artifacts) && AttemptsVerified(c, d, inp)
              && inp.downloads.Keys == (set a | a in c.artifacts :: Subdir(a.evidenceId))
              && (forall a | a in c.artifacts :: BytesHeld(a, inp))
    ensures ok ==> IsRunList(runs, c.artifacts, d.commit)
    ensures ok ==> |artifacts| == |c.artifacts| && forall i | 0 <= i < |artifacts| ::
        artifacts[i] == VerifiedArtifactOf(k, c.artifacts[i], d)
  {
    hide IsGrouping, BytesHeld, VerifiedArtifactOf, IsRunList, Subdir, AttemptOk, Attempts, Ids, Ascending;
    hide AttemptsVerified;
    ok, runs, artifacts := false, [], [];
    GroupingKeys(grouped, c.artifacts, d.commit);
    if inp.metadata.Keys != grouped.Keys { return; }
    GroupingCoversRuns(grouped, c, d, inp);
    ok, runs := VerifyAttempts(grouped, inp, d.commit, c.artifacts);
    if !ok { return; }
    if inp.downloads.Keys != (set a | a in c.artifacts :: Subdir(a.evidenceId)) { return false, runs, artifacts; }
    ok, artifacts := VerifyBytes(k, c.artifacts, d, a => BytesHeld(a, inp));
  }

  method VerifyProvenance(k: Contract, campaign: File<Manifest>, d: Dispatch, inp: Inputs, now: Micros)
    returns (r: Outcome<Report>)
    requires NamedIds(k)
    ensures r.Accept? <==> CampaignOk(k, campaign.value, d, now) && CanVerify(campaign.value, d, inp)
    ensures r.Accept? ==> IsReport(k, campaign, d, inp.repository, now, r.value)
  {
    hide CampaignOk, IsGrouping, Unmixed, BytesHeld, VerifiedArtifactOf, IsRunList, Subdir, Attempts, IsRepository;
    hide Records, Ids, Ascending, CompletionTimes, NamedIds, LINUX_ID, AttemptsVerified, ArtifactOk;
    if !IsRepository(inp.repository) { return Reject; }
    var c := campaign.value;
    var parsed :- ParseCampaign(k, c, d, now);
    var records := parsed.records;
    if inp.linuxRunId <= 0 || LINUX_ID !in records || records[LINUX_ID].runId != inp.linuxRunId { return Reject; }
    CampaignAscends(k, c, d, now);
    var grouping, ids := GroupRuns(records, d.commit, c.artifacts);
    if grouping.Reject? { return Reject; }
    var ok, runs, artifacts := VerifyGrouped(k, c, d, inp, grouping.value);
    if !ok { return Reject; }
    r := Accept(Report(SCHEMA_VERSION, WorkflowProvenanceClass, now, inp.repository, d.releaseCandidate,
                       Source(d.commit, false), campaign.Sha(), |runs|, |artifacts|, runs, artifacts, true, true,
                       false));
  }

  lemma GroupingKeys(grouped: map<Key, VerifiedRun>, artifacts: seq<Artifact>, commit: string)
    requires IsGrouping(grouped, artifacts, commit)
    ensures grouped.Keys == Attempts(artifacts)
  {
  }

  lemma CampaignAscends(k: Contract, c: Manifest, d: Dispatch, now: Micros)
    requires CampaignOk(k, c, d, now)
    ensures Ascending(Ids(c.artifacts)) && c.artifacts != [] && |c.artifacts| <= MAX_ARTIFACTS
    ensures forall a | a in c.artifacts :: ArtifactOk(k, a, d, now)
  {
    hide Required, EvidenceSpec, IsIdentifier;
  }
}

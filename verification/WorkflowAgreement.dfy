/** The consumer of workflow provenance, and its agreement with the producer. */
module WorkflowAgreement {
  import opened Primitives
  import opened LiveProviderPlan
  import opened Campaign
  import opened WorkflowProvenance
  import opened AssemblyPlan

  /** The field rules an accepted campaign entry meets, as far as the consumer re-applies them. */
  predicate PlainEntry(a: Artifact) {
    a.runId > 0 && a.runAttempt > 0 && IsIdentifier(a.evidenceId) && a.sha256.Sha256?
  }

  predicate HeaderBinds(r: Report, campaignSha: Digest, d: Dispatch, now: Micros) {
    && r.schemaVersion == SCHEMA_VERSION && r.qualificationClass == WorkflowProvenanceClass
    && r.releaseCandidate == d.releaseCandidate && r.source == Source(d.commit, false)
    && IsIdentifier(r.repository) && r.campaignSha == campaignSha
    && r.workflowsVerified && r.bytesVerified && !r.productionClaim
    && r.generatedAt <= now + CLOCK_SKEW
  }

  predicate EntryMatches(v: VerifiedArtifact, a: Artifact) {
    && v.evidenceId == a.evidenceId && v.runId == a.runId && v.attempt == a.runAttempt && v.sha256 == a.sha256
    && IsIdentifier(v.name)
  }

  /** The reports the promotion stage accepts for a campaign with these artifacts. */
  ghost predicate ProvenanceOk(r: Report, campaignSha: Digest, d: Dispatch, artifacts: seq<Artifact>, now: Micros) {
    && HeaderBinds(r, campaignSha, d, now)
    && (forall a | a in artifacts :: a.completedAt <= r.generatedAt)
    && IsRunList(r.runs, artifacts, d.commit) && r.runCount == |r.runs|
    && EntriesMatch(r.artifacts, artifacts) && r.artifactCount == |artifacts|
  }

  predicate EntriesMatch(vs: seq<VerifiedArtifact>, artifacts: seq<Artifact>) {
    |vs| == |artifacts| && forall i | 0 <= i < |artifacts| :: EntryMatches(vs[i], artifacts[i])
  }

  predicate RunFieldsOk(run: VerifiedRun) {
    && run.runId > 0 && run.attempt > 0 && 1 <= |run.ids| <= MAX_ARTIFACTS
    && forall i | 0 <= i < |run.ids| :: IsIdentifier(run.ids[i])
  }

  lemma RunFieldsFollow(run: VerifiedRun, artifacts: seq<Artifact>, commit: string)
    requires Ascending(Ids(artifacts)) && |artifacts| <= MAX_ARTIFACTS && forall a | a in artifacts :: PlainEntry(a)
    requires IsRunOf(run, artifacts, commit)
    ensures RunFieldsOk(run)
  {
    hide IsIdentifier, IdsOf;
    IdsOfAscending(artifacts, KeyOf(run));
    var a :| a in artifacts && RunKey(a) == KeyOf(run);
    assert a.evidenceId in run.ids;
    forall i | 0 <= i < |run.ids| ensures IsIdentifier(run.ids[i]) {
      assert run.ids[i] in run.ids;
      var b :| b in artifacts && RunKey(b) == KeyOf(run) && b.evidenceId == run.ids[i];
      assert PlainEntry(b);
    }
  }

  method CheckRuns(runs: seq<VerifiedRun>, expected: map<Key, VerifiedRun>, commit: string,
                   ghost artifacts: seq<Artifact>)
    returns (ok: bool)
    requires Ascending(Ids(artifacts)) && |artifacts| <= MAX_ARTIFACTS && forall a | a in artifacts :: PlainEntry(a)
    requires IsGrouping(expected, artifacts, commit)
    ensures ok <==> IsRunList(runs, artifacts, commit)
  {
    hide IsRunOf, RunFieldsOk, PlainEntry, IdsOf;
    var keys := SortedAttempts(expected);
    assert forall i | 0 <= i < |keys| :: keys[i] in expected;
    ghost var canonical := seq(|keys|, i requires 0 <= i < |keys| && keys[i] in expected => expected[keys[i]]);
    CanonicalRuns(expected, keys, canonical, artifacts, commit);
    for i := 0 to |runs|
      invariant forall j | 0 <= j < i :: KeyOf(runs[j]) in expected && runs[j] == expected[KeyOf(runs[j])]
    {
      var run := runs[i];
      if !RunFieldsOk(run) || KeyOf(run) !in expected || run != expected[KeyOf(run)] {
        if IsRunList(runs, artifacts, commit) {
          RunListUnique(runs, canonical, artifacts, commit);
          assert keys[i] in expected;
          RunFieldsFollow(run, artifacts, commit);
        }
        return false;
      }
    }
    ok := KeysOf(runs) == keys;
    if ok { assert runs == canonical; }
    if IsRunList(runs, artifacts, commit) {
      RunListUnique(runs, canonical, artifacts, commit);
      assert KeysOf(runs) == keys;
    }
  }

  lemma CanonicalRuns(expected: map<Key, VerifiedRun>, keys: seq<Key>, canonical: seq<VerifiedRun>,
                      artifacts: seq<Artifact>, commit: string)
    requires IsGrouping(expected, artifacts, commit)
    requires AscendingBy(keys, KeyLess) && forall key :: key in keys <==> key in expected
    requires |canonical| == |keys|
    requires forall i | 0 <= i < |keys| :: keys[i] in expected && canonical[i] == expected[keys[i]]
    ensures IsRunList(canonical, artifacts, commit) && KeysOf(canonical) == keys
  {
    hide IsRunOf;
    assert KeysOf(canonical) == keys;
  }

  method CheckEntries(vs: seq<VerifiedArtifact>, records: map<string, Artifact>, ids: seq<string>,
                      ghost artifacts: seq<Artifact>)
    returns (ok: bool)
    requires Ascending(Ids(artifacts)) && records == Records(artifacts) && ids == Ids(artifacts)
    requires forall a | a in artifacts :: PlainEntry(a)
    ensures ok <==> EntriesMatch(vs, artifacts)
  {
    hide EntryMatches, Records, Ascending;
    if |vs| != |ids| { return false; }
    AscendingIffSortedDistinct(ids);
    for i := 0 to |ids|
      invariant forall j | 0 <= j < i :: EntryMatches(vs[j], artifacts[j])
    {
      RecordsLookup(artifacts, i);
      if !EntryMatches(vs[i], records[ids[i]]) { return false; }
    }
    ok := true;
  }

  method ParseWorkflowProvenance(r: Report, campaignSha: Digest, d: Dispatch, parsed: Parsed, now: Micros,
                                 ghost artifacts: seq<Artifact>)
    returns (ok: bool)
    requires parsed == Parsed(Records(artifacts), CompletionTimes(artifacts)) && artifacts != []
    requires Ascending(Ids(artifacts)) && |artifacts| <= MAX_ARTIFACTS && forall a | a in artifacts :: PlainEntry(a)
    ensures ok <==> ProvenanceOk(r, campaignSha, d, artifacts, now)
  {
    hide HeaderBinds, IsRunList, EntriesMatch, IsGrouping, Unmixed, PlainEntry;
    if !HeaderBinds(r, campaignSha, d, now) { return false; }
    var latest := Max(parsed.completionTimes);
    LatestBounds(artifacts, latest, r.generatedAt);
    if r.generatedAt < latest { return false; }
    var grouping, ids := GroupRuns(parsed.records, d.commit, artifacts);
    if grouping.Reject? {
      if IsRunList(r.runs, artifacts, d.commit) { RunListIsUnmixed(r.runs, artifacts, d.commit); }
      return false;
    }
    var runsOk := CheckRuns(r.runs, grouping.value, d.commit, artifacts);
    if !runsOk || r.runCount != |r.runs| { return false; }
    var entriesOk := CheckEntries(r.artifacts, parsed.records, ids, artifacts);
    ok := entriesOk && r.artifactCount == |ids|;
  }

  /** max(completion_times) is what "not before any artifact" compares with. */
  lemma LatestBounds(artifacts: seq<Artifact>, latest: Micros, t: Micros)
    requires IsMax(latest, CompletionTimes(artifacts))
    ensures latest <= t <==> forall a | a in artifacts :: a.completedAt <= t
  {
    var times := CompletionTimes(artifacts);
    var i :| 0 <= i < |times| && times[i] == latest;
    assert artifacts[i] in artifacts;
    forall a | a in artifacts ensures a.completedAt <= latest {
      var j :| 0 <= j < |artifacts| && artifacts[j] == a;
      assert times[j] == a.completedAt;
    }
  }

  // ----- agreement -----------------------------------------------------------------------

  function NameOf(k: Contract, d: Dispatch, a: Artifact): string { VerifiedArtifactOf(k, a, d).name }

  /** An artifact name is an identifier exactly when it is short enough. */
  lemma NameIsIdentifier(k: Contract, d: Dispatch, a: Artifact)
    requires ValidContract(k) && IsReleaseCandidate(d.releaseCandidate) && IsCommit(d.commit)
    requires EvidenceSpec(k, a.evidenceId).Some?
    ensures IsIdentifier(NameOf(k, d, a)) <==> |NameOf(k, d, a)| <= MAX_IDENTIFIER
  {
    hide FilesOk, GroupsOk, StageIds, NamedIds, IsReleaseCandidate, ProviderFile;
    ReleaseCandidateChars(d.releaseCandidate);
    if a.evidenceId !in k.base {
      ProviderNameChars(ProviderOf(a.evidenceId));
    }
  }

  lemma ProviderNameChars(p: string)
    requires IsProviderName(p)
    ensures IsNamePrefix("provider-" + p)
  {
    var name := "provider-" + p;
    forall i | 0 <= i < |name| ensures IsIdChar(name[i]) {
      if i < 9 { assert name[i] == "provider-"[i]; } else { assert name[i] == p[i - 9]; }
    }
  }

  /** Producer and consumer agree: the report verify_provenance writes at clock `now` is accepted by
      the promotion stage at any later clock, for the same campaign, exactly when the clock had
      passed every completion and the repository and artifact names fit an identifier. */
  lemma ProducerConsumerAgree(k: Contract, campaign: File<Manifest>, d: Dispatch, repository: string,
                              now: Micros, later: Micros, r: Report)
    requires ValidContract(k) && IsReleaseCandidate(d.releaseCandidate) && IsCommit(d.commit)
    requires CampaignOk(k, campaign.value, d, now) && now <= later
    requires IsRepository(repository) && IsReport(k, campaign, d, repository, now, r)
    ensures ProvenanceOk(r, campaign.Sha(), d, campaign.value.artifacts, later) <==>
              && |repository| <= MAX_IDENTIFIER
              && (forall a | a in campaign.value.artifacts :: a.completedAt <= now)
              && (forall a | a in campaign.value.artifacts :: |NameOf(k, d, a)| <= MAX_IDENTIFIER)
  {
    hide ValidContract, IsReleaseCandidate, IsCommit, IsRunList, IsRepository, EvidenceSpec, ArtifactName, IsIdentifier;
    RepositoryIsIdentifier(repository);
    var artifacts := campaign.value.artifacts;
    CampaignAscends(k, campaign.value, d, now);
    forall i | 0 <= i < |artifacts|
      ensures EntryMatches(r.artifacts[i], artifacts[i]) <==> |NameOf(k, d, artifacts[i])| <= MAX_IDENTIFIER
    {
      assert ArtifactOk(k, artifacts[i], d, now);
      NameIsIdentifier(k, d, artifacts[i]);
    }
    forall a | a in artifacts && EntriesMatch(r.artifacts, artifacts) ensures |NameOf(k, d, a)| <= MAX_IDENTIFIER {
      var i :| 0 <= i < |artifacts| && artifacts[i] == a;
      assert EntryMatches(r.artifacts[i], artifacts[i]);
    }
    if forall a | a in artifacts :: |NameOf(k, d, a)| <= MAX_IDENTIFIER {
      assert forall i | 0 <= i < |artifacts| :: artifacts[i] in artifacts;
      assert EntriesMatch(r.artifacts, artifacts);
    }
  }

  /** Two accepted reports for one campaign list the same runs, groups and digests. */
  lemma AcceptedReportsCoincide(r: Report, s: Report, campaignSha: Digest, d: Dispatch, artifacts: seq<Artifact>,
                                now: Micros)
    requires ProvenanceOk(r, campaignSha, d, artifacts, now) && ProvenanceOk(s, campaignSha, d, artifacts, now)
    ensures r.runs == s.runs && |r.artifacts| == |s.artifacts|
    ensures forall i | 0 <= i < |r.artifacts| :: r.artifacts[i] == s.artifacts[i].(name := r.artifacts[i].name)
  {
    hide IsRunList, IsIdentifier;
    RunListUnique(r.runs, s.runs, artifacts, d.commit);
    forall i | 0 <= i < |r.artifacts| ensures r.artifacts[i] == s.artifacts[i].(name := r.artifacts[i].name) {
      assert EntryMatches(r.artifacts[i], artifacts[i]) && EntryMatches(s.artifacts[i], artifacts[i]);
    }
  }
}

/** benchmarks/src/bin/coding-comparison.rs: repeated attempts in one workspace, and the comparison of strategies. */
module CodingComparison {
  import opened Primitives

  type Files = map<string, string>

  /** `expected` is the digest of the text the edit replaces. */
  datatype Edit = Edit(path: string, expected: Digest, replacement: string)

  datatype Proposal = Proposal(edits: seq<Edit>)

  datatype Task = Task(editable: seq<string>, snapshot: Files, maxBranches: nat)

  /** Everything outside the loop: the model's answers, the tests' exit codes, what the tests leave
      behind in the workspace, and the digest of a text. */
  datatype Oracle = Oracle(
    respond: nat -> Outcome<Proposal>, tokens: nat -> nat, exitCode: (nat, Files) -> int, effect: (nat, Files) -> Files,
    digest: string -> Digest)

  predicate TaskOk(t: Task) { forall path | path in t.editable :: path in t.snapshot }

  /** What Proposal::validate demands: edits of distinct editable files, each against the captured text. */
  predicate ProposalOk(p: Proposal, t: Task, digest: string -> Digest) {
    && 0 < |p.edits| <= |t.editable|
    && (forall i | 0 <= i < |p.edits| ::
          && p.edits[i].path in t.snapshot && p.edits[i].path in t.editable
          && p.edits[i].expected == digest(t.snapshot[p.edits[i].path])
              && p.edits[i].replacement != t.snapshot[p.edits[i].path])
    && (forall i, j | 0 <= i < j < |p.edits| :: p.edits[i].path != p.edits[j].path)
  }

  /** Captured files outside the editable set are untouched. */
  predicate Protected(files: Files, t: Task) {
    forall path | path in t.snapshot && path !in t.editable :: path in files && files[path] == t.snapshot[path]
  }

  /** The first `n` editable files put back. */
  function ResetFiles(files: Files, t: Task, n: nat): Files
    requires TaskOk(t) && n <= |t.editable|
  {
    if n == 0 then files else ResetFiles(files, t, n - 1)[t.editable[n - 1] := t.snapshot[t.editable[n - 1]]]
  }

  function ApplyEdits(files: Files, edits: seq<Edit>): Files {
    if edits == [] then files
    else var n := |edits| - 1; ApplyEdits(files, edits[..n])[edits[n].path := edits[n].replacement]
  }

  /** One attempt: the workspace its tests start in, its proposal and the tests' exit code. */
  datatype Attempt = Attempt(start: Files, proposal: Proposal, exitCode: int)

  /** The attempts from number `i` on, in a workspace holding `files`. */
  function Attempts(t: Task, o: Oracle, i: nat, files: Files): Outcome<seq<Attempt>>
    requires TaskOk(t)
    decreases t.maxBranches - i
  {
    if i >= t.maxBranches then Accept([])
    else
      var proposal :- o.respond(i);
      if !ProposalOk(proposal, t, o.digest) then Reject
      else
        var start := ApplyEdits(ResetFiles(files, t, |t.editable|), proposal.edits);
        var attempt, after := Attempt(start, proposal, o.exitCode(i, start)), o.effect(i, start);
        if !Protected(after, t) then Reject
        else if attempt.exitCode == 0 then Accept([attempt])
        else
          var rest :- Attempts(t, o, i + 1, after);
          Accept([attempt] + rest)
  }

  datatype Report = Report(completed: bool, tests: seq<int>, tokens: nat, changed: Option<Digest>)

  class Workspace {
    var files: Files

    constructor (seed: Files)
      ensures files == seed
    {
      files := seed;
    }

    method WriteFile(path: string, content: string)
      modifies this
      ensures files == old(files)[path := content]
    {
      files := files[path := content];
    }

    method Reset(t: Task)
      requires TaskOk(t)
      modifies this
      ensures files == ResetFiles(old(files), t, |t.editable|)
    {
      for i := 0 to |t.editable|
        invariant files == ResetFiles(old(files), t, i)
      {
        WriteFile(t.editable[i], t.snapshot[t.editable[i]]);
      }
    }

    method Apply(edits: seq<Edit>)
      modifies this
      ensures files == ApplyEdits(old(files), edits)
    {
      for i := 0 to |edits|
        invariant files == ApplyEdits(old(files), edits[..i])
      {
        assert edits[..i + 1][..i] == edits[..i];
        WriteFile(edits[i].path, edits[i].replacement);
      }
      assert edits[..|edits|] == edits;
    }

    /** The attempt loop of both strategies; `governed` also checks the protected files before the
        tests. The result is the same either way. */
    method Run(t: Task, o: Oracle, preparation: nat, governed: bool)
      returns (r: Outcome<Report>, ghost attempts: seq<Attempt>)
      requires TaskOk(t) && Protected(files, t)
      modifies this
      ensures r.Accept? <==> Attempts(t, o, 0, old(files)).Accept?
      ensures r.Accept? ==>
                Attempts(t, o, 0, old(files)) == Accept(attempts) && Reports(r.value, attempts, o, preparation)
    {
      hide ProposalOk, Protected, Reports, ResetFiles, ApplyEdits;
      var tests: seq<int>, tokens: nat, changed: Option<Digest> := [], preparation, None;
      attempts := [];
      NothingReported(o, preparation);
      PrependNothing(Attempts(t, o, 0, files));
      for i := 0 to t.maxBranches
        invariant Protected(files, t)
        invariant changed.None? && Reports(Report(false, tests, tokens, changed), attempts, o, preparation)
        invariant |attempts| == i
        invariant Attempts(t, o, 0, old(files)) == Prepend(attempts, Attempts(t, o, i, files))
      {
        ghost var before := files;
        Reset(t);
        var response := o.respond(i);
        ghost var spent := tokens;
        tokens := tokens + o.tokens(i);
        if response.Reject? || !ProposalOk(response.value, t, o.digest) { return Reject, attempts; }
        var proposal := response.value;
        Apply(proposal.edits);
        ApplyKeepsProtected(before, t, proposal, o.digest);
        if governed && !Protected(files, t) { return Reject, attempts; }
        var exitCode := o.exitCode(i, files);
        ghost var attempt := Attempt(files, proposal, exitCode);
        files := o.effect(i, files);
        if !Protected(files, t) { return Reject, attempts; }
        ReportStep(Report(false, tests, spent, None), attempts, o, preparation, attempt);
        if exitCode != 0 { PrependStep(attempts, attempt, Attempts(t, o, i + 1, files)); }
        tests := tests + [exitCode];
        attempts := attempts + [attempt];
        if exitCode == 0 {
          changed := Some(o.digest(FirstReplacement(proposal)));
          return Accept(Report(true, tests, tokens, changed)), attempts;
        }
      }
      assert attempts + [] == attempts;
      r := Accept(Report(changed.Some?, tests, tokens, changed));
    }
  }

  function Prepend(before: seq<Attempt>, rest: Outcome<seq<Attempt>>): Outcome<seq<Attempt>> {
    if rest.Reject? then Reject else Accept(before + rest.value)
  }

  lemma PrependNothing(rest: Outcome<seq<Attempt>>)
    ensures Prepend([], rest) == rest
  {
    if rest.Accept? { assert [] + rest.value == rest.value; }
  }

  lemma PrependStep(before: seq<Attempt>, a: Attempt, rest: Outcome<seq<Attempt>>)
    ensures Prepend(before, Prepend([a], rest)) == Prepend(before + [a], rest)
  {
    if rest.Accept? { assert before + ([a] + rest.value) == before + [a] + rest.value; }
  }

  function FirstReplacement(p: Proposal): string { if p.edits == [] then "" else p.edits[0].replacement }

  function TokenSum(o: Oracle, n: nat): nat { if n == 0 then 0 else TokenSum(o, n - 1) + o.tokens(n - 1) }

  /** The report of a list of attempts: their exit codes and tokens, and the change that passed. */
  ghost predicate Reports(r: Report, attempts: seq<Attempt>, o: Oracle, preparation: nat) {
    && |r.tests| == |attempts| && (forall i | 0 <= i < |attempts| :: r.tests[i] == attempts[i].exitCode)
    && r.tokens == preparation + TokenSum(o, |attempts|)
    && (forall i | 0 <= i < |attempts| - 1 :: attempts[i].exitCode != 0)
    && r.completed == r.changed.Some?
    && (r.completed <==> attempts != [] && attempts[|attempts| - 1].exitCode == 0)
    && (r.completed ==> r.changed == Some(o.digest(FirstReplacement(attempts[|attempts| - 1].proposal))))
  }

  lemma NothingReported(o: Oracle, preparation: nat)
    ensures Reports(Report(false, [], preparation, None), [], o, preparation)
  {
  }

  lemma ReportStep(r: Report, attempts: seq<Attempt>, o: Oracle, preparation: nat, a: Attempt)
    requires Reports(r, attempts, o, preparation) && !r.completed
    ensures var changed := if a.exitCode == 0 then Some(o.digest(FirstReplacement(a.proposal))) else None;
            Reports(Report(a.exitCode == 0, r.tests + [a.exitCode], r.tokens + o.tokens(|attempts|), changed),
                    attempts + [a], o, preparation)
  {
  }

  // ----- no leak between attempts --------------------------------------------------------

  /** The captured files of a workspace. */
  function Captured(files: Files, t: Task): Files { map path | path in files && path in t.snapshot :: files[path] }

  /** The snapshot with the edits of one proposal, and nothing else. */
  function Overlay(t: Task, p: Proposal): Files { ApplyEdits(t.snapshot, p.edits) }

  lemma {:induction false} ResetMeans(files: Files, t: Task, n: nat, path: string)
    requires TaskOk(t) && n <= |t.editable|
    ensures path in t.editable[..n] ==>
              path in ResetFiles(files, t, n) && ResetFiles(files, t, n)[path] == t.snapshot[path]
    ensures path !in t.editable[..n] ==>
              (path in ResetFiles(files, t, n) <==> path in files)
                  && (path in files ==> ResetFiles(files, t, n)[path] == files[path])
  {
    if n > 0 {
      ResetMeans(files, t, n - 1, path);
      assert t.editable[..n] == t.editable[..n - 1] + [t.editable[n - 1]];
    }
  }

  lemma {:induction false} EditsMean(xs: Files, ys: Files, edits: seq<Edit>, path: string)
    requires (path in xs <==> path in ys) && (path in xs ==> xs[path] == ys[path])
    ensures path in ApplyEdits(xs, edits) <==> path in ApplyEdits(ys, edits)
    ensures path in ApplyEdits(xs, edits) ==> ApplyEdits(xs, edits)[path] == ApplyEdits(ys, edits)[path]
    ensures (forall e | e in edits :: e.path != path) ==>
              (path in ApplyEdits(xs, edits) <==> path in xs)
                  && (path in xs ==> ApplyEdits(xs, edits)[path] == xs[path])
  {
    if edits != [] {
      var n := |edits| - 1;
      EditsMean(xs, ys, edits[..n], path);
      assert edits == edits[..n] + [edits[n]];
    }
  }

  lemma {:induction false} EditsStayInside(files: Files, edits: seq<Edit>)
    ensures ApplyEdits(files, edits).Keys == files.Keys + set e | e in edits :: e.path
  {
    if edits != [] {
      var n := |edits| - 1;
      EditsStayInside(files, edits[..n]);
      assert edits == edits[..n] + [edits[n]];
    }
  }

  /** Resetting and editing a workspace with intact protected files gives the overlay, whatever the
      editable files held and whatever else is there. */
  lemma StartIsOverlay(files: Files, t: Task, p: Proposal, digest: string -> Digest)
    requires TaskOk(t) && Protected(files, t) && ProposalOk(p, t, digest)
    ensures Captured(ApplyEdits(ResetFiles(files, t, |t.editable|), p.edits), t) == Overlay(t, p)
  {
    hide ProposalOk, ApplyEdits, ResetFiles;
    var reset := ResetFiles(files, t, |t.editable|);
    var start, overlay := ApplyEdits(reset, p.edits), Overlay(t, p);
    EditsInSnapshot(t, p, digest);
    EditsStayInside(t.snapshot, p.edits);
    EditsStayInside(reset, p.edits);
    assert overlay.Keys == t.snapshot.Keys;
    forall path | path in t.snapshot ensures path in start && path in overlay && start[path] == overlay[path] {
      ResetMeans(files, t, |t.editable|, path);
      assert t.editable[..|t.editable|] == t.editable;
      EditsMean(reset, t.snapshot, p.edits, path);
    }
  }

  lemma EditsInSnapshot(t: Task, p: Proposal, digest: string -> Digest)
    requires ProposalOk(p, t, digest)
    ensures forall e | e in p.edits :: e.path in t.snapshot && e.path in t.editable
  {
  }

  lemma ApplyKeepsProtected(files: Files, t: Task, p: Proposal, digest: string -> Digest)
    requires TaskOk(t) && Protected(files, t) && ProposalOk(p, t, digest)
    ensures Protected(ApplyEdits(ResetFiles(files, t, |t.editable|), p.edits), t)
  {
    hide ProposalOk;
    EditsInSnapshot(t, p, digest);
    var reset := ResetFiles(files, t, |t.editable|);
    forall path | path in t.snapshot && path !in t.editable
      ensures path in ApplyEdits(reset, p.edits) && ApplyEdits(reset, p.edits)[path] == t.snapshot[path]
    {
      ResetMeans(files, t, |t.editable|, path);
      assert t.editable[..|t.editable|] == t.editable;
      EditsMean(reset, reset, p.edits, path);
    }
  }

  /** No attempt sees another: whatever earlier attempts and their tests did, the tests of an attempt
      start on the snapshot with that attempt's own edits; every attempt but the last failed, there
      are at most the allowed number, and fewer only after a pass. */
  lemma {:induction false} AttemptsDoNotLeak(t: Task, o: Oracle, i: nat, files: Files, n: nat)
    requires TaskOk(t) && Protected(files, t) && i <= t.maxBranches
    requires Attempts(t, o, i, files).Accept? && n < |Attempts(t, o, i, files).value|
    ensures var a := Attempts(t, o, i, files).value[n];
            && Accept(a.proposal) == o.respond(i + n) && ProposalOk(a.proposal, t, o.digest)
            && Captured(a.start, t) == Overlay(t, a.proposal) && a.exitCode == o.exitCode(i + n, a.start)
            && (n < |Attempts(t, o, i, files).value| - 1 ==> a.exitCode != 0)
    decreases n
  {
    hide ProposalOk, Protected, Captured, Overlay, ApplyEdits, ResetFiles;
    var proposal := o.respond(i).value;
    StartIsOverlay(files, t, proposal, o.digest);
    var start := ApplyEdits(ResetFiles(files, t, |t.editable|), proposal.edits);
    if n > 0 {
      AttemptsDoNotLeak(t, o, i + 1, o.effect(i, start), n - 1);
    }
  }

  lemma {:induction false} AttemptsStop(t: Task, o: Oracle, i: nat, files: Files)
    requires TaskOk(t) && i <= t.maxBranches && Attempts(t, o, i, files).Accept?
    ensures var attempts := Attempts(t, o, i, files).value;
            && |attempts| <= t.maxBranches - i
            && (|attempts| < t.maxBranches - i ==> attempts != [] && attempts[|attempts| - 1].exitCode == 0)
    decreases t.maxBranches - i
  {
    hide ProposalOk, Protected, ApplyEdits, ResetFiles;
    if i < t.maxBranches {
      var start := ApplyEdits(ResetFiles(files, t, |t.editable|), o.respond(i).value.edits);
      if o.exitCode(i, start) != 0 { AttemptsStop(t, o, i + 1, o.effect(i, start)); }
    }
  }

  // ----- the comparison ------------------------------------------------------------------

  /** What a strategy reports about its provider calls, as far as it knows. */
  datatype Row = Row(calls: Option<nat>, cost: Option<real>)

  function SumCalls(rows: seq<Row>): Option<nat> {
    if rows == [] then Some(0)
    else match (rows[0].calls, SumCalls(rows[1..])) case (Some(a), Some(b)) => Some(a + b) case _ => None
  }

  function SumCost(rows: seq<Row>): Option<real> {
    if rows == [] then Some(0.0)
    else match (rows[0].cost, SumCost(rows[1..])) case (Some(a), Some(b)) => Some(a + b) case _ => None
  }

  /** One unknown count or cost makes the total unknown, and only that. */
  lemma {:induction false} UnknownStaysUnknown(rows: seq<Row>)
    ensures SumCalls(rows).Some? <==> forall i | 0 <= i < |rows| :: rows[i].calls.Some?
    ensures SumCost(rows).Some? <==> forall i | 0 <= i < |rows| :: rows[i].cost.Some?
  {
    if rows != [] {
      UnknownStaysUnknown(rows[1..]);
      assert forall i | 1 <= i < |rows| :: rows[i] == rows[1..][i - 1];
    }
  }
}

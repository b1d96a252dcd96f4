/** The workflow-run metadata GitHub returns, and the workflow-path rules every stage applies to it. */
module GitHub {
  import opened Primitives

  datatype RunMetadata = RunMetadata(
    id: int, attempt: int, path: string, headSha: string, event: string, status: string, conclusion: string,
    updatedAt: Micros, repository: string, headRepository: string, actor: string, triggeringActor: string)

  function IndexOf(s: string, c: char): (i: nat)
    ensures i <= |s| && c !in s[..i] && (i < |s| ==> s[i] == c)
  {
    if s == "" || s[0] == c then 0
    else
      var i := IndexOf(s[1..], c) + 1;
      assert s[..i] == [s[0]] + s[1..][..i - 1];
      i
  }

  /** The part of a workflow path before its source ref; an empty ref, a line break or a NUL is refused. */
  function PathPart(raw: string): Outcome<string> {
    if !IsBoundedText(raw, 512) || '\0' in raw || '\n' in raw || '\r' in raw then Reject
    else
      var at := IndexOf(raw, '@');
      if at + 1 == |raw| then Reject else Accept(raw[..at])
  }

  /** The last part of a path that names something. */
  function LastName(parts: seq<string>): string {
    if parts == [] then ""
    else
      var n := |parts| - 1;
      if parts[n] != "" && parts[n] != "." then parts[n] else LastName(parts[..n])
  }

  /** The last index of a dot, or -1. */
  function LastDot(name: string): (i: int)
    ensures -1 <= i < |name|
  {
    if name == "" then -1
    else
      var n := |name| - 1;
      if name[n] == '.' then n else LastDot(name[..n])
  }

  /** The file-name suffix as pathlib gives it: none for a name that only starts or ends with its last dot. */
  function Suffix(path: string): string {
    var name := LastName(SplitWhere(path, c => c == '/'));
    var i := LastDot(name);
    if 0 < i < |name| - 1 then name[i..] else ""
  }

  const WORKFLOW_DIRECTORY := ".github/workflows/"

  function SafeWorkflowPath(raw: string): Outcome<string> {
    var path :- PathPart(raw);
    if WORKFLOW_DIRECTORY <= path && Suffix(path) in [".yml", ".yaml"] then Accept(path) else Reject
  }

  predicate Succeeded(m: RunMetadata, repository: string) {
    && m.status == "completed" && m.conclusion == "success"
    && m.repository == repository && m.headRepository == repository
  }

  /** A workflow path with any non-empty source ref names the same workflow. */
  lemma RefDoesNotMatter(path: string, ref: string)
    requires '@' !in path && ref != ""
    requires PathPart(path + "@" + ref).Accept?
    ensures PathPart(path + "@" + ref) == Accept(path)
    ensures SafeWorkflowPath(path + "@" + ref) == SafeWorkflowPath(path)
  {
    var raw := path + "@" + ref;
    IndexAfter(path, ref);
    assert raw[..|path|] == path;
    Utf8SizeAdds(path, "@" + ref);
    assert raw == path + ("@" + ref);
    forall c | c in path ensures c in raw { }
    NoIndex(path, '@');
    assert path[..|path|] == path;
    if path == "" { assert !(WORKFLOW_DIRECTORY <= path); }
  }

  lemma {:induction false} Utf8SizeAdds(a: string, b: string)
    ensures Utf8Size(a + b) == Utf8Size(a) + Utf8Size(b)
  {
    if a == "" {
      assert a + b == b;
    } else {
      assert (a + b)[1..] == a[1..] + b;
      Utf8SizeAdds(a[1..], b);
    }
  }

  lemma {:induction false} NoIndex(s: string, c: char)
    requires c !in s
    ensures IndexOf(s, c) == |s|
  {
    if s != "" { NoIndex(s[1..], c); }
  }

  lemma {:induction false} IndexAfter(path: string, ref: string)
    requires '@' !in path
    ensures IndexOf(path + "@" + ref, '@') == |path|
  {
    if path != "" {
      assert (path + "@" + ref)[1..] == path[1..] + "@" + ref;
      IndexAfter(path[1..], ref);
    }
  }
}

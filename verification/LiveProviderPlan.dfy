/** scripts/live_provider_qualification_plan.py: the provider catalogue and the dispatch plan. */
module LiveProviderPlan {
  import opened Primitives

  type Catalog = seq<string>

  predicate IsProviderName(s: string) {
    0 < |s| && 'a' <= s[0] <= 'z' &&
    forall i | 0 <= i < |s| :: 'a' <= s[i] <= 'z' || IsDigit(s[i]) || s[i] == '-'
  }

  /** What validate_catalog demands of the checked-in table. */
  predicate ValidCatalog(catalog: Catalog) {
    catalog != [] && NoDuplicates(catalog) && forall i | 0 <= i < |catalog| :: IsProviderName(catalog[i])
  }

  function Split(s: string): (parts: seq<string>)
    ensures parts != []
  {
    if s == "" then [""]
    else
      var rest := Split(s[1..]);
      if s[0] == ',' then [""] + rest else [[s[0]] + rest[0]] + rest[1..]
  }

  function Join(parts: seq<string>): string {
    if parts == [] then "" else if |parts| == 1 then parts[0] else parts[0] + "," + Join(parts[1..])
  }

  function StripAll(parts: seq<string>): (r: seq<string>)
    ensures |r| == |parts| && forall i | 0 <= i < |parts| :: r[i] == Strip(parts[i])
  {
    seq(|parts|, i requires 0 <= i < |parts| => Strip(parts[i]))
  }

  /** The names a request lists, in request order. */
  function Names(value: string): seq<string> { StripAll(Split(Strip(value))) }

  /** The catalogue entries that satisfy membership in `names`, in catalogue order. */
  function Select(catalog: Catalog, names: set<string>): seq<string> {
    if catalog == [] then []
    else if catalog[0] in names then [catalog[0]] + Select(catalog[1..], names)
    else Select(catalog[1..], names)
  }

  function Members(s: seq<string>): set<string> { set x | x in s }

  predicate NamesAccepted(names: seq<string>, catalog: Catalog) {
    NoDuplicates(names) && forall i | 0 <= i < |names| :: IsProviderName(names[i]) && names[i] in catalog
  }

  function ProviderSet(value: string, catalog: Catalog): Outcome<seq<string>> {
    if Strip(value) == "" then Accept([])
    else if Strip(value) == "all" then Accept(catalog)
    else if NamesAccepted(Names(value), catalog) then Accept(Select(catalog, Members(Names(value))))
    else Reject
  }

  method ParseProviderSet(value: string, catalog: Catalog) returns (r: Outcome<seq<string>>)
    ensures r == ProviderSet(value, catalog)
  {
    var requested := Strip(value);
    if requested == "" { return Accept([]); }
    if requested == "all" { return Accept(catalog); }
    var raw := Split(requested);
    var seen: set<string> := {};
    ghost var names := Names(value);
    for i := 0 to |raw|
      invariant seen == Members(names[..i])
      invariant NamesAccepted(names[..i], catalog)
    {
      var provider := Strip(raw[i]);
      assert names[..i + 1] == names[..i] + [provider];
      if !IsProviderName(provider) || provider !in catalog {
        assert names[i] == provider;
        return Reject;
      }
      if provider in seen {
        assert provider in names[..i];
        return Reject;
      }
      seen := seen + {provider};
    }
    assert names[..|raw|] == names;
    r := Accept(Select(catalog, seen));
  }

  // ----- facts about selection -----------------------------------------------------------

  lemma {:induction false} SelectMembers(catalog: Catalog, names: set<string>)
    ensures forall x :: x in Select(catalog, names) <==> x in catalog && x in names
    ensures NoDuplicates(catalog) ==> NoDuplicates(Select(catalog, names))
    ensures |Select(catalog, names)| <= |catalog|
    ensures names == {} ==> Select(catalog, names) == []
  {
    if catalog != [] {
      SelectMembers(catalog[1..], names);
      assert catalog == [catalog[0]] + catalog[1..];
    }
  }

  lemma {:induction false} SelectAgrees(catalog: Catalog, a: set<string>, b: set<string>)
    requires forall x | x in catalog :: x in a <==> x in b
    ensures Select(catalog, a) == Select(catalog, b)
  {
    if catalog != [] {
      assert catalog[0] in catalog;
      forall x | x in catalog[1..] ensures x in a <==> x in b { assert x in catalog; }
      SelectAgrees(catalog[1..], a, b);
    }
  }

  lemma {:induction false} SelectAll(catalog: Catalog, names: set<string>)
    requires forall x | x in catalog :: x in names
    ensures Select(catalog, names) == catalog
  {
    if catalog != [] {
      assert catalog[0] in catalog;
      forall x | x in catalog[1..] ensures x in names { assert x in catalog; }
      SelectAll(catalog[1..], names);
    }
  }

  /** A selection re-selects to itself: it is the canonical list of its own members. */
  lemma SelectCanonical(catalog: Catalog, names: set<string>)
    ensures Select(catalog, Members(Select(catalog, names))) == Select(catalog, names)
  {
    SelectMembers(catalog, names);
    SelectAgrees(catalog, Members(Select(catalog, names)), names);
  }

  // ----- order insensitivity -------------------------------------------------------------

  predicate IsList(value: string) { Strip(value) != "" && Strip(value) != "all" }

  /** Two requests that list the same names in any order are accepted alike, with one result. */
  lemma OrderInsensitive(v: string, w: string, catalog: Catalog)
    requires IsList(v) && IsList(w)
    requires multiset(Names(v)) == multiset(Names(w))
    ensures ProviderSet(v, catalog) == ProviderSet(w, catalog)
  {
    var a, b := Names(v), Names(w);
    PermutationFacts(a, b);
    assert Members(a) == Members(b);
    if NoDuplicates(a) { PermutationKeepsDistinct(a, b); }
    if NoDuplicates(b) { PermutationKeepsDistinct(b, a); }
    forall x ensures x in a ==> x in b { }
    assert NamesAccepted(a, catalog) <==> NamesAccepted(b, catalog) by {
      if NamesAccepted(a, catalog) {
        forall i | 0 <= i < |b| ensures IsProviderName(b[i]) && b[i] in catalog { assert b[i] in a; }
      }
      if NamesAccepted(b, catalog) {
        forall i | 0 <= i < |a| ensures IsProviderName(a[i]) && a[i] in catalog { assert a[i] in b; }
      }
    }
  }

  // ----- idempotence through the printed form --------------------------------------------

  predicate PlainNames(names: seq<string>) { forall i | 0 <= i < |names| :: IsProviderName(names[i]) }

  lemma {:induction false} SplitPlain(s: string)
    requires ',' !in s
    ensures Split(s) == [s]
  {
    if s != "" {
      forall c | c in s[1..] ensures c != ',' { assert c in s; }
      SplitPlain(s[1..]);
      assert s == [s[0]] + s[1..];
    }
  }

  lemma {:induction false} SplitPrefix(a: string, rest: string)
    requires ',' !in a
    ensures Split(a + "," + rest) == [a] + Split(rest)
  {
    var s := a + "," + rest;
    if a == "" {
      assert s[0] == ',' && s[1..] == rest;
    } else {
      assert s[1..] == a[1..] + "," + rest && s[0] == a[0];
      SplitPrefix(a[1..], rest);
      assert a == [a[0]] + a[1..];
    }
  }

  lemma ProviderNameIsPlain(s: string)
    requires IsProviderName(s)
    ensures ',' !in s && Strip(s) == s && s != "" && !IsSpace(s[0]) && !IsSpace(s[|s| - 1])
  {
  }

  lemma {:induction false} SplitJoin(names: seq<string>)
    requires names != [] && PlainNames(names)
    ensures Split(Join(names)) == names
    ensures Join(names) != "" && !IsSpace(Join(names)[0]) && !IsSpace(Join(names)[|Join(names)| - 1])
    ensures |names| > 1 ==> ',' in Join(names)
  {
    ProviderNameIsPlain(names[0]);
    if |names| == 1 {
      SplitPlain(names[0]);
    } else {
      var rest := Join(names[1..]);
      SplitJoin(names[1..]);
      SplitPrefix(names[0], rest);
      var all := names[0] + "," + rest;
      assert all[|names[0]|] == ',';
      assert all[|all| - 1] == rest[|rest| - 1];
    }
  }

  /** Parsing the printed form of an accepted selection gives it back. The printed form "all" is no
      exception: only a catalogue of that one provider has it as a selection. */
  lemma JoinParseIdempotent(value: string, catalog: Catalog)
    requires ValidCatalog(catalog)
    requires ProviderSet(value, catalog).Accept?
    ensures var selected := ProviderSet(value, catalog).value; ProviderSet(Join(selected), catalog) == Accept(selected)
  {
    hide Split, Strip, Join, IsProviderName, Names;
    var selected := ProviderSet(value, catalog).value;
    var names := Members(Names(value));
    SelectMembers(catalog, names);
    SelectCanonical(catalog, names);
    SelectAll(catalog, Members(catalog));
    if selected == [] {
      EmptySelection();
    } else {
      forall i | 0 <= i < |selected| ensures IsProviderName(selected[i]) { assert selected[i] in catalog; }
      PrintedSelection(selected);
      if selected == ["all"] { OnlyAll(value, catalog); }
    }
  }

  lemma {:induction false} StripIdempotent(s: string)
    ensures Strip(Strip(s)) == Strip(s)
  {
    if s != "" {
      if IsSpace(s[0]) {
        StripIdempotent(s[1..]);
      } else if IsSpace(s[|s| - 1]) {
        StripIdempotent(s[..|s| - 1]);
      }
    }
  }

  lemma {:induction false} SplitOnce(s: string)
    requires |Split(s)| == 1
    ensures Split(s) == [s]
  {
    if s != "" {
      SplitOnce(s[1..]);
      assert s == [s[0]] + s[1..];
    }
  }

  /** A request that selects the single provider "all" asks for "all", the whole catalogue. */
  lemma OnlyAll(value: string, catalog: Catalog)
    requires ProviderSet(value, catalog) == Accept(["all"])
    ensures catalog == ["all"]
  {
    hide Split, Strip, IsProviderName;
    if Strip(value) != "all" {
      var names := Names(value);
      SelectMembers(catalog, Members(names));
      assert Members(names) == {"all"} by {
        assert Members(["all"]) == {"all"};
        forall x | x in Members(names) ensures x == "all" { assert x in catalog; }
      }
      OneName(names, "all");
      OneNameRequest(value, "all");
    }
  }

  lemma OneNameRequest(value: string, name: string)
    requires Names(value) == [name]
    ensures Strip(value) == name
  {
    hide Split, Strip;
    assert |StripAll(Split(Strip(value)))| == 1;
    SplitOnce(Strip(value));
    StripIdempotent(value);
    assert Names(value)[0] == Strip(Split(Strip(value))[0]);
  }

  lemma OneName(names: seq<string>, name: string)
    requires NoDuplicates(names) && Members(names) == {name}
    ensures names == [name]
  {
    assert name in Members(names);
    DistinctCardinality(names);
    assert (set x | x in names) == {name};
    assert names[0] in Members(names);
  }

  lemma EmptySelection()
    ensures Strip(Join([])) == ""
  {
  }

  lemma PrintedSelection(selected: seq<string>)
    requires selected != [] && PlainNames(selected)
    ensures Strip(Join(selected)) == Join(selected) != "" && Names(Join(selected)) == selected
    ensures Join(selected) == "all" <==> selected == ["all"]
  {
    hide IsProviderName;
    SplitJoin(selected);
    var printed := Join(selected);
    forall i | 0 <= i < |selected| ensures Strip(selected[i]) == selected[i] { ProviderNameIsPlain(selected[i]); }
    assert StripAll(selected) == selected;
    if |selected| == 1 { assert selected == [printed]; }
  }

  // ----- the plan ------------------------------------------------------------------------

  datatype Config = Config(provider: string, modelVariable: string, credentialSecret: string, endpointSecret: string)

  function ProvidersOf(configs: seq<Config>): (r: Catalog)
    ensures |r| == |configs| && forall i | 0 <= i < |r| :: r[i] == configs[i].provider
  {
    seq(|configs|, i requires 0 <= i < |configs| => configs[i].provider)
  }

  datatype DispatchPlan = DispatchPlan(
    ready: bool, commit: string, selected: seq<string>, unselected: seq<string>, available: Catalog,
    matrix: seq<Config>)

  function Matrix(configs: seq<Config>, names: set<string>): seq<Config> {
    if configs == [] then []
    else if configs[0].provider in names then [configs[0]] + Matrix(configs[1..], names)
    else Matrix(configs[1..], names)
  }

  function BuildDispatchPlan(value: string, commit: string, configs: seq<Config>): Outcome<DispatchPlan> {
    if !IsCommit(commit) then Reject
    else
      var catalog := ProvidersOf(configs);
      var selected :- ProviderSet(value, catalog);
      var chosen := Members(selected);
      Accept(DispatchPlan(selected != [], commit, selected, Select(catalog, Members(catalog) - chosen), catalog,
                          Matrix(configs, chosen)))
  }

  lemma {:induction false} MatrixProviders(configs: seq<Config>, names: set<string>)
    ensures ProvidersOf(Matrix(configs, names)) == Select(ProvidersOf(configs), names)
    ensures forall c :: c in Matrix(configs, names) <==> c in configs && c.provider in names
  {
    if configs != [] {
      MatrixProviders(configs[1..], names);
      assert ProvidersOf(configs)[1..] == ProvidersOf(configs[1..]);
      assert configs == [configs[0]] + configs[1..];
      if configs[0].provider in names {
        assert ProvidersOf(Matrix(configs, names)) ==
               [configs[0].provider] + ProvidersOf(Matrix(configs[1..], names));
      }
    }
  }

  /** Every accepted plan splits the catalogue: each provider is selected or unselected and never
      both, both lists are the catalogue with the other's members removed, and the job matrix
      lists exactly the selected providers in the same order. */
  lemma PlanSplitsCatalog(value: string, commit: string, configs: seq<Config>)
    requires ValidCatalog(ProvidersOf(configs))
    requires BuildDispatchPlan(value, commit, configs).Accept?
    ensures var plan := BuildDispatchPlan(value, commit, configs).value;
            && plan.available == ProvidersOf(configs)
            && Members(plan.selected) + Members(plan.unselected) == Members(plan.available)
            && Members(plan.selected) !! Members(plan.unselected)
            && |plan.selected| + |plan.unselected| == |plan.available|
            && plan.selected == Select(plan.available, Members(plan.selected))
            && plan.unselected == Select(plan.available, Members(plan.unselected))
            && ProvidersOf(plan.matrix) == plan.selected
            && (plan.ready <==> exists p :: p in plan.selected)
  {
    var plan := BuildDispatchPlan(value, commit, configs).value;
    SelectionIsCanonical(value, plan.available);
    Complement(plan.available, Members(plan.selected));
    MatrixProviders(configs, Members(plan.selected));
    if plan.selected != [] { assert plan.selected[0] in plan.selected; }
  }

  /** An accepted selection is the canonical list of its members, once each and all from the catalogue. */
  lemma SelectionIsCanonical(value: string, catalog: Catalog)
    requires NoDuplicates(catalog) && ProviderSet(value, catalog).Accept?
    ensures var selected := ProviderSet(value, catalog).value;
            && selected == Select(catalog, Members(selected))
            && Members(selected) <= Members(catalog) && NoDuplicates(selected)
  {
    var names := Members(Names(value));
    SelectMembers(catalog, names);
    SelectCanonical(catalog, names);
    SelectAll(catalog, Members(catalog));
    SelectMembers(catalog, {});
    assert Members([]) == {};
  }

  lemma Complement(catalog: Catalog, chosen: set<string>)
    requires chosen <= Members(catalog)
    ensures var rest := Select(catalog, Members(catalog) - chosen);
            && Members(rest) == Members(catalog) - chosen
            && rest == Select(catalog, Members(rest))
            && |Select(catalog, chosen)| + |rest| == |catalog|
  {
    SelectMembers(catalog, Members(catalog) - chosen);
    SelectSplits(catalog, chosen);
  }

  lemma {:induction false} SelectSplits(catalog: Catalog, chosen: set<string>)
    ensures |Select(catalog, chosen)| + |Select(catalog, Members(catalog) - chosen)| == |catalog|
  {
    if catalog != [] {
      var tail := catalog[1..];
      SelectSplits(tail, chosen);
      SelectAgrees(tail, Members(catalog) - chosen, Members(tail) - chosen);
      assert catalog[0] in Members(catalog);
    }
  }
}

/** scripts/external_deletion_qualification.py: deletion and retention at every external boundary. */
module ExternalDeletion {
  import opened Primitives
  import opened Campaign
  import StorageProfile

  const MAX_EXERCISE: int := 45 * 24 * 60 * 60
  const MAX_RECORDS := 64
  const SEPARATOR := "::"
  const EXTERNAL := "external/"

  datatype Mode = DeleteApi | BoundedRetention | ImmutableThenDelete | ZeroRetention | NotConfigured
    | OtherMode(text: string)

  datatype Boundary = Boundary(id: string, modes: set<Mode>)

  datatype BoundaryContract = BoundaryContract(
    profileId: string, maximum: int, boundaries: seq<Boundary>, required: seq<string>)

  function BoundaryIds(boundaries: seq<Boundary>): (ids: seq<string>)
    ensures |ids| == |boundaries| && forall i | 0 <= i < |ids| :: ids[i] == boundaries[i].id
  {
    seq(|boundaries|, i requires 0 <= i < |boundaries| => boundaries[i].id)
  }

  predicate IsBoundaryId(id: string) { EXTERNAL <= id && IsCleanText(id, 96) }

  /** A contract _load_contract can return. */
  predicate ContractOk(c: BoundaryContract) {
    && 1 <= c.maximum <= MAX_EXERCISE && 1 <= |c.boundaries| <= 32
    && (forall i | 0 <= i < |c.boundaries| :: IsBoundaryId(c.boundaries[i].id))
    && NoDuplicates(BoundaryIds(c.boundaries))
    && (forall i | 0 <= i < |c.boundaries| :: c.boundaries[i].modes != {})
    && 1 <= |c.required| && NoDuplicates(c.required) && (forall b | b in c.required :: b in BoundaryIds(c.boundaries))
  }

  // ----- the contract file ---------------------------------------------------------------

  datatype RawBoundary = RawBoundary(id: string, modes: seq<Mode>)

  datatype RawContract = RawContract(
    schemaVersion: int, profileId: string, maximum: int, boundaries: seq<RawBoundary>, required: seq<string>)

  function RawIds(raws: seq<RawBoundary>): (ids: seq<string>)
    ensures |ids| == |raws| && forall i | 0 <= i < |ids| :: ids[i] == raws[i].id
  {
    seq(|raws|, i requires 0 <= i < |raws| => raws[i].id)
  }

  predicate BoundaryOk(b: RawBoundary) {
    && IsBoundaryId(b.id) && 1 <= |b.modes| <= 8 && NoDuplicates(b.modes)
    && forall i | 0 <= i < |b.modes| && b.modes[i].OtherMode? :: IsStableId(b.modes[i].text)
  }

  ghost predicate Loads(raw: RawContract) {
    && raw.schemaVersion == 1 && IsStableId(raw.profileId)
    && 1 <= raw.maximum <= MAX_EXERCISE && 1 <= |raw.boundaries| <= 32
    && (forall i | 0 <= i < |raw.boundaries| :: BoundaryOk(raw.boundaries[i]))
    && NoDuplicates(RawIds(raw.boundaries))
    && 1 <= |raw.required| <= |raw.boundaries| && NoDuplicates(raw.required)
    && (forall b | b in raw.required :: b in RawIds(raw.boundaries))
  }

  function Loaded(b: RawBoundary): Boundary { Boundary(b.id, set m | m in b.modes) }

  function LoadedFrom(raw: RawContract): BoundaryContract {
    var n := |raw.boundaries|;
    BoundaryContract(raw.profileId, raw.maximum, seq(n, i requires 0 <= i < n => Loaded(raw.boundaries[i])),
                     raw.required)
  }

  /** The loader: accepts exactly under `Loads`, and returns the boundaries in file order. */
  method LoadContract(raw: RawContract) returns (r: Outcome<BoundaryContract>)
    ensures r.Accept? <==> Loads(raw)
    ensures r.Accept? ==> r.value == LoadedFrom(raw) && ContractOk(r.value)
  {
    hide IsBoundaryId, Loaded;
    var n := |raw.boundaries|;
    if raw.schemaVersion != 1 || !IsStableId(raw.profileId) { return Reject; }
    if !(1 <= raw.maximum <= MAX_EXERCISE) || !(1 <= n <= 32) { return Reject; }
    var boundaries: seq<Boundary>, ids: seq<string> := [], [];
    ghost var all := RawIds(raw.boundaries);
    for i := 0 to n
      invariant ids == all[..i] && NoDuplicates(ids)
      invariant |boundaries| == i && forall j | 0 <= j < i :: boundaries[j] == Loaded(raw.boundaries[j])
      invariant forall j | 0 <= j < i :: BoundaryOk(raw.boundaries[j])
    {
      var b := raw.boundaries[i];
      assert all[..i + 1] == all[..i] + [b.id];
      if !BoundaryOk(b) { return Reject; }
      if b.id in ids {
        assert all[i] in all[..i];
        return Reject;
      }
      ids := ids + [b.id];
      boundaries := boundaries + [Loaded(b)];
    }
    assert all[..n] == all;
    if !(1 <= |raw.required| <= n) || !NoDuplicates(raw.required) { return Reject; }
    if exists b | b in raw.required :: b !in ids { return Reject; }
    var c := BoundaryContract(raw.profileId, raw.maximum, boundaries, raw.required);
    assert c == LoadedFrom(raw);
    LoadedIsOk(raw);
    r := Accept(c);
  }

  /** What loads is a contract. */
  lemma LoadedIsOk(raw: RawContract)
    requires Loads(raw)
    ensures ContractOk(LoadedFrom(raw)) && BoundaryIds(LoadedFrom(raw).boundaries) == RawIds(raw.boundaries)
  {
    hide IsBoundaryId, Loaded;
    var c, all := LoadedFrom(raw), RawIds(raw.boundaries);
    forall i | 0 <= i < |all| ensures c.boundaries[i].id == all[i] && c.boundaries[i].modes != {} {
      LoadedMeans(raw.boundaries[i]);
    }
    assert BoundaryIds(c.boundaries) == all;
  }

  lemma LoadedMeans(b: RawBoundary)
    requires BoundaryOk(b)
    ensures Loaded(b).id == b.id && Loaded(b).modes != {}
  {
    assert b.modes[0] in Loaded(b).modes;
  }

  // ----- one exercise --------------------------------------------------------------------

  datatype Exercise = Exercise(
    startedAt: Micros, createdAt: Micros, actionAt: Micros, retentionExpiresAt: Option<Micros>, absentAt: Micros,
    verifiedAt: Micros, target: int, created: bool, discoverable: bool, earlyDenied: bool, actionAccepted: bool,
    expiryObserved: bool, absent: bool, absenceVerified: bool, residual: int, tenantAccesses: int)

  datatype Result = Result(target: int, completion: int, passed: bool)

  predicate IsRetention(mode: Mode) { mode == BoundedRetention || mode == ImmutableThenDelete }

  /** The instant from which completion is measured. */
  function Reference(e: Exercise, mode: Mode): Outcome<Micros> {
    if IsRetention(mode) then
      if e.retentionExpiresAt.Some? && e.createdAt <= e.retentionExpiresAt.value <= e.actionAt
      then Accept(e.retentionExpiresAt.value) else Reject
    else if e.retentionExpiresAt.Some? then Reject
    else Accept(if mode == ZeroRetention then e.createdAt else e.actionAt)
  }

  function ValidateExercise(e: Exercise, mode: Mode, start: Micros, end: Micros, maximum: int): Outcome<Result> {
    if !(start <= e.startedAt <= e.createdAt <= e.actionAt <= e.absentAt <= e.verifiedAt <= end) then Reject
    else
      var reference :- Reference(e, mode);
      var completion :- StorageProfile.Seconds(e.absentAt, reference);
      if e.target < 1 || e.target > maximum || e.residual < 0 || e.tenantAccesses < 0 then Reject
      else
        Accept(Result(e.target, completion,
                      && e.created && (if mode == ZeroRetention then !e.discoverable else e.discoverable)
                      && (if mode == ImmutableThenDelete then e.earlyDenied else !e.earlyDenied) && e.actionAccepted
                      && (if IsRetention(mode) then e.expiryObserved else !e.expiryObserved)
                      && completion <= e.target && e.absent && e.absenceVerified && e.residual == 0
                      && e.tenantAccesses == 0))
  }

  /** A validated exercise has the data absent an exact number of seconds after the mode's reference
      instant; when it passes, that is within its target, which is within the contract maximum. */
  lemma ExerciseBounded(e: Exercise, mode: Mode, start: Micros, end: Micros, maximum: int)
    requires ValidateExercise(e, mode, start, end, maximum).Accept?
    ensures var v := ValidateExercise(e, mode, start, end, maximum).value;
            var reference := if IsRetention(mode) && e.retentionExpiresAt.Some? then e.retentionExpiresAt.value
                             else if mode == ZeroRetention then e.createdAt else e.actionAt;
            && 0 <= v.completion && v.completion * SECOND == e.absentAt - reference
            && start <= reference <= e.absentAt <= end
            && 1 <= v.target <= maximum
            && (v.passed ==> e.absentAt - reference <= v.target * SECOND <= maximum * SECOND)
            && (e.retentionExpiresAt.Some? <==> IsRetention(mode))
  {
    StorageProfile.SecondsExact(e.absentAt, Reference(e, mode).value);
  }

  // ----- record keys ---------------------------------------------------------------------

  function RecordKey(boundary: string, system: string): string { boundary + SEPARATOR + system }

  /** Splits at the first "::"; everything is the first part when there is none. */
  function SplitKey(key: string): (string, string) {
    if |key| < 2 then (key, "")
    else if key[0] == ':' && key[1] == ':' then ("", key[2..])
    else
      var rest := SplitKey(key[1..]);
      ([key[0]] + rest.0, rest.1)
  }

  /** No "::" inside and no ":" at the end. */
  predicate SimpleId(b: string) {
    (forall i | 0 <= i < |b| - 1 :: !(b[i] == ':' && b[i + 1] == ':')) && (b != "" ==> b[|b| - 1] != ':')
  }

  /** A record key splits back into its parts exactly when the boundary id is simple. */
  lemma {:induction false} SplitRecordKey(b: string, system: string)
    ensures SimpleId(b) <==> SplitKey(RecordKey(b, system)) == (b, system)
    decreases |b|
  {
    var key := RecordKey(b, system);
    if b == "" {
      assert key[2..] == system;
    } else if |b| == 1 {
      assert key == [b[0], ':', ':'] + system;
      assert key[1..] == RecordKey("", system);
      SplitRecordKey("", system);
      assert b == [b[0]] && key[0] == b[0] && key[1] == ':';
      assert SimpleId("") && SplitKey(key[1..]) == ("", system);
      if b[0] != ':' { assert SplitKey(key) == ([b[0]] + "", system) && [b[0]] + "" == b; }
    } else {
      assert key[0] == b[0] && key[1] == b[1] && key[1..] == RecordKey(b[1..], system);
      SplitRecordKey(b[1..], system);
      assert b == [b[0]] + b[1..];
      if b[0] == ':' && b[1] == ':' {
        assert !SimpleId(b);
        assert SplitKey(key).0 == "";
      } else {
        assert SimpleId(b) <==> SimpleId(b[1..]) by {
          if SimpleId(b[1..]) {
            forall i | 0 <= i < |b| - 1 ensures !(b[i] == ':' && b[i + 1] == ':') {
              if i > 0 { assert b[1..][i - 1] == b[i] && b[1..][i] == b[i + 1]; }
            }
          }
        }
      }
    }
  }

  // ----- the record loop -----------------------------------------------------------------

  datatype System = System(
    boundary: string, system: string, configured: bool, mode: Mode, configurationSha: Digest, absenceVerified: bool,
    policySha: Option<Digest>, evidenceSha: Digest, exercise: Option<Exercise>)

  predicate HasBoundary(c: BoundaryContract, id: string) { id in BoundaryIds(c.boundaries) }

  function IndexOf(ids: seq<string>, id: string): (i: nat)
    requires id in ids
    ensures i < |ids| && ids[i] == id
  {
    if ids[0] == id then 0 else 1 + IndexOf(ids[1..], id)
  }

  predicate ModeAllowed(c: BoundaryContract, s: System) {
    HasBoundary(c, s.boundary) && s.mode in c.boundaries[IndexOf(BoundaryIds(c.boundaries), s.boundary)].modes
  }

  predicate NoSeparator(s: string) { forall i | 0 <= i < |s| - 1 :: !(s[i] == ':' && s[i + 1] == ':') }

  /** A record that is on its own consistent. */
  predicate SystemOk(c: BoundaryContract, s: System, start: Micros, end: Micros) {
    && ModeAllowed(c, s) && NoSeparator(s.system)
    && (if s.configured then IsTargetId(s.system) else IsStableId(s.system))
    && s.configurationSha.Sha256? && s.evidenceSha.Sha256?
    && (if s.configured then
          && s.system != "none" && s.mode != NotConfigured && !s.absenceVerified
          && s.policySha.Some? && s.policySha.value.Sha256?
          && s.exercise.Some? && ValidateExercise(s.exercise.value, s.mode, start, end, c.maximum).Accept?
        else
          s.system == "none" && s.mode == NotConfigured && s.absenceVerified && s.policySha.None? && s.exercise.None?)
  }

  function KeyOf(s: System): string { RecordKey(s.boundary, s.system) }

  function Keys(systems: seq<System>): (keys: seq<string>)
    ensures |keys| == |systems| && forall i | 0 <= i < |keys| :: keys[i] == KeyOf(systems[i])
  {
    seq(|systems|, i requires 0 <= i < |systems| => KeyOf(systems[i]))
  }

  type Order = (int, string)

  /** The sort key of a record key; -1 when its first part is no boundary. */
  function OrderOf(c: BoundaryContract, key: string): Order {
    var parts := SplitKey(key);
    (if HasBoundary(c, parts.0) then IndexOf(BoundaryIds(c.boundaries), parts.0) else -1, parts.1)
  }

  predicate OrderLess(x: Order, y: Order) { x.0 < y.0 || (x.0 == y.0 && TextLess(x.1, y.1)) }

  predicate OrderLeq(x: Order, y: Order) { !OrderLess(y, x) }

  lemma OrderTotal()
    ensures StrictTotal(OrderLess)
  {
    forall x: Order { TextLessTotal(x.1, x.1); }
    forall x: Order, y: Order ensures x == y || OrderLess(x, y) || OrderLess(y, x) { TextLessTotal(x.1, y.1); }
    forall x: Order, y: Order, z: Order | OrderLess(x, y) && OrderLess(y, z) ensures OrderLess(x, z) {
      if x.0 == y.0 == z.0 { TextLessTransitive(x.1, y.1, z.1); }
    }
  }

  /** Records listed once each, in boundary order and then by system. */
  ghost predicate InOrder(c: BoundaryContract, keys: seq<string>) {
    && NoDuplicates(keys)
    && (forall i | 0 <= i < |keys| :: OrderOf(c, keys[i]).0 >= 0)
    && (forall i, j | 0 <= i < j < |keys| :: OrderLeq(OrderOf(c, keys[i]), OrderOf(c, keys[j])))
  }

  function Statuses(systems: seq<System>, boundary: string): seq<bool> {
    if systems == [] then []
    else
      var n := |systems| - 1;
      Statuses(systems[..n], boundary) + if systems[n].boundary == boundary then [systems[n].configured] else []
  }

  predicate StatusesOk(statuses: seq<bool>) { statuses != [] && (false in statuses ==> |statuses| == 1) }

  /** The record lists the evaluation accepts. */
  ghost predicate SystemsOk(c: BoundaryContract, systems: seq<System>, ok: System -> bool) {
    && |c.boundaries| <= |systems| <= MAX_RECORDS
    && (forall s | s in systems :: ok(s))
    && InOrder(c, Keys(systems))
    && (forall b | b in BoundaryIds(c.boundaries) :: StatusesOk(Statuses(systems, b)))
    && (forall b | b in c.required :: false !in Statuses(systems, b))
  }

  lemma StatusesStep(systems: seq<System>, i: nat, b: string)
    requires i < |systems|
    ensures Statuses(systems[..i + 1], b) ==
            Statuses(systems[..i], b) + if systems[i].boundary == b then [systems[i].configured] else []
  {
    assert systems[..i + 1][..i] == systems[..i];
  }

  /** The loop: checks each record, gathers the keys and the statuses per boundary. */
  method GatherRecords(ids: seq<string>, systems: seq<System>, ok: System -> bool)
    returns (accepted: bool, keys: seq<string>, statuses: map<string, seq<bool>>)
    requires forall s | ok(s) :: s.boundary in ids
    ensures accepted <==> (forall s | s in systems :: ok(s)) && NoDuplicates(Keys(systems))
    ensures accepted ==> keys == Keys(systems) && statuses.Keys == (set b | b in ids)
    ensures accepted ==> forall b | b in ids :: statuses[b] == Statuses(systems, b)
  {
    hide RecordKey, Statuses;
    accepted, keys, statuses := false, [], map b | b in ids :: [];
    ghost var all := Keys(systems);
    assert systems[..0] == [];
    forall b ensures Statuses([], b) == [] { EmptyStatuses(b); }
    for i := 0 to |systems|
      invariant keys == all[..i] && NoDuplicates(keys)
      invariant forall s | s in systems[..i] :: ok(s)
      invariant statuses.Keys == (set b | b in ids) && forall b | b in ids :: statuses[b] == Statuses(systems[..i], b)
    {
      var s := systems[i];
      if !ok(s) { return; }
      if KeyOf(s) in keys {
        assert all[i] in all[..i];
        return;
      }
      assert all[..i + 1] == all[..i] + [KeyOf(s)];
      assert systems[..i + 1] == systems[..i] + [s];
      forall b
        ensures Statuses(systems[..i + 1], b) ==
                Statuses(systems[..i], b) + if s.boundary == b then [s.configured] else []
      {
        StatusesStep(systems, i, b);
      }
      keys := keys + [KeyOf(s)];
      statuses := statuses[s.boundary := statuses[s.boundary] + [s.configured]];
    }
    assert all[..|systems|] == all && systems[..|systems|] == systems;
    accepted := true;
  }

  lemma EmptyStatuses(b: string)
    ensures Statuses([], b) == []
  {
  }

  method ScanSystems(c: BoundaryContract, systems: seq<System>, ok: System -> bool) returns (accepted: bool)
    requires ContractOk(c) && forall s | ok(s) :: HasBoundary(c, s.boundary)
    ensures accepted <==> SystemsOk(c, systems, ok)
  {
    hide StatusesOk, OrderOf, OrderLeq, RecordKey, Statuses, ContractOk;
    if !(|c.boundaries| <= |systems| <= MAX_RECORDS) { return false; }
    var ids := BoundaryIds(c.boundaries);
    var gathered, keys, statuses := GatherRecords(ids, systems, ok);
    if !gathered { return false; }
    if exists i | 0 <= i < |keys| :: OrderOf(c, keys[i]).0 < 0 { return false; }
    if exists i, j | 0 <= i < j < |keys| :: !OrderLeq(OrderOf(c, keys[i]), OrderOf(c, keys[j])) { return false; }
    RequiredKnown(c);
    accepted := (forall i | 0 <= i < |ids| :: ids[i] in statuses && StatusesOk(statuses[ids[i]])) &&
                (forall i | 0 <= i < |c.required| :: c.required[i] in statuses && false !in statuses[c.required[i]]);
    assert forall b | b in ids :: exists i :: 0 <= i < |ids| && ids[i] == b;
    assert forall b | b in c.required :: exists i :: 0 <= i < |c.required| && c.required[i] == b;
  }

  lemma RequiredKnown(c: BoundaryContract)
    requires ContractOk(c)
    ensures forall i | 0 <= i < |c.required| :: c.required[i] in BoundaryIds(c.boundaries)
  {
    forall i | 0 <= i < |c.required| ensures c.required[i] in BoundaryIds(c.boundaries) {
      assert c.required[i] in c.required;
    }
  }

  // ----- canonical order and partition ---------------------------------------------------

  /** Split and joined again, a record key is itself, whatever its boundary id looks like. */
  lemma {:induction false} SplitRejoins(b: string, system: string)
    ensures var parts := SplitKey(RecordKey(b, system)); RecordKey(parts.0, parts.1) == RecordKey(b, system)
    decreases |b|
  {
    var key := RecordKey(b, system);
    if b == "" || (key[0] == ':' && key[1] == ':') {
      assert key == "" + SEPARATOR + key[2..];
    } else {
      assert key[1..] == RecordKey(b[1..], system);
      SplitRejoins(b[1..], system);
      var rest := SplitKey(key[1..]);
      assert key == [key[0]] + key[1..];
      assert RecordKey([key[0]] + rest.0, rest.1) == [key[0]] + RecordKey(rest.0, rest.1);
    }
  }

  function Orders(c: BoundaryContract, systems: seq<System>): (r: seq<Order>)
    ensures |r| == |systems| && forall i | 0 <= i < |r| :: r[i] == OrderOf(c, KeyOf(systems[i]))
  {
    seq(|systems|, i requires 0 <= i < |systems| => OrderOf(c, KeyOf(systems[i])))
  }

  /** Keys that sort to the same place are the same key. */
  lemma SameOrderSameKey(c: BoundaryContract, s: System, t: System)
    requires OrderOf(c, KeyOf(s)) == OrderOf(c, KeyOf(t)) && OrderOf(c, KeyOf(s)).0 >= 0
    ensures KeyOf(s) == KeyOf(t)
  {
    hide SplitKey, RecordKey;
    SplitRejoins(s.boundary, s.system);
    SplitRejoins(t.boundary, t.system);
    var ids := BoundaryIds(c.boundaries);
    assert ids[OrderOf(c, KeyOf(s)).0] == SplitKey(KeyOf(s)).0 == SplitKey(KeyOf(t)).0;
  }

  lemma OrdersAscend(c: BoundaryContract, systems: seq<System>)
    requires InOrder(c, Keys(systems))
    ensures AscendingBy(Orders(c, systems), OrderLess)
  {
    hide OrderOf, RecordKey;
    OrderTotal();
    forall i, j | 0 <= i < j < |systems| ensures OrderLess(Orders(c, systems)[i], Orders(c, systems)[j]) {
      assert Keys(systems)[i] != Keys(systems)[j];
      assert OrderLeq(OrderOf(c, Keys(systems)[i]), OrderOf(c, Keys(systems)[j]));
      if OrderOf(c, KeyOf(systems[i])) == OrderOf(c, KeyOf(systems[j])) {
        SameOrderSameKey(c, systems[i], systems[j]);
      }
    }
  }

  /** The boundary a record key is read back as belonging to: the id up to its first "::", or without
      its last ":". */
  function ReadBack(b: string): string { SplitKey(RecordKey(b, "")).0 }

  lemma {:induction false} ReadBackOfKey(b: string, system: string)
    ensures SplitKey(RecordKey(b, system)).0 == ReadBack(b)
    decreases |b|
  {
    var key, bare := RecordKey(b, system), RecordKey(b, "");
    assert |b| > 0 ==> key[0] == bare[0] == b[0];
    assert key[1] == bare[1] == if |b| > 1 then b[1] else ':';
    if b != "" && !(key[0] == ':' && key[1] == ':') {
      assert key[1..] == RecordKey(b[1..], system) && bare[1..] == RecordKey(b[1..], "");
      ReadBackOfKey(b[1..], system);
    }
  }

  /** Simple ids are exactly those read back as themselves. */
  lemma SimpleIsReadBack(b: string)
    ensures SimpleId(b) <==> ReadBack(b) == b
  {
    hide SplitKey, SimpleId;
    SplitRecordKey(b, "");
    SplitRejoins(b, "");
  }

  /** Two accepted observations with the same records list them in the same order. */
  lemma RecordsCanonical(c: BoundaryContract, xs: seq<System>, ys: seq<System>, ok: System -> bool)
    requires SystemsOk(c, xs, ok) && SystemsOk(c, ys, ok)
    requires forall s :: s in xs <==> s in ys
    ensures xs == ys
  {
    hide OrderOf, RecordKey, StatusesOk, Statuses, OrderLess, OrderLeq;
    OrdersAscend(c, xs);
    OrdersAscend(c, ys);
    var a, b := Orders(c, xs), Orders(c, ys);
    OrdersCovered(c, xs, ys);
    OrdersCovered(c, ys, xs);
    OrderTotal();
    AscendingByUnique(a, b, OrderLess);
    forall i | 0 <= i < |xs| ensures xs[i] == ys[i] {
      assert a[i] == b[i];
      assert OrderOf(c, Keys(xs)[i]).0 >= 0;
      SameOrderSameKey(c, xs[i], ys[i]);
      RecordAtKey(ys, xs[i], i);
    }
  }

  lemma OrdersCovered(c: BoundaryContract, xs: seq<System>, ys: seq<System>)
    requires forall s | s in xs :: s in ys
    ensures forall o | o in Orders(c, xs) :: o in Orders(c, ys)
  {
    hide OrderOf, RecordKey;
    forall o | o in Orders(c, xs) ensures o in Orders(c, ys) {
      var i :| 0 <= i < |xs| && Orders(c, xs)[i] == o;
      assert xs[i] in ys;
      var j :| 0 <= j < |ys| && ys[j] == xs[i];
      assert Orders(c, ys)[j] == o;
    }
  }

  lemma RecordAtKey(ys: seq<System>, s: System, i: nat)
    requires NoDuplicates(Keys(ys)) && s in ys && i < |ys| && KeyOf(s) == KeyOf(ys[i])
    ensures ys[i] == s
  {
    hide RecordKey;
    var j :| 0 <= j < |ys| && ys[j] == s;
    assert Keys(ys)[i] == Keys(ys)[j];
  }

  /** Every boundary is covered; it is either one not-configured record or only configured ones,
      and the required boundaries are configured. */
  lemma RecordsPartition(c: BoundaryContract, systems: seq<System>, ok: System -> bool, b: string)
    requires ContractOk(c) && SystemsOk(c, systems, ok) && b in BoundaryIds(c.boundaries)
    ensures exists s :: s in systems && s.boundary == b
    ensures (forall s | s in systems && s.boundary == b :: s.configured) ||
            ((forall s | s in systems && s.boundary == b :: !s.configured) &&
             (forall i, j | 0 <= i < j < |systems| :: systems[i].boundary != b || systems[j].boundary != b))
    ensures b in c.required ==> forall s | s in systems && s.boundary == b :: s.configured
  {
    hide InOrder, ContractOk;
    StatusesMean(systems, b);
    assert StatusesOk(Statuses(systems, b));
  }

  lemma {:induction false} StatusesMean(systems: seq<System>, b: string)
    ensures Statuses(systems, b) == [] <==> forall i | 0 <= i < |systems| :: systems[i].boundary != b
    ensures false in Statuses(systems, b) <==>
              exists i :: 0 <= i < |systems| && systems[i].boundary == b && !systems[i].configured
    ensures |Statuses(systems, b)| <= 1 <==>
              forall i, j | 0 <= i < j < |systems| :: systems[i].boundary != b || systems[j].boundary != b
  {
    if systems != [] {
      var n := |systems| - 1;
      StatusesMean(systems[..n], b);
      assert forall i | 0 <= i < n :: systems[..n][i] == systems[i];
      var before := Statuses(systems[..n], b);
      assert Statuses(systems, b) == before + if systems[n].boundary == b then [systems[n].configured] else [];
    }
  }

  // ----- the evaluation ------------------------------------------------------------------

  datatype Observation = Observation(
    releaseCandidate: string, source: Source, environmentId: string, deploymentMode: string, os: string, arch: string,
    configurationSha: Digest, profileId: string, contractSha: Digest, maximum: int, startedAt: Micros, endedAt: Micros,
    operator: string, harness: string, systems: seq<System>)

  datatype Review = Review(
    releaseCandidate: string, source: Source, environmentId: string, profileId: string, observationSha: Digest,
    reviewer: string, reviewedAt: Micros, decision: string, attestationSha: Digest, recordKeys: seq<string>,
    checks: map<string, bool>, findings: seq<string>)

  datatype Report = Report(
    releaseCandidate: string, source: Source, environmentId: string, durationSeconds: int, failedSystems: seq<string>,
    observationSha: Digest, reviewSha: Digest, independent: bool, decision: string, allChecksPassed: bool,
    openFindings: nat, inventoryComplete: bool, eligible: bool, passed: bool, productionClaim: bool)

  /** Everything besides the records that the evaluation is run with. */
  datatype Setting = Setting(
    contract: BoundaryContract, contractSha: Digest, dispatch: Dispatch, checkIds: set<string>)

  const REMOTE_BACKUP := EXTERNAL + "remote-backup-copies"

  /** The guard validate_contract puts before every evaluation. */
  predicate ContractFits(x: Setting) {
    |x.contract.boundaries| == 6 && |x.checkIds| == 8 && REMOTE_BACKUP in x.contract.required
  }

  predicate DispatchBinds(d: Dispatch) {
    IsReleaseTag(d.releaseCandidate, 200) && IsCommit(d.commit) && IsTargetId(d.environment)
  }

  predicate ObservationBinds(o: Observation, x: Setting) {
    && DispatchBinds(x.dispatch)
    && o.releaseCandidate == x.dispatch.releaseCandidate && o.source == Source(x.dispatch.commit, false)
    && o.environmentId == x.dispatch.environment && o.deploymentMode == "single-node" && o.os == "linux"
    && o.arch == "x86_64"
    && o.configurationSha.Sha256? && o.profileId == x.contract.profileId
    && o.contractSha == x.contractSha && o.maximum == x.contract.maximum
    && StorageProfile.Seconds(o.endedAt, o.startedAt).Accept?
    && 0 < StorageProfile.Seconds(o.endedAt, o.startedAt).value <= MAX_EXERCISE
    && IsTargetId(o.operator) && IsTargetId(o.harness)
  }

  predicate ReviewBinds(r: Review, o: File<Observation>, x: Setting) {
    && r.releaseCandidate == x.dispatch.releaseCandidate && r.source == Source(x.dispatch.commit, false)
    && r.environmentId == o.value.environmentId && r.profileId == o.value.profileId
    && r.observationSha == o.Sha() && IsTargetId(r.reviewer)
    && StorageProfile.Seconds(r.reviewedAt, o.value.endedAt).Accept?
    && StorageProfile.Seconds(r.reviewedAt, o.value.endedAt).value <= StorageProfile.MAX_REVIEW_DELAY
    && (r.decision == "approved" || r.decision == "rejected")
    && r.recordKeys == Keys(o.value.systems) && r.checks.Keys == x.checkIds && AreCleanTexts(r.findings, 20, 300)
    && r.attestationSha.Sha256?
  }

  predicate SystemPassed(s: System, o: Observation, maximum: int) {
    s.configured && s.exercise.Some? ==>
      var v := ValidateExercise(s.exercise.value, s.mode, o.startedAt, o.endedAt, maximum);
      v.Accept? && v.value.passed
  }

  function FailedSystems(systems: seq<System>, o: Observation, maximum: int): (r: seq<string>)
    ensures r == [] <==> forall i | 0 <= i < |systems| :: SystemPassed(systems[i], o, maximum)
  {
    if systems == [] then []
    else
      var rest := FailedSystems(systems[1..], o, maximum);
      assert forall i | 1 <= i < |systems| :: systems[i] == systems[1..][i - 1];
      if SystemPassed(systems[0], o, maximum) then rest else [KeyOf(systems[0])] + rest
  }

  predicate RecordOk(s: System, o: Observation, x: Setting) {
    SystemOk(x.contract, s, o.startedAt, o.endedAt)
  }

  ghost predicate Accepted(o: File<Observation>, r: File<Review>, x: Setting) {
    && ContractFits(x) && ObservationBinds(o.value, x) && ReviewBinds(r.value, o, x)
    && SystemsOk(x.contract, o.value.systems, s => RecordOk(s, o.value, x))
  }

  function ReportOf(o: File<Observation>, r: File<Review>, x: Setting): Report
    requires ObservationBinds(o.value, x)
  {
    var ob, re := o.value, r.value;
    var failed := FailedSystems(ob.systems, ob, x.contract.maximum);
    var independent := Fold(re.reviewer) != Fold(ob.operator) && Fold(re.reviewer) != Fold(ob.harness);
    var approved := re.decision == "approved" && StorageProfile.AllTrue(re.checks) && re.findings == [];
    var eligible := failed == [] && independent && approved;
    Report(x.dispatch.releaseCandidate, ob.source, ob.environmentId,
           StorageProfile.Seconds(ob.endedAt, ob.startedAt).value, failed,
           o.Sha(), r.Sha(), independent, re.decision, StorageProfile.AllTrue(re.checks), |re.findings|, true,
           eligible, eligible, false)
  }

  method Evaluate(o: File<Observation>, r: File<Review>, x: Setting) returns (report: Outcome<Report>)
    requires ContractOk(x.contract)
    ensures report.Accept? <==> Accepted(o, r, x)
    ensures report.Accept? ==> report.value == ReportOf(o, r, x)
  {
    hide SystemsOk, ReviewBinds, FailedSystems, ContractOk;
    if !ContractFits(x) || !ObservationBinds(o.value, x) { return Reject; }
    forall s | RecordOk(s, o.value, x) ensures HasBoundary(x.contract, s.boundary) { }
    var scanned := ScanSystems(x.contract, o.value.systems, s => RecordOk(s, o.value, x));
    if !scanned || !ReviewBinds(r.value, o, x) { return Reject; }
    report := Accept(ReportOf(o, r, x));
  }

  /** An eligible report: every configured system had its data gone, an exact number of seconds after
      its mode's reference instant, within a target no larger than the contract maximum. */
  lemma EligibleDeletesInTime(o: File<Observation>, r: File<Review>, x: Setting, s: System)
    requires Accepted(o, r, x) && ReportOf(o, r, x).eligible && s in o.value.systems && s.configured
    ensures s.exercise.Some? && Reference(s.exercise.value, s.mode).Accept?
    ensures var e, reference := s.exercise.value, Reference(s.exercise.value, s.mode).value;
            && o.value.startedAt <= reference <= e.absentAt <= o.value.endedAt
            && e.absentAt - reference <= e.target * SECOND <= x.contract.maximum * SECOND
            && e.residual == 0 && e.tenantAccesses == 0
  {
    hide ObservationBinds, ReviewBinds, InOrder, StatusesOk, Statuses, ModeAllowed;
    assert RecordOk(s, o.value, x);
    ExerciseBounded(s.exercise.value, s.mode, o.value.startedAt, o.value.endedAt, x.contract.maximum);
    var i :| 0 <= i < |o.value.systems| && o.value.systems[i] == s;
    assert SystemPassed(s, o.value, x.contract.maximum);
  }

  /** The canary of an exercise was created, handled as its mode demands and gone in time. */
  predicate Deletes(e: Exercise, mode: Mode) {
    && Reference(e, mode).Accept? && e.absentAt - Reference(e, mode).value <= e.target * SECOND
    && e.created && e.actionAccepted && e.absent && e.absenceVerified && e.residual == 0 && e.tenantAccesses == 0
    && (e.discoverable <==> mode != ZeroRetention) && (e.earlyDenied <==> mode == ImmutableThenDelete)
    && (e.expiryObserved <==> IsRetention(mode))
  }

  lemma ExercisePasses(e: Exercise, mode: Mode, start: Micros, end: Micros, maximum: int)
    requires ValidateExercise(e, mode, start, end, maximum).Accept?
    ensures ValidateExercise(e, mode, start, end, maximum).value.passed <==> Deletes(e, mode)
  {
    StorageProfile.SecondsExact(e.absentAt, Reference(e, mode).value);
  }

  /** A report is eligible exactly when every configured system deleted its canary in time and an
      independent review approved it with every check true and nothing open. */
  lemma EligibleMeans(o: File<Observation>, r: File<Review>, x: Setting)
    requires Accepted(o, r, x)
    ensures ReportOf(o, r, x).eligible <==>
              && (forall s | s in o.value.systems && s.configured ::
                    s.exercise.Some? && Deletes(s.exercise.value, s.mode))
              && Fold(r.value.reviewer) !in {Fold(o.value.operator), Fold(o.value.harness)}
              && r.value.decision == "approved" && StorageProfile.AllTrue(r.value.checks) && r.value.findings == []
  {
    hide ReviewBinds, InOrder, StatusesOk, Statuses, ModeAllowed, ValidateExercise, Deletes, Fold, RecordKey;
    forall i | 0 <= i < |o.value.systems|
      ensures var s := o.value.systems[i];
              SystemPassed(s, o.value, x.contract.maximum) <==>
                  (s.configured ==> s.exercise.Some? && Deletes(s.exercise.value, s.mode))
    {
      var s := o.value.systems[i];
      assert s in o.value.systems;
      assert RecordOk(s, o.value, x);
      if s.configured {
        ExercisePasses(s.exercise.value, s.mode, o.value.startedAt, o.value.endedAt, x.contract.maximum);
      }
    }
    assert forall s | s in o.value.systems :: exists i :: 0 <= i < |o.value.systems| && o.value.systems[i] == s;
  }
}

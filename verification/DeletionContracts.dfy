/** Which contracts of scripts/external_deletion_qualification.py any observation can meet. */
module DeletionContracts {
  import opened Primitives
  import opened Campaign
  import opened ExternalDeletion
  import StorageProfile

  /** Every boundary id is read back from its record keys as some boundary. */
  ghost predicate Readable(c: BoundaryContract) {
    forall b | b in BoundaryIds(c.boundaries) :: HasBoundary(c, ReadBack(b))
  }

  /** Some mode of the boundary is for a configured system. */
  predicate Configurable(b: Boundary) { exists m | m in b.modes :: m != NotConfigured }

  predicate RequiredConfigurable(c: BoundaryContract) {
    forall i | 0 <= i < |c.boundaries| && c.boundaries[i].id in c.required :: Configurable(c.boundaries[i])
  }

  /** What a caller can check before any exercise is held. */
  ghost predicate Admits(x: Setting) {
    DispatchBinds(x.dispatch) && ContractFits(x) && Readable(x.contract) && RequiredConfigurable(x.contract)
  }

  // ----- accepted observations need it ---------------------------------------------------

  /** An accepted observation covers every boundary, so each must be read back as one. */
  lemma AcceptedIsReadable(c: BoundaryContract, systems: seq<System>, ok: System -> bool)
    requires SystemsOk(c, systems, ok)
    ensures Readable(c)
  {
    hide Statuses, SplitKey, RecordKey, OrderLeq;
    forall b | b in BoundaryIds(c.boundaries) ensures HasBoundary(c, ReadBack(b)) {
      StatusesMean(systems, b);
      assert StatusesOk(Statuses(systems, b));
      var i :| 0 <= i < |systems| && systems[i].boundary == b;
      assert OrderOf(c, Keys(systems)[i]).0 >= 0;
      ReadBackOfKey(b, systems[i].system);
    }
  }

  lemma ModeOfRecord(c: BoundaryContract, s: System, i: nat)
    requires ContractOk(c) && i < |c.boundaries| && s.boundary == c.boundaries[i].id
    ensures ModeAllowed(c, s) <==> s.mode in c.boundaries[i].modes
  {
    hide IsBoundaryId;
    var ids := BoundaryIds(c.boundaries);
    assert ids[i] == s.boundary;
    var j := IndexOf(ids, s.boundary);
    assert ids[j] == ids[i];
  }

  lemma AcceptedIsConfigurable(c: BoundaryContract, systems: seq<System>, start: Micros, end: Micros, i: nat)
    requires ContractOk(c) && SystemsOk(c, systems, s => SystemOk(c, s, start, end))
    requires i < |c.boundaries| && c.boundaries[i].id in c.required
    ensures Configurable(c.boundaries[i])
  {
    hide ContractOk, InOrder, Statuses, ValidateExercise, IsTargetId, IsStableId;
    var b := c.boundaries[i].id;
    StatusesMean(systems, b);
    assert BoundaryIds(c.boundaries)[i] == b;
    assert StatusesOk(Statuses(systems, b)) && false !in Statuses(systems, b);
    var j :| 0 <= j < |systems| && systems[j].boundary == b;
    assert systems[j] in systems && SystemOk(c, systems[j], start, end) && systems[j].configured;
    ModeOfRecord(c, systems[j], i);
  }

  // ----- one record per boundary ---------------------------------------------------------

  function SampleExercise(mode: Mode, at: Micros): Exercise {
    Exercise(at, at, at, if IsRetention(mode) then Some(at) else None, at, at, 1, true, mode != ZeroRetention,
             mode == ImmutableThenDelete, true, IsRetention(mode), true, true, 0, 0)
  }

  const SYSTEM := "system"

  /** A record for a boundary: a system that deletes at once, or nothing configured. */
  ghost function RecordFor(b: Boundary, at: Micros, bytes: Bytes): System {
    var sha := Sha256(bytes);
    if Configurable(b) then
      var mode :| mode in b.modes && mode != NotConfigured;
      System(b.id, SYSTEM, true, mode, sha, false, Some(sha), sha, Some(SampleExercise(mode, at)))
    else
      System(b.id, "none", false, NotConfigured, sha, true, None, sha, None)
  }

  ghost function RecordsFor(c: BoundaryContract, at: Micros, bytes: Bytes): (systems: seq<System>)
    ensures |systems| == |c.boundaries|
    ensures forall i | 0 <= i < |systems| :: systems[i] == RecordFor(c.boundaries[i], at, bytes)
  {
    seq(|c.boundaries|, i requires 0 <= i < |c.boundaries| => RecordFor(c.boundaries[i], at, bytes))
  }

  /** Six lower-case letters name no fixture. */
  lemma PlainTarget(s: string)
    requires |s| == 6 && forall i | 0 <= i < |s| :: 'a' <= s[i] <= 'z'
    ensures IsTargetId(s) && Fold(s) == s && ':' !in s
  {
    assert Fold(s) == s;
    OneWord(s, c => c in "._:@-");
    assert forall w | w in FIXTURE_WORDS :: |w| != 6;
  }

  lemma SystemNames()
    ensures IsTargetId(SYSTEM) && IsStableId("none") && SYSTEM != "none"
    ensures ':' !in SYSTEM && ':' !in "none" && NoSeparator(SYSTEM) && NoSeparator("none")
  {
    hide IsTargetId;
    PlainTarget(SYSTEM);
    assert |SYSTEM| != |"none"|;
  }

  lemma {:induction false} OneWord(s: string, cut: char -> bool)
    requires forall i | 0 <= i < |s| :: !cut(s[i])
    ensures SplitWhere(s, cut) == [s]
  {
    if s != "" {
      OneWord(s[1..], cut);
      assert s == [s[0]] + s[1..];
    }
  }

  lemma RecordIsOk(c: BoundaryContract, i: nat, at: Micros, bytes: Bytes)
    requires ContractOk(c) && i < |c.boundaries|
    ensures var s := RecordFor(c.boundaries[i], at, bytes);
            && SystemOk(c, s, at, at + SECOND) && s.boundary == c.boundaries[i].id && ':' !in s.system
            && (s.configured <==> Configurable(c.boundaries[i]))
            && (s.configured ==> ExercisePassed(s, at, c.maximum))
  {
    hide IsTargetId, IsStableId, NoSeparator, SYSTEM, IsBoundaryId;
    SystemNames();
    ModeOfRecord(c, RecordFor(c.boundaries[i], at, bytes), i);
  }

  predicate ExercisePassed(s: System, at: Micros, maximum: int) {
    && s.exercise.Some?
    && ValidateExercise(s.exercise.value, s.mode, at, at + SECOND, maximum).Accept?
    && ValidateExercise(s.exercise.value, s.mode, at, at + SECOND, maximum).value.passed
  }

  // ----- listing the records -------------------------------------------------------------

  function BySortKey(c: BoundaryContract): (System, System) -> bool {
    (s: System, t: System) => OrderLeq(OrderOf(c, KeyOf(s)), OrderOf(c, KeyOf(t)))
  }

  lemma SortKeyOrder(c: BoundaryContract)
    ensures TotalPreorder(BySortKey(c))
  {
    hide OrderOf, OrderLess, KeyOf;
    OrderTotal();
  }

  /** One acceptable record per boundary, configured where the contract demands it. */
  ghost predicate OnePerBoundary(c: BoundaryContract, systems: seq<System>, ok: System -> bool) {
    && |systems| == |c.boundaries|
    && (forall i | 0 <= i < |systems| ::
          && ok(systems[i]) && systems[i].boundary == c.boundaries[i].id && ':' !in systems[i].system
          && (systems[i].boundary in c.required ==> systems[i].configured))
  }

  /** In a readable contract, one record per boundary can be listed so that it is accepted. */
  lemma ReadableIsAccepted(c: BoundaryContract, systems: seq<System>, ok: System -> bool)
    requires ContractOk(c) && Readable(c) && OnePerBoundary(c, systems, ok)
    ensures SystemsOk(c, Sort(systems, BySortKey(c)), ok)
    ensures forall s :: s in Sort(systems, BySortKey(c)) <==> s in systems
  {
    hide OrderOf, OrderLeq, Statuses, KeyOf, ContractOk, Readable, BySortKey, OnePerBoundary, InOrder, StatusesOk;
    var sorted := Sort(systems, BySortKey(c));
    SortPermutes(systems, BySortKey(c));
    PermutationFacts(sorted, systems);
    DistinctRecords(c, systems, ok);
    PermutationKeepsDistinct(systems, sorted);
    forall s | s in sorted ensures ok(s) { RecordFacts(c, systems, ok, s); }
    SortedInOrder(c, systems, ok);
    forall b | b in BoundaryIds(c.boundaries)
      ensures StatusesOk(Statuses(sorted, b)) && (b in c.required ==> false !in Statuses(sorted, b))
    {
      OneStatus(c, systems, sorted, ok, b);
    }
    RequiredKnown(c);
    assert forall b | b in c.required :: exists i :: 0 <= i < |c.required| && c.required[i] == b;
    SizesFit(c, systems, ok);
  }

  lemma SizesFit(c: BoundaryContract, systems: seq<System>, ok: System -> bool)
    requires ContractOk(c) && OnePerBoundary(c, systems, ok)
    ensures |c.boundaries| <= |systems| <= MAX_RECORDS
  {
    hide IsBoundaryId;
  }

  lemma RecordFacts(c: BoundaryContract, systems: seq<System>, ok: System -> bool, s: System)
    requires OnePerBoundary(c, systems, ok) && s in systems
    ensures ok(s) && HasBoundary(c, s.boundary) && ':' !in s.system && (s.boundary in c.required ==> s.configured)
  {
    var i :| 0 <= i < |systems| && systems[i] == s;
    assert BoundaryIds(c.boundaries)[i] == s.boundary;
  }

  lemma SortedInOrder(c: BoundaryContract, systems: seq<System>, ok: System -> bool)
    requires ContractOk(c) && Readable(c) && OnePerBoundary(c, systems, ok)
    ensures InOrder(c, Keys(Sort(systems, BySortKey(c))))
  {
    hide OrderOf, OrderLeq, KeyOf, ContractOk, Readable, OnePerBoundary;
    var sorted := Sort(systems, BySortKey(c));
    SortKeyOrder(c);
    SortOrders(systems, BySortKey(c));
    SortPermutes(systems, BySortKey(c));
    PermutationFacts(sorted, systems);
    DistinctRecords(c, systems, ok);
    PermutationKeepsDistinct(systems, sorted);
    forall i, j | 0 <= i < j < |sorted| ensures Keys(sorted)[i] != Keys(sorted)[j] {
      assert sorted[i] in sorted && sorted[j] in sorted;
      DifferentKeys(c, systems, ok, sorted[i], sorted[j]);
    }
    forall i | 0 <= i < |sorted| ensures OrderOf(c, Keys(sorted)[i]).0 >= 0 {
      assert sorted[i] in sorted;
      RecordFacts(c, systems, ok, sorted[i]);
      ReadableOrder(c, sorted[i]);
    }
    forall i, j | 0 <= i < j < |sorted| ensures OrderLeq(OrderOf(c, Keys(sorted)[i]), OrderOf(c, Keys(sorted)[j])) {
      assert BySortKey(c)(sorted[i], sorted[j]);
    }
  }

  lemma OneStatus(c: BoundaryContract, systems: seq<System>, sorted: seq<System>, ok: System -> bool, b: string)
    requires ContractOk(c) && OnePerBoundary(c, systems, ok) && b in BoundaryIds(c.boundaries)
    requires NoDuplicates(sorted) && forall s :: s in sorted <==> s in systems
    ensures StatusesOk(Statuses(sorted, b)) && (b in c.required ==> false !in Statuses(sorted, b))
  {
    hide Statuses, IsBoundaryId;
    StatusesMean(sorted, b);
    var i :| 0 <= i < |systems| && BoundaryIds(c.boundaries)[i] == b;
    assert systems[i] in sorted;
    forall m, n | 0 <= m < n < |sorted| ensures sorted[m].boundary != b || sorted[n].boundary != b {
      assert sorted[m] in systems && sorted[n] in systems;
      SameBoundary(c, systems, ok, sorted[m], sorted[n]);
    }
    forall s | s in sorted ensures s.boundary in c.required ==> s.configured { RecordFacts(c, systems, ok, s); }
  }

  lemma SameBoundary(c: BoundaryContract, systems: seq<System>, ok: System -> bool, s: System, t: System)
    requires ContractOk(c) && OnePerBoundary(c, systems, ok) && s in systems && t in systems
    ensures s.boundary == t.boundary ==> s == t
  {
    hide IsBoundaryId;
    var i :| 0 <= i < |systems| && systems[i] == s;
    var j :| 0 <= j < |systems| && systems[j] == t;
    assert i == j || BoundaryIds(c.boundaries)[i] != BoundaryIds(c.boundaries)[j];
  }

  lemma DistinctRecords(c: BoundaryContract, systems: seq<System>, ok: System -> bool)
    requires ContractOk(c) && OnePerBoundary(c, systems, ok)
    ensures NoDuplicates(systems)
  {
    hide IsBoundaryId;
    forall i, j | 0 <= i < j < |systems| ensures systems[i] != systems[j] {
      assert BoundaryIds(c.boundaries)[i] != BoundaryIds(c.boundaries)[j];
    }
  }

  lemma DifferentKeys(c: BoundaryContract, systems: seq<System>, ok: System -> bool, s: System, t: System)
    requires ContractOk(c) && OnePerBoundary(c, systems, ok) && s in systems && t in systems && s != t
    ensures KeyOf(s) != KeyOf(t)
  {
    hide ContractOk, OnePerBoundary, RecordKey;
    SameBoundary(c, systems, ok, s, t);
    RecordFacts(c, systems, ok, s);
    RecordFacts(c, systems, ok, t);
    KeyDecidesBoundary(s.boundary, s.system, t.boundary, t.system);
  }

  lemma KeyDecidesBoundary(a: string, m: string, b: string, n: string)
    requires ':' !in m && ':' !in n
    ensures RecordKey(a, m) == RecordKey(b, n) ==> a == b
  {
    var x, y := RecordKey(a, m), RecordKey(b, n);
    assert x[..|a|] == a && y[..|b|] == b;
    assert |x| == |a| + 2 + |m| && |y| == |b| + 2 + |n|;
    assert x[|a| + 1] == ':' && y[|b| + 1] == ':';
    assert forall i | |a| + 2 <= i < |x| :: x[i] == m[i - |a| - 2];
    assert forall i | |b| + 2 <= i < |y| :: y[i] == n[i - |b| - 2];
  }

  lemma ReadableOrder(c: BoundaryContract, s: System)
    requires Readable(c) && HasBoundary(c, s.boundary)
    ensures OrderOf(c, KeyOf(s)).0 >= 0
  {
    hide SplitKey, RecordKey;
    ReadBackOfKey(s.boundary, s.system);
  }

  // ----- the exact condition -------------------------------------------------------------

  /** An observation and a review that an admitting contract accepts, and that clear. */
  ghost function ObservationFor(x: Setting, at: Micros, bytes: Bytes): File<Observation> {
    var d, sha := x.dispatch, Sha256(bytes);
    var systems := Sort(RecordsFor(x.contract, at, bytes), BySortKey(x.contract));
    File(bytes, Observation(d.releaseCandidate, Source(d.commit, false), d.environment, "single-node", "linux",
                            "x86_64", sha, x.contract.profileId, x.contractSha, x.contract.maximum, at, at + SECOND,
                            SYSTEM, SYSTEM, systems))
  }

  const REVIEWER := "person"

  ghost function ReviewFor(x: Setting, at: Micros, bytes: Bytes, reviewBytes: Bytes): File<Review> {
    var d, o := x.dispatch, ObservationFor(x, at, bytes);
    File(reviewBytes, Review(d.releaseCandidate, Source(d.commit, false), d.environment, x.contract.profileId, o.Sha(),
                             REVIEWER, at + SECOND,
                             "approved", Sha256(bytes), Keys(o.value.systems), AllTrueOf(x.checkIds), []))
  }

  lemma SystemsAccepted(x: Setting, at: Micros, bytes: Bytes)
    requires ContractOk(x.contract) && Admits(x)
    ensures var o := ObservationFor(x, at, bytes).value;
            && SystemsOk(x.contract, o.systems, s => RecordOk(s, o, x))
            && forall s :: s in o.systems <==> s in RecordsFor(x.contract, at, bytes)
  {
    hide ContractOk, Readable, SystemsOk, SystemOk, DispatchBinds, RecordFor, BySortKey;
    var c, o := x.contract, ObservationFor(x, at, bytes).value;
    var systems := RecordsFor(c, at, bytes);
    var ok := s => RecordOk(s, o, x);
    forall i | 0 <= i < |systems|
      ensures ok(systems[i]) && systems[i].boundary == c.boundaries[i].id && ':' !in systems[i].system
      ensures systems[i].boundary in c.required ==> systems[i].configured
    {
      RecordIsOk(c, i, at, bytes);
    }
    ReadableIsAccepted(c, systems, ok);
  }

  lemma AllPass(x: Setting, at: Micros, bytes: Bytes)
    requires ContractOk(x.contract) && Admits(x)
    ensures FailedSystems(ObservationFor(x, at, bytes).value.systems, ObservationFor(x, at, bytes).value,
                          x.contract.maximum) == []
  {
    hide ContractOk, Admits, SystemsOk, RecordFor, BySortKey, ValidateExercise, SystemOk;
    var c, o := x.contract, ObservationFor(x, at, bytes).value;
    SystemsAccepted(x, at, bytes);
    forall i | 0 <= i < |o.systems| ensures SystemPassed(o.systems[i], o, c.maximum) {
      assert o.systems[i] in o.systems;
      var j :| 0 <= j < |c.boundaries| && o.systems[i] == RecordsFor(c, at, bytes)[j];
      RecordIsOk(c, j, at, bytes);
    }
  }

  lemma ReviewerNames()
    ensures IsTargetId(REVIEWER) && Fold(REVIEWER) != Fold(SYSTEM)
  {
    hide IsTargetId;
    PlainTarget(REVIEWER);
    PlainTarget(SYSTEM);
    assert REVIEWER[0] == 'p' && SYSTEM[0] == 's';
  }

  lemma AdmittedIsAccepted(x: Setting, at: Micros, bytes: Bytes, reviewBytes: Bytes)
    requires ContractOk(x.contract) && Admits(x)
    ensures Accepted(ObservationFor(x, at, bytes), ReviewFor(x, at, bytes, reviewBytes), x)
    ensures ReportOf(ObservationFor(x, at, bytes), ReviewFor(x, at, bytes, reviewBytes), x).eligible
  {
    hide ContractOk, Readable, SystemsOk, RecordFor, BySortKey, DispatchBinds, RecordsFor, FailedSystems, Keys;
    hide IsTargetId, SYSTEM, REVIEWER, Fold;
    SystemsAccepted(x, at, bytes);
    AllPass(x, at, bytes);
    SystemNames();
    ReviewerNames();
    assert AllTrueOf(x.checkIds).Keys == x.checkIds;
    StorageProfile.SecondsExact(at + SECOND, at);
    StorageProfile.SecondsExact(at + SECOND, at + SECOND);
  }

  /** An evaluation accepts some observation exactly when the dispatch and the guard are met, every
      boundary id is read back as one of the ids, and every required boundary has a mode for a
      configured system. Then some observation even clears. */
  lemma ContractAdmits(x: Setting)
    requires ContractOk(x.contract)
    ensures (exists o, r :: Accepted(o, r, x)) <==> Admits(x)
    ensures Admits(x) ==> exists o, r :: Accepted(o, r, x) && ReportOf(o, r, x).eligible
    ensures (forall b | b in BoundaryIds(x.contract.boundaries) :: SimpleId(b)) ==> Readable(x.contract)
  {
    hide ContractOk, SystemsOk, ReadBack, SimpleId, ContractFits, ReviewBinds, DispatchBinds, ReportOf;
    if o, r :| Accepted(o, r, x) {
      AcceptedIsReadable(x.contract, o.value.systems, s => RecordOk(s, o.value, x));
      forall i | 0 <= i < |x.contract.boundaries| && x.contract.boundaries[i].id in x.contract.required
        ensures Configurable(x.contract.boundaries[i])
      {
        SameRecords(o, r, x);
        AcceptedIsConfigurable(x.contract, o.value.systems, o.value.startedAt, o.value.endedAt, i);
      }
    }
    if Admits(x) { AdmittedIsAccepted(x, 0, [1], [2]); }
    forall b ensures SimpleId(b) <==> ReadBack(b) == b { SimpleIsReadBack(b); }
  }

  lemma SameRecords(o: File<Observation>, r: File<Review>, x: Setting)
    requires Accepted(o, r, x)
    ensures SystemsOk(x.contract, o.value.systems, s => SystemOk(x.contract, s, o.value.startedAt, o.value.endedAt))
  {
    hide InOrder, StatusesOk, Statuses, ContractFits, ObservationBinds, ReviewBinds, SystemOk;
  }

  // ----- contracts that load ---------------------------------------------------------------

  function Named(id: string, mode: Mode): RawBoundary { RawBoundary(EXTERNAL + id, [mode]) }

  /** A contract file with the six boundaries the guard asks for; only the backup is required. */
  function SixBoundaries(backup: Mode, last: string): RawContract {
    var boundaries := [RawBoundary(REMOTE_BACKUP, [backup]), Named("a", DeleteApi), Named("b", DeleteApi),
                       Named("c", DeleteApi), Named("d", DeleteApi), Named(last, DeleteApi)];
    RawContract(1, SYSTEM, 1, boundaries, [REMOTE_BACKUP])
  }

  predicate Word(s: string) { s != "" && forall i | 0 <= i < |s| :: 'a' <= s[i] <= 'z' || s[i] == '-' || s[i] == ':' }

  lemma ExternalIds(s: string)
    requires Word(s) && |s| <= 80
    ensures IsBoundaryId(EXTERNAL + s) && (EXTERNAL + s)[|EXTERNAL|..] == s
  {
    var id := EXTERNAL + s;
    assert forall i | 0 <= i < |id| :: id[i] == if i < 9 then EXTERNAL[i] else s[i - 9];
  }

  lemma SixIds(backup: Mode, last: string)
    requires last == "e" || last == "e:"
    ensures var ids := RawIds(SixBoundaries(backup, last).boundaries);
            && ids == [REMOTE_BACKUP, EXTERNAL + "a", EXTERNAL + "b", EXTERNAL + "c", EXTERNAL + "d", EXTERNAL + last]
            && NoDuplicates(ids) && forall i | 0 <= i < 6 :: IsBoundaryId(ids[i])
  {
    hide IsBoundaryId, EXTERNAL;
    ExternalIds("remote-backup-copies");
    ExternalIds("a");
    ExternalIds("b");
    ExternalIds("c");
    ExternalIds("d");
    ExternalIds(last);
    var ids := RawIds(SixBoundaries(backup, last).boundaries);
    assert |"remote-backup-copies"| == 20 && |last| <= 2 && last[0] == 'e';
    assert "a"[0] == 'a' && "b"[0] == 'b' && "c"[0] == 'c' && "d"[0] == 'd';
  }

  lemma TargetIsStable(s: string)
    requires IsTargetId(s)
    ensures IsStableId(s)
  {
    hide IsStableId;
  }

  lemma SixLoad(backup: Mode, last: string)
    requires (last == "e" || last == "e:") && !backup.OtherMode?
    ensures Loads(SixBoundaries(backup, last))
    ensures ContractOk(LoadedFrom(SixBoundaries(backup, last)))
  {
    hide IsBoundaryId, EXTERNAL, ContractOk, SYSTEM, IsStableId, IsTargetId;
    SystemNames();
    TargetIsStable(SYSTEM);
    var raw := SixBoundaries(backup, last);
    SixIds(backup, last);
    forall i | 0 <= i < 6 ensures BoundaryOk(raw.boundaries[i]) {
      assert RawIds(raw.boundaries)[i] == raw.boundaries[i].id;
    }
    assert RawIds(raw.boundaries)[0] == REMOTE_BACKUP;
    LoadedIsOk(raw);
  }

  lemma SimpleExternal(s: string)
    requires Word(s) && SimpleId(s)
    ensures SimpleId(EXTERNAL + s)
  {
    var id := EXTERNAL + s;
    assert forall i | 0 <= i < |id| :: id[i] == if i < 9 then EXTERNAL[i] else s[i - 9];
    assert EXTERNAL[8] == '/' && forall i | 0 <= i < 9 :: EXTERNAL[i] != ':';
    forall i | 0 <= i < |id| - 1 ensures !(id[i] == ':' && id[i + 1] == ':') {
      if i >= 9 { assert !(s[i - 9] == ':' && s[i - 8] == ':'); }
    }
  }

  lemma SixReadable(backup: Mode, last: string)
    requires last == "e" || last == "e:"
    ensures Readable(LoadedFrom(SixBoundaries(backup, last))) <==> last == "e"
  {
    hide SplitKey, EXTERNAL, IsBoundaryId, SimpleId;
    var raw := SixBoundaries(backup, last);
    var c := LoadedFrom(raw);
    SixIds(backup, last);
    var ids := BoundaryIds(c.boundaries);
    assert ids == RawIds(raw.boundaries);
    SimpleWords();
    forall i | 0 <= i < 5 ensures ReadBack(ids[i]) == ids[i] { SimpleIsReadBack(ids[i]); }
    if last == "e" {
      SimpleIsReadBack(ids[5]);
    } else {
      ColonReadBack(EXTERNAL + "e");
      assert EXTERNAL + "e" + ":" == ids[5] && ids[5] in ids;
      ExternalIds("e");
      assert "a"[0] == 'a' && "b"[0] == 'b' && "c"[0] == 'c' && "d"[0] == 'd' && "e"[0] == 'e' && |"e"| == 1;
      assert |"remote-backup-copies"| == 20;
      assert forall i | 0 <= i < 6 :: ids[i] != EXTERNAL + "e";
    }
  }

  lemma SimpleWords()
    ensures SimpleId(REMOTE_BACKUP) && SimpleId(EXTERNAL + "a") && SimpleId(EXTERNAL + "b") && SimpleId(EXTERNAL + "c")
    ensures SimpleId(EXTERNAL + "d") && SimpleId(EXTERNAL + "e")
  {
    hide EXTERNAL;
    SimpleExternal("remote-backup-copies");
    SimpleExternal("a");
    SimpleExternal("b");
    SimpleExternal("c");
    SimpleExternal("d");
    SimpleExternal("e");
  }

  /** A final ":" of a simple id is lost. */
  lemma ColonReadBack(a: string)
    requires SimpleId(a)
    ensures ReadBack(a + ":") == a
  {
    hide SplitKey, SimpleId;
    SimpleIsReadBack(a);
    ReadBackOfKey(a, ":");
    assert RecordKey(a, ":") == a + ":::";
    assert RecordKey(a + ":", "") == a + ":::";
  }

  /** Two contract files that load and pass the guard, and under which every observation is refused
      whatever was done: one id ends in ":", or the required boundary can only be not configured. The
      same file without either fault accepts some observation. */
  lemma UnmeetableContracts(d: Dispatch, sha: Digest, checkIds: set<string>)
    requires DispatchBinds(d) && |checkIds| == 8
    ensures var raw := SixBoundaries(DeleteApi, "e:");
            Loads(raw) && forall o, r :: !Accepted(o, r, Setting(LoadedFrom(raw), sha, d, checkIds))
    ensures var raw := SixBoundaries(NotConfigured, "e");
            Loads(raw) && forall o, r :: !Accepted(o, r, Setting(LoadedFrom(raw), sha, d, checkIds))
    ensures var raw := SixBoundaries(DeleteApi, "e");
            Loads(raw) && exists o, r :: Accepted(o, r, Setting(LoadedFrom(raw), sha, d, checkIds))
  {
    hide Accepted, Loads, ContractOk, DispatchBinds, Readable;
    SixAdmit(DeleteApi, "e:", d, sha, checkIds);
    SixAdmit(NotConfigured, "e", d, sha, checkIds);
    SixAdmit(DeleteApi, "e", d, sha, checkIds);
  }

  lemma SixAdmit(backup: Mode, last: string, d: Dispatch, sha: Digest, checkIds: set<string>)
    requires (last == "e" || last == "e:") && !backup.OtherMode? && DispatchBinds(d) && |checkIds| == 8
    ensures var raw := SixBoundaries(backup, last);
            var x := Setting(LoadedFrom(raw), sha, d, checkIds);
            && Loads(raw) && ContractOk(x.contract) && (Admits(x) <==> last == "e" && backup != NotConfigured)
            && ((exists o, r :: Accepted(o, r, x)) <==> Admits(x))
  {
    hide Accepted, Loads, ContractOk, DispatchBinds, Readable, REMOTE_BACKUP, EXTERNAL;
    var raw := SixBoundaries(backup, last);
    var c := LoadedFrom(raw);
    SixLoad(backup, last);
    SixReadable(backup, last);
    SixConfigurable(backup, last);
    ContractAdmits(Setting(c, sha, d, checkIds));
  }

  lemma SixConfigurable(backup: Mode, last: string)
    ensures RequiredConfigurable(LoadedFrom(SixBoundaries(backup, last))) <==> backup != NotConfigured
  {
    hide REMOTE_BACKUP, EXTERNAL;
    var c := LoadedFrom(SixBoundaries(backup, last));
    assert c.boundaries[0].id == REMOTE_BACKUP && c.boundaries[0].modes == {backup};
    forall i | 1 <= i < 6 ensures c.boundaries[i].modes == {DeleteApi} { }
    assert forall i | 1 <= i < 6 :: DeleteApi in c.boundaries[i].modes;
    assert backup in c.boundaries[0].modes;
  }
}

/** Shared vocabulary of the evidence pipeline: outcomes, the character classes behind the
    identifier patterns, text order, sorting, digests and time. */
module Primitives {

  datatype Option<+T> = None | Some(value: T)

  /** A raised qualification error is `Reject`; it is kept apart from an accepted record that
      carries blockers. */
  datatype Outcome<+T> = Reject | Accept(value: T) {
    predicate IsFailure() { Reject? }
    function PropagateFailure<U>(): Outcome<U> requires Reject? { Reject }
    function Extract(): T requires Accept? { value }
  }

  // ----- time: microseconds since the epoch ----------------------------------------------

  type Micros = int
  const SECOND: Micros := 1_000_000
  const CLOCK_SKEW: Micros := 5 * 60 * SECOND
  const THIRTY_DAYS: Micros := 30 * 24 * 60 * 60 * SECOND

  // ----- bytes and digests ---------------------------------------------------------------

  type Bytes = seq<bv8>

  /** A digest field of a record. Hashing is the free constructor `Sha256`, so two inputs with
      the same digest are the same bytes; a field that is not 64 lower-case hex digits is
      `Malformed`. */
  datatype Digest = Sha256(of: Bytes) | Malformed(text: string)

  /** A file that was read: its bytes and the record decoded from them. */
  datatype File<+T> = File(bytes: Bytes, value: T)
  {
    function Sha(): Digest { Sha256(bytes) }
  }

  // ----- character classes ---------------------------------------------------------------

  predicate IsDigit(c: char) { '0' <= c <= '9' }
  predicate IsAlnum(c: char) { IsDigit(c) || 'a' <= c <= 'z' || 'A' <= c <= 'Z' }
  predicate IsIdChar(c: char) { IsAlnum(c) || c in "._:/-" }
  predicate IsLowerHex(c: char) { IsDigit(c) || 'a' <= c <= 'f' }

  predicate AllIdChars(s: string) { forall i | 0 <= i < |s| :: IsIdChar(s[i]) }

  const MAX_IDENTIFIER: nat := 128

  predicate IsIdentifier(s: string) {
    0 < |s| <= MAX_IDENTIFIER && IsAlnum(s[0]) && AllIdChars(s)
  }

  predicate IsCommit(s: string) {
    |s| == 40 && forall i | 0 <= i < |s| :: IsLowerHex(s[i])
  }

  /** A human GitHub login. */
  predicate IsLogin(s: string) {
    0 < |s| <= 39 && IsAlnum(s[0]) && forall i | 0 <= i < |s| :: IsAlnum(s[i]) || s[i] == '-'
  }

  predicate IsRepositoryPart(s: string) {
    0 < |s| <= 100 && IsAlnum(s[0]) && forall i | 0 <= i < |s| :: IsAlnum(s[i]) || s[i] in "._-"
  }

  /** owner/name */
  predicate IsRepository(s: string) {
    exists i | 0 <= i < |s| :: s[i] == '/' && IsRepositoryPart(s[..i]) && IsRepositoryPart(s[i + 1..])
  }

  /** First index at or after `i` that does not hold a digit. */
  function SkipDigits(s: string, i: nat): (j: nat)
    requires i <= |s|
    ensures i <= j <= |s|
    ensures forall k | i <= k < j :: IsDigit(s[k])
    ensures j < |s| ==> !IsDigit(s[j])
    decreases |s| - i
  {
    if i < |s| && IsDigit(s[i]) then SkipDigits(s, i + 1) else i
  }

  /** vX.Y.Z-rc.N with N free of a leading zero. */
  predicate IsReleaseCandidate(s: string) {
    0 < |s| && s[0] == 'v' &&
    var a := SkipDigits(s, 1);
    1 < a < |s| && s[a] == '.' &&
    var b := SkipDigits(s, a + 1);
    a + 1 < b < |s| && s[b] == '.' &&
    var c := SkipDigits(s, b + 1);
    b + 1 < c && c + 4 < |s| && s[c..c + 4] == "-rc." &&
    '1' <= s[c + 4] <= '9' && SkipDigits(s, c + 4) == |s|
  }

  /** vX.Y.Z. */
  predicate IsRelease(s: string) {
    0 < |s| && s[0] == 'v' &&
    var a := SkipDigits(s, 1);
    1 < a < |s| && s[a] == '.' &&
    var b := SkipDigits(s, a + 1);
    a + 1 < b < |s| && s[b] == '.' && b + 1 < |s| && SkipDigits(s, b + 1) == |s|
  }

  /** The tags the evaluators take: a release or a release candidate, within their text bound. */
  predicate IsReleaseTag(s: string, maximum: nat) { |s| <= maximum && (IsRelease(s) || IsReleaseCandidate(s)) }

  lemma ReleaseCandidateChars(s: string)
    requires IsReleaseCandidate(s)
    ensures AllIdChars(s)
  {
    var a := SkipDigits(s, 1);
    var b := SkipDigits(s, a + 1);
    var c := SkipDigits(s, b + 1);
    forall i | 0 <= i < |s| ensures IsIdChar(s[i]) {
      if c <= i < c + 4 {
        assert s[i] == s[c..c + 4][i - c];
      }
    }
  }

  lemma RepositoryIsIdentifier(s: string)
    requires IsRepository(s)
    ensures 3 <= |s| && IsAlnum(s[0]) && AllIdChars(s)
    ensures IsIdentifier(s) <==> |s| <= MAX_IDENTIFIER
  {
    var i :| 0 <= i < |s| && s[i] == '/' && IsRepositoryPart(s[..i]) && IsRepositoryPart(s[i + 1..]);
    forall k | 0 <= k < |s| ensures IsIdChar(s[k]) {
      if k < i {
        assert s[k] == s[..i][k];
      } else if k > i {
        assert s[k] == s[i + 1..][k - i - 1];
      }
    }
    assert s[0] == s[..i][0];
  }

  lemma LoginIsIdentifier(s: string)
    requires IsLogin(s)
    ensures IsIdentifier(s)
  {
  }

  /** Size in bytes of the UTF-8 encoding. */
  function Utf8Size(s: string): (n: nat)
    ensures n >= |s|
  {
    if s == [] then 0
    else
      var c := s[0] as int;
      (if c < 0x80 then 1 else if c < 0x800 then 2 else if c < 0x1_0000 then 3 else 4) + Utf8Size(s[1..])
  }

  lemma {:induction false} AsciiSize(s: string)
    requires forall i | 0 <= i < |s| :: s[i] as int < 0x80
    ensures Utf8Size(s) == |s|
  {
    if s != "" {
      AsciiSize(s[1..]);
    }
  }

  predicate IsBoundedText(s: string, maximum: nat) { s != "" && Utf8Size(s) <= maximum }

  predicate IsSpace(c: char) {
    var n := c as int;
    9 <= n <= 13 || 28 <= n <= 32 || n == 0x85 || n == 0xA0 || n == 0x1680 || 0x2000 <= n <= 0x200A ||
    n == 0x2028 || n == 0x2029 || n == 0x202F || n == 0x205F || n == 0x3000
  }

  function Strip(s: string): string {
    if s == "" then ""
    else if IsSpace(s[0]) then Strip(s[1..])
    else if IsSpace(s[|s| - 1]) then Strip(s[..|s| - 1])
    else s
  }

  /** What the evaluators accept as a text field: trimmed, bounded and without control characters. */
  predicate IsCleanText(s: string, maximum: nat) {
    && 0 < |s| <= maximum && !IsSpace(s[0]) && !IsSpace(s[|s| - 1])
    && forall i | 0 <= i < |s| :: s[i] as int >= 0x20
  }

  predicate AreCleanTexts(texts: seq<string>, count: nat, maximum: nat) {
    |texts| <= count && forall i | 0 <= i < |texts| :: IsCleanText(texts[i], maximum)
  }

  /** The parts of a text between the characters that `cut` picks. */
  function SplitWhere(s: string, cut: char -> bool): (parts: seq<string>)
    ensures parts != []
  {
    if s == "" then [""]
    else
      var rest := SplitWhere(s[1..], cut);
      if cut(s[0]) then [""] + rest else [[s[0]] + rest[0]] + rest[1..]
  }

  /** Case folding. Every folded value has already matched an ASCII pattern, so folding is the
      ASCII lower-case map. */
  function FoldChar(c: char): char {
    if 'A' <= c <= 'Z' then (c as int + 32) as char else c
  }

  function Fold(s: string): (f: string)
    ensures |f| == |s|
    ensures forall i | 0 <= i < |s| :: f[i] == FoldChar(s[i])
  {
    seq(|s|, i requires 0 <= i < |s| => FoldChar(s[i]))
  }

  predicate IsStableChar(c: char) { IsAlnum(c) || c in "._:@-" }

  /** An identifier of the storage and deletion evaluators. */
  predicate IsStableId(s: string) {
    0 < |s| <= 100 && IsAlnum(s[0]) && forall i | 0 <= i < |s| :: IsStableChar(s[i])
  }

  const FIXTURE_WORDS: set<string> := {"dev", "development", "fixture", "local", "mock", "test"}

  /** A stable identifier none of whose words names a fixture. */
  predicate IsTargetId(s: string) {
    IsStableId(s) && forall w | w in SplitWhere(Fold(s), c => c in "._:@-") :: w !in FIXTURE_WORDS
  }

  // ----- orders and sorting --------------------------------------------------------------

  /** Code-point order on text. */
  predicate TextLess(a: string, b: string) {
    b != "" && (a == "" || a[0] < b[0] || (a[0] == b[0] && TextLess(a[1..], b[1..])))
  }

  predicate TextLeq(a: string, b: string) { !TextLess(b, a) }

  lemma {:induction false} TextLessTotal(a: string, b: string)
    ensures a == b || TextLess(a, b) || TextLess(b, a)
    ensures !(TextLess(a, b) && TextLess(b, a))
    ensures a == b ==> !TextLess(a, b)
  {
    if a != "" && b != "" && a[0] == b[0] {
      TextLessTotal(a[1..], b[1..]);
      assert a == [a[0]] + a[1..] && b == [b[0]] + b[1..];
    }
  }

  lemma {:induction false} TextLessTransitive(a: string, b: string, c: string)
    requires TextLess(a, b) && TextLess(b, c)
    ensures TextLess(a, c)
  {
    if a != "" && a[0] == b[0] == c[0] {
      TextLessTransitive(a[1..], b[1..], c[1..]);
    }
  }

  ghost predicate TotalPreorder<T(!new)>(leq: (T, T) -> bool) {
    && (forall x, y :: leq(x, y) || leq(y, x))
    && (forall x, y, z :: leq(x, y) && leq(y, z) ==> leq(x, z))
  }

  ghost predicate Nondecreasing<T(!new)>(s: seq<T>, leq: (T, T) -> bool) {
    forall i, j | 0 <= i < j < |s| :: leq(s[i], s[j])
  }

  predicate NoDuplicates<T(==)>(s: seq<T>) {
    forall i, j | 0 <= i < j < |s| :: s[i] != s[j]
  }

  /** Stable insertion sort, standing for the library sort. */
  function Insert<T(!new)>(x: T, s: seq<T>, leq: (T, T) -> bool): seq<T> {
    if s == [] || leq(x, s[0]) then [x] + s else [s[0]] + Insert(x, s[1..], leq)
  }

  function Sort<T(!new)>(xs: seq<T>, leq: (T, T) -> bool): seq<T> {
    if xs == [] then [] else Insert(xs[0], Sort(xs[1..], leq), leq)
  }

  lemma {:induction false} InsertPermutes<T(!new)>(x: T, s: seq<T>, leq: (T, T) -> bool)
    ensures multiset(Insert(x, s, leq)) == multiset([x]) + multiset(s)
  {
    if s != [] && !leq(x, s[0]) {
      InsertPermutes(x, s[1..], leq);
      assert s == [s[0]] + s[1..];
    }
  }

  lemma {:induction false} SortPermutes<T(!new)>(xs: seq<T>, leq: (T, T) -> bool)
    ensures multiset(Sort(xs, leq)) == multiset(xs)
  {
    if xs != [] {
      SortPermutes(xs[1..], leq);
      InsertPermutes(xs[0], Sort(xs[1..], leq), leq);
      assert xs == [xs[0]] + xs[1..];
    }
  }

  lemma {:induction false} InsertKeepsOrder<T(!new)>(x: T, s: seq<T>, leq: (T, T) -> bool)
    requires TotalPreorder(leq) && Nondecreasing(s, leq)
    ensures Nondecreasing(Insert(x, s, leq), leq)
  {
    if s != [] && !leq(x, s[0]) {
      var tail := Insert(x, s[1..], leq);
      InsertKeepsOrder(x, s[1..], leq);
      InsertPermutes(x, s[1..], leq);
      forall k | 0 <= k < |tail| ensures leq(s[0], tail[k]) {
        assert tail[k] in multiset(tail);
        assert tail[k] == x || tail[k] in s[1..];
      }
    } else if s != [] {
      assert forall k | 0 <= k < |s| :: leq(x, s[k]);
    }
  }

  lemma {:induction false} SortOrders<T(!new)>(xs: seq<T>, leq: (T, T) -> bool)
    requires TotalPreorder(leq)
    ensures Nondecreasing(Sort(xs, leq), leq)
  {
    if xs != [] {
      SortOrders(xs[1..], leq);
      InsertKeepsOrder(xs[0], Sort(xs[1..], leq), leq);
    }
  }

  lemma PermutationFacts<T(!new)>(a: seq<T>, b: seq<T>)
    requires multiset(a) == multiset(b)
    ensures |a| == |b|
    ensures forall x :: x in a <==> x in b
  {
    assert |multiset(a)| == |a| && |multiset(b)| == |b|;
    forall x ensures x in a <==> x in b {
      assert x in a <==> x in multiset(a);
      assert x in b <==> x in multiset(b);
    }
  }

  lemma {:induction false} DistinctCounts<T(!new)>(s: seq<T>)
    ensures NoDuplicates(s) <==> forall x :: multiset(s)[x] <= 1
  {
    if s != [] {
      var t := s[1..];
      DistinctCounts(t);
      assert s == [s[0]] + t;
      if NoDuplicates(s) {
        forall x ensures multiset(s)[x] <= 1 {
          if x == s[0] {
            assert x !in t;
            assert multiset(t)[x] == 0;
          }
        }
      }
      if forall x :: multiset(s)[x] <= 1 {
        assert multiset(t)[s[0]] == 0;
        assert s[0] !in t;
        assert NoDuplicates(t) by {
          forall x ensures multiset(t)[x] <= 1 { assert multiset(s)[x] >= multiset(t)[x]; }
        }
        forall i, j | 0 <= i < j < |s| ensures s[i] != s[j] {
          assert s[j] == t[j - 1];
          if i > 0 { assert s[i] == t[i - 1]; }
        }
      }
    }
  }

  lemma PermutationKeepsDistinct<T(!new)>(a: seq<T>, b: seq<T>)
    requires multiset(a) == multiset(b) && NoDuplicates(a)
    ensures NoDuplicates(b)
  {
    DistinctCounts(a);
    DistinctCounts(b);
  }

  /** Strictly increasing text: sorted and free of repeats. */
  predicate Ascending(s: seq<string>) {
    forall i, j | 0 <= i < j < |s| :: TextLess(s[i], s[j])
  }

  lemma AscendingIffSortedDistinct(s: seq<string>)
    ensures Ascending(s) <==> NoDuplicates(s) && forall i, j | 0 <= i < j < |s| :: TextLeq(s[i], s[j])
  {
    forall i, j | 0 <= i < j < |s|
      ensures TextLess(s[i], s[j]) <==> s[i] != s[j] && TextLeq(s[i], s[j])
    {
      TextLessTotal(s[i], s[j]);
    }
  }

  lemma TextLeqPreorder()
    ensures TotalPreorder(TextLeq)
  {
    forall x, y ensures TextLeq(x, y) || TextLeq(y, x) { TextLessTotal(x, y); }
    forall x, y, z | TextLeq(x, y) && TextLeq(y, z) ensures TextLeq(x, z) {
      if TextLess(z, x) {
        TextLessTotal(x, y);
        TextLessTotal(y, z);
        if x != y && y != z {
          TextLessTransitive(x, y, z);
          TextLessTotal(x, z);
        }
      }
    }
  }

  ghost predicate StrictTotal<T(!new)>(less: (T, T) -> bool) {
    && (forall x :: !less(x, x))
    && (forall x, y :: x == y || less(x, y) || less(y, x))
    && (forall x, y, z :: less(x, y) && less(y, z) ==> less(x, z))
  }

  ghost predicate AscendingBy<T(!new)>(s: seq<T>, less: (T, T) -> bool) {
    forall i, j | 0 <= i < j < |s| :: less(s[i], s[j])
  }

  /** A strictly increasing list is determined by its members. */
  lemma {:induction false} AscendingByUnique<T(!new)>(a: seq<T>, b: seq<T>, less: (T, T) -> bool)
    requires StrictTotal(less) && AscendingBy(a, less) && AscendingBy(b, less)
    requires forall x :: x in a <==> x in b
    ensures a == b
  {
    if a == [] || b == [] {
      DistinctCardinality(a);
      DistinctCardinality(b);
      assert (set x | x in a) == (set x | x in b);
    } else {
      assert a[0] in b && b[0] in a;
      var i :| 0 <= i < |b| && b[i] == a[0];
      var j :| 0 <= j < |a| && a[j] == b[0];
      assert a[0] == b[0];
      forall x ensures x in a[1..] <==> x in b[1..] {
        assert x in a[1..] ==> x in a && less(a[0], x);
        assert x in b[1..] ==> x in b && less(b[0], x);
        assert x in a ==> x == a[0] || x in a[1..];
        assert x in b ==> x == b[0] || x in b[1..];
      }
      AscendingByUnique(a[1..], b[1..], less);
      assert a == [a[0]] + a[1..] && b == [b[0]] + b[1..];
    }
  }

  lemma TextLessStrictTotal()
    ensures StrictTotal(TextLess)
  {
    forall x { TextLessTotal(x, x); }
    forall x, y ensures x == y || TextLess(x, y) || TextLess(y, x) { TextLessTotal(x, y); }
    forall x, y, z | TextLess(x, y) && TextLess(y, z) ensures TextLess(x, z) { TextLessTransitive(x, y, z); }
  }

  lemma AscendingUnique(a: seq<string>, b: seq<string>)
    requires Ascending(a) && Ascending(b)
    requires forall x :: x in a <==> x in b
    ensures a == b
  {
    TextLessStrictTotal();
    AscendingByUnique(a, b, TextLess);
  }

  /** sorted(...) of a duplicate-free list is ascending and keeps its members. */
  lemma SortedDistinctIsAscending(xs: seq<string>)
    requires NoDuplicates(xs)
    ensures Ascending(Sort(xs, TextLeq))
    ensures forall x :: x in Sort(xs, TextLeq) <==> x in xs
  {
    var s := Sort(xs, TextLeq);
    TextLeqPreorder();
    SortOrders(xs, TextLeq);
    SortPermutes(xs, TextLeq);
    PermutationFacts(s, xs);
    PermutationKeepsDistinct(xs, s);
    AscendingIffSortedDistinct(s);
  }

  /** Sorting a list that is in order already changes nothing. */
  lemma {:induction false} SortFixpoint<T(!new)>(xs: seq<T>, leq: (T, T) -> bool)
    requires Nondecreasing(xs, leq)
    ensures Sort(xs, leq) == xs
  {
    if xs != [] {
      SortFixpoint(xs[1..], leq);
      assert |xs| > 1 ==> leq(xs[0], xs[1]);
      assert xs == [xs[0]] + xs[1..];
    }
  }

  lemma SortedIsFixpoint(xs: seq<string>)
    ensures Ascending(xs) ==> Sort(xs, TextLeq) == xs
  {
    if Ascending(xs) {
      AscendingIffSortedDistinct(xs);
      SortFixpoint(xs, TextLeq);
    }
  }

  /** The members of a set, listed once each in some order. */
  method Elements<T(==)>(xs: set<T>) returns (s: seq<T>)
    ensures NoDuplicates(s) && |s| == |xs|
    ensures forall x :: x in s <==> x in xs
  {
    s := [];
    var rest := xs;
    while rest != {}
      invariant NoDuplicates(s) && rest <= xs
      invariant forall x :: x in s <==> x in xs && x !in rest
      invariant |s| + |rest| == |xs|
      decreases rest
    {
      var x :| x in rest;
      s := s + [x];
      rest := rest - {x};
    }
  }

  // ----- lists ---------------------------------------------------------------------------

  /** Every named check is true. */
  function AllTrueOf(names: set<string>): map<string, bool> { map name | name in names :: true }

  /** Some order of a finite set. */
  lemma Listed<T>(xs: set<T>) returns (s: seq<T>)
    ensures NoDuplicates(s) && forall x :: x in s <==> x in xs
  {
    s := [];
    if xs != {} {
      var x :| x in xs;
      var rest := Listed(xs - {x});
      s := rest + [x];
    }
  }

  ghost predicate IsMax(m: int, s: seq<int>) {
    m in s && forall i | 0 <= i < |s| :: s[i] <= m
  }

  /** max(...) of a non-empty list. */
  method Max(s: seq<int>) returns (m: int)
    requires s != []
    ensures IsMax(m, s)
  {
    m := s[0];
    for i := 1 to |s|
      invariant m in s && forall k | 0 <= k < i :: s[k] <= m
    {
      if s[i] > m { m := s[i]; }
    }
  }

  /** A list without repeats has as many entries as members. */
  lemma {:induction false} DistinctCardinality<T>(s: seq<T>)
    requires NoDuplicates(s)
    ensures |set x | x in s| == |s|
  {
    if s != [] {
      DistinctCardinality(s[1..]);
      assert (set x | x in s) == {s[0]} + set x | x in s[1..];
    } else {
      assert (set x | x in s) == {};
    }
  }

  lemma {:induction false} LeastExists(keys: set<string>) returns (k: string)
    requires keys != {}
    ensures k in keys && forall j | j in keys :: TextLeq(k, j)
  {
    var x :| x in keys;
    var rest := keys - {x};
    TextLessTotal(x, x);
    if rest == {} {
      k := x;
      forall j | j in keys ensures j == x { assert j !in rest; }
    } else {
      var y := LeastExists(rest);
      TextLeqPreorder();
      TextLessTotal(x, y);
      k := if TextLeq(x, y) then x else y;
      forall j | j in keys ensures TextLeq(k, j) {
        if j != x {
          assert j in rest && TextLeq(y, j);
        }
      }
    }
  }

  /** A set of ids in ascending order, as an ordered map iterates. */
  ghost function SortedMembers(keys: set<string>): (s: seq<string>)
    ensures (forall k :: k in s <==> k in keys) && |s| == |keys|
    ensures Ascending(s)
  {
    if keys == {} then []
    else
      LeastKey(keys);
      var k :| k in keys && forall j | j in keys :: TextLeq(k, j);
      var rest := SortedMembers(keys - {k});
      FirstIsLeast(k, rest);
      [k] + rest
  }

  lemma FirstIsLeast(k: string, rest: seq<string>)
    requires Ascending(rest) && forall j | j in rest :: TextLeq(k, j) && j != k
    ensures Ascending([k] + rest)
  {
    forall i | 0 <= i < |rest| ensures TextLess(k, rest[i]) {
      assert rest[i] in rest;
      TextLessTotal(k, rest[i]);
    }
  }

  lemma LeastKey(keys: set<string>)
    requires keys != {}
    ensures exists k :: k in keys && forall j | j in keys :: TextLeq(k, j)
  {
    var k := LeastExists(keys);
  }

  // ----- division ------------------------------------------------------------------------

  lemma QuotientUnique(n: nat, m: nat, q: nat, r: nat)
    requires r < m && n == q * m + r
    ensures n / m == q && n % m == r
  {
    assert n == (n / m) * m + n % m;
    assert (n / m - q) * m == (n / m) * m - q * m;
    NonzeroMultiple(n / m - q, m);
  }

  lemma NonzeroMultiple(d: int, m: nat)
    ensures d >= 1 ==> d * m >= m
    ensures d <= -1 ==> d * m <= -(m as int)
  {
  }
}

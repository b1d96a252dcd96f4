/** scripts/check_critical_coverage.py: the LCOV parser and the coverage gate. */
module Lcov {
  import opened Primitives
  import opened LiveProviderPlan

  // ----- text ----------------------------------------------------------------------------

  predicate IsBreak(c: char) {
    var n := c as int;
    10 <= n <= 13 || 28 <= n <= 30 || n == 0x85 || n == 0x2028 || n == 0x2029
  }

  function LineEnd(s: string): (i: nat)
    ensures i <= |s| && (i < |s| ==> IsBreak(s[i])) && forall j | 0 <= j < i :: !IsBreak(s[j])
  {
    if s == "" || IsBreak(s[0]) then 0
    else
      var i := LineEnd(s[1..]) + 1;
      assert forall j | 1 <= j < i :: s[j] == s[1..][j - 1];
      i
  }

  function BreakWidth(s: string, i: nat): nat
    requires i < |s|
  {
    if s[i] == '\r' && i + 1 < |s| && s[i + 1] == '\n' then 2 else 1
  }

  /** The lines of a text, without their breaks. */
  function SplitLines(s: string): seq<string> {
    if s == "" then []
    else
      var i := LineEnd(s);
      if i == |s| then [s] else [s[..i]] + SplitLines(s[i + BreakWidth(s, i)..])
  }

  function Digit(c: char): nat requires IsDigit(c) { c as int - '0' as int }

  /** Decimal digits with single underscores between them. */
  function ScanDigits(s: string, value: nat, afterDigit: bool): Outcome<nat> {
    if s == "" then if afterDigit then Accept(value) else Reject
    else if IsDigit(s[0]) then ScanDigits(s[1..], value * 10 + Digit(s[0]), true)
    else if s[0] == '_' && afterDigit then ScanDigits(s[1..], value, false)
    else Reject
  }

  function ParseInt(raw: string): Outcome<int> {
    var s := Strip(raw);
    if s == "" then Reject
    else if s[0] == '-' then var n :- ScanDigits(s[1..], 0, false); Accept(-(n as int))
    else if s[0] == '+' then var n :- ScanDigits(s[1..], 0, false); Accept(n)
    else var n :- ScanDigits(s, 0, false); Accept(n)
  }

  function Normalize(path: string): (r: string)
    ensures |r| == |path| && forall i | 0 <= i < |r| :: r[i] == if path[i] == '\\' then '/' else path[i]
  {
    seq(|path|, i requires 0 <= i < |path| => if path[i] == '\\' then '/' else path[i])
  }

  // ----- the parser ----------------------------------------------------------------------

  type Records = map<string, (int, int)>

  datatype Scan = Scan(records: Records, current: Option<string>, found: Option<int>, hit: Option<int>)

  const SOURCE := "SF:"
  const FOUND := "LF:"
  const HIT := "LH:"
  const END := "end_of_record"

  function Between(records: Records): Scan { Scan(records, None, None, None) }

  function Finish(s: Scan): Scan {
    Between(if s.current.Some? && s.found.Some? && s.hit.Some?
            then s.records[s.current.value := (s.hit.value, s.found.value)] else s.records)
  }

  function Step(s: Scan, raw: string): Outcome<Scan> {
    var line := Strip(raw);
    if SOURCE <= line then Accept(Finish(s).(current := Some(Normalize(line[3..]))))
    else if FOUND <= line then var n :- ParseInt(line[3..]); Accept(s.(found := Some(n)))
    else if HIT <= line then var n :- ParseInt(line[3..]); Accept(s.(hit := Some(n)))
    else if line == END then Accept(Finish(s))
    else Accept(s)
  }

  function Fold(s: Scan, lines: seq<string>): Outcome<Scan> {
    if lines == [] then Accept(s)
    else
      var s' :- Fold(s, lines[..|lines| - 1]);
      Step(s', lines[|lines| - 1])
  }

  function ParseLines(lines: seq<string>): Outcome<Records> {
    var s :- Fold(Between(map[]), lines);
    Accept(Finish(s).records)
  }

  lemma {:induction false} FoldAppends(s: Scan, xs: seq<string>, ys: seq<string>)
    ensures Fold(s, xs + ys) == match Fold(s, xs) case Accept(t) => Fold(t, ys) case Reject => Reject
  {
    if ys == [] {
      assert xs + ys == xs;
    } else {
      var n := |ys| - 1;
      FoldAppends(s, xs, ys[..n]);
      assert (xs + ys)[..|xs| + n] == xs + ys[..n];
    }
  }

  lemma NoLines(lines: seq<string>)
    ensures Fold(Between(map[]), lines[..0]) == Accept(Between(map[]))
  {
  }

  lemma FoldStep(lines: seq<string>, i: nat, s: Scan)
    requires i < |lines| && Fold(Between(map[]), lines[..i]) == Accept(s)
    ensures Fold(Between(map[]), lines[..i + 1]) == Step(s, lines[i])
    ensures Step(s, lines[i]).Reject? ==> Fold(Between(map[]), lines) == Reject
  {
    hide Step;
    assert lines[..i + 1][..i] == lines[..i];
    FoldAppends(Between(map[]), lines[..i + 1], lines[i + 1..]);
    assert lines[..i + 1] + lines[i + 1..] == lines;
  }

  method ParseLcov(source: string) returns (r: Outcome<Records>)
    ensures r == ParseLines(SplitLines(source))
  {
    hide Fold, Strip, ParseInt, SplitLines;
    var lines := SplitLines(source);
    assert Fold(Between(map[]), lines[..0]) == Accept(Between(map[])) by { NoLines(lines); }
    var records: Records, current: Option<string>, found: Option<int>, hit: Option<int> := map[], None, None, None;
    for i := 0 to |lines|
      invariant Fold(Between(map[]), lines[..i]) == Accept(Scan(records, current, found, hit))
    {
      ghost var before := Scan(records, current, found, hit);
      FoldStep(lines, i, before);
      var line := Strip(lines[i]);
      if SOURCE <= line {
        if current.Some? && found.Some? && hit.Some? { records := records[current.value := (hit.value, found.value)]; }
        current, found, hit := Some(Normalize(line[3..])), None, None;
      } else if FOUND <= line {
        var n := ParseInt(line[3..]);
        if n.Reject? { return Reject; }
        found := Some(n.value);
      } else if HIT <= line {
        var n := ParseInt(line[3..]);
        if n.Reject? { return Reject; }
        hit := Some(n.value);
      } else if line == END {
        if current.Some? && found.Some? && hit.Some? { records := records[current.value := (hit.value, found.value)]; }
        current, found, hit := None, None, None;
      }
    }
    assert lines[..|lines|] == lines;
    if current.Some? && found.Some? && hit.Some? { records := records[current.value := (hit.value, found.value)]; }
    r := Accept(records);
  }

  // ----- concatenation -------------------------------------------------------------------

  /** Two scans that differ only in the records already gathered. */
  lemma StepFromRecords(m: Records, s: Scan, raw: string)
    ensures Step(s.(records := m + s.records), raw) ==
            match Step(s, raw)
            case Accept(t) => Accept(t.(records := m + t.records))
            case Reject => Reject
  {
    hide Strip, ParseInt;
    FinishFromRecords(m, s);
  }

  lemma FinishFromRecords(m: Records, s: Scan)
    ensures Finish(s.(records := m + s.records)) == Finish(s).(records := m + Finish(s).records)
  {
    if s.current.Some? && s.found.Some? && s.hit.Some? {
      var path, counts := s.current.value, (s.hit.value, s.found.value);
      assert (m + s.records)[path := counts] == m + s.records[path := counts];
    }
  }

  lemma {:induction false} FoldFromRecords(m: Records, s: Scan, lines: seq<string>)
    ensures Fold(s.(records := m + s.records), lines) ==
            match Fold(s, lines)
            case Accept(t) => Accept(t.(records := m + t.records))
            case Reject => Reject
  {
    hide Step;
    if lines != [] {
      var n := |lines| - 1;
      FoldFromRecords(m, s, lines[..n]);
      if Fold(s, lines[..n]).Accept? { StepFromRecords(m, Fold(s, lines[..n]).value, lines[n]); }
    }
  }

  /** Lines that end in an end-of-record line, and lines after them, parse independently: the first
      map updated by the second, refused exactly when either is. */
  lemma ConcatenationUpdates(xs: seq<string>, ys: seq<string>)
    requires xs != [] && Strip(xs[|xs| - 1]) == END
    ensures ParseLines(xs + ys) ==
            match (ParseLines(xs), ParseLines(ys)) case (Accept(a), Accept(b)) => Accept(a + b) case _ => Reject
  {
    hide Step, Finish;
    var start := Between(map[]);
    FoldAppends(start, xs, ys);
    EndsClean(start, xs);
    if Fold(start, xs).Accept? {
      var a := Fold(start, xs).value.records;
      FoldFromRecords(a, start, ys);
      assert start.(records := a + start.records) == Between(a);
      FinishKeeps(a);
      if Fold(start, ys).Accept? { FinishFromRecords(a, Fold(start, ys).value); }
    }
  }

  lemma FinishKeeps(m: Records)
    ensures Finish(Between(m)) == Between(m)
  {
  }

  lemma EndsClean(s: Scan, xs: seq<string>)
    requires xs != [] && Strip(xs[|xs| - 1]) == END
    ensures Fold(s, xs).Accept? ==> Fold(s, xs).value == Between(Fold(s, xs).value.records)
  {
    assert END[0] == 'e' && SOURCE[0] == 'S' && FOUND[0] == 'L' && HIT[0] == 'L';
  }

  /** Text whose last character is a line feed splits apart from what follows it. */
  lemma {:induction false} SplitAppends(a: string, b: string)
    requires a == "" || a[|a| - 1] == '\n'
    ensures SplitLines(a + b) == SplitLines(a) + SplitLines(b)
    decreases |a|
  {
    hide SplitLines;
    if a == "" {
      assert a + b == b;
      EmptySplits();
      assert [] + SplitLines(b) == SplitLines(b);
    } else {
      var i, w := FirstBreak(a, b);
      var rest := a[i + w..];
      if rest != "" { assert rest[|rest| - 1] == a[|a| - 1]; }
      SplitAppends(rest, b);
      assert [a[..i]] + (SplitLines(rest) + SplitLines(b)) == [a[..i]] + SplitLines(rest) + SplitLines(b);
    }
  }

  lemma EmptySplits()
    ensures SplitLines("") == []
  {
  }

  lemma FirstBreak(a: string, b: string) returns (i: nat, w: nat)
    requires a != "" && a[|a| - 1] == '\n'
    ensures 0 < w && i + w <= |a|
    ensures SplitLines(a) == [a[..i]] + SplitLines(a[i + w..])
    ensures SplitLines(a + b) == [a[..i]] + SplitLines(a[i + w..] + b)
  {
    hide SplitLines;
    i := LineEnd(a);
    assert IsBreak(a[|a| - 1]);
    w := BreakWidth(a, i);
    FirstLine(a);
    LineEndOf(a + b, i);
    FirstLine(a + b);
    assert (a + b)[..i] == a[..i] && (a + b)[i + w..] == a[i + w..] + b;
  }

  lemma FirstLine(s: string)
    requires LineEnd(s) < |s|
    ensures SplitLines(s) == [s[..LineEnd(s)]] + SplitLines(s[LineEnd(s) + BreakWidth(s, LineEnd(s))..])
  {
    hide LineEnd;
  }

  lemma LineEndOf(s: string, i: nat)
    requires i < |s| && IsBreak(s[i]) && forall j | 0 <= j < i :: !IsBreak(s[j])
    ensures LineEnd(s) == i
  {
  }

  /** The law for whole reports: appending a report to one that ends in a complete record updates it. */
  lemma ReportsConcatenate(a: string, b: string)
    requires a != "" && a[|a| - 1] == '\n' && SplitLines(a) != [] && Strip(SplitLines(a)[|SplitLines(a)| - 1]) == END
    ensures ParseLines(SplitLines(a + b)) ==
            match (ParseLines(SplitLines(a)), ParseLines(SplitLines(b)))
            case (Accept(x), Accept(y)) => Accept(x + y)
            case _ => Reject
  {
    hide ParseLines, SplitLines, Strip;
    SplitAppends(a, b);
    ConcatenationUpdates(SplitLines(a), SplitLines(b));
  }

  // ----- printing ------------------------------------------------------------------------

  datatype Record = Record(path: string, hit: int, found: int)

  function Digits(n: nat): string {
    if n < 10 then [(n + '0' as int) as char] else Digits(n / 10) + [(n % 10 + '0' as int) as char]
  }

  function IntText(n: int): string { if n < 0 then "-" + Digits(-n) else Digits(n) }

  /** Paths that survive one line of the format: no line break or backslash, no trailing blank. */
  predicate PathOk(path: string) {
    && (forall i | 0 <= i < |path| :: !IsBreak(path[i]) && path[i] != '\\')
    && (path != "" ==> !IsSpace(path[|path| - 1]))
  }

  function RecordLines(r: Record): seq<string> {
    [SOURCE + r.path, FOUND + IntText(r.found), HIT + IntText(r.hit), END]
  }

  function PrintLines(rs: seq<Record>): seq<string> {
    if rs == [] then [] else PrintLines(rs[..|rs| - 1]) + RecordLines(rs[|rs| - 1])
  }

  function Text(lines: seq<string>): string { if lines == [] then "" else lines[0] + "\n" + Text(lines[1..]) }

  function LastWins(rs: seq<Record>): Records {
    if rs == [] then map[] else var r := rs[|rs| - 1]; LastWins(rs[..|rs| - 1])[r.path := (r.hit, r.found)]
  }

  lemma {:induction false} DigitsParse(n: nat, rest: string)
    ensures ScanDigits(Digits(n) + rest, 0, false) == ScanDigits(rest, n, true)
  {
    var last := [(n % 10 + '0' as int) as char];
    if n < 10 {
      assert (Digits(n) + rest)[1..] == rest;
    } else {
      assert Digits(n) + rest == Digits(n / 10) + (last + rest);
      DigitsParse(n / 10, last + rest);
      assert (last + rest)[1..] == rest;
    }
  }

  lemma {:induction false} DigitsAreDigits(n: nat)
    ensures Digits(n) != "" && forall i | 0 <= i < |Digits(n)| :: IsDigit(Digits(n)[i])
  {
    if n >= 10 { DigitsAreDigits(n / 10); }
  }

  lemma IntRoundTrip(n: int)
    ensures ParseInt(IntText(n)) == Accept(n) && IntText(n) != "" && !IsSpace(IntText(n)[|IntText(n)| - 1])
    ensures forall i | 0 <= i < |IntText(n)| :: !IsBreak(IntText(n)[i])
  {
    var m := if n < 0 then -n else n;
    DigitsAreDigits(m);
    DigitsParse(m, "");
    assert Digits(m) + "" == Digits(m);
    var text := IntText(n);
    assert !IsSpace(text[0]) && !IsSpace(text[|text| - 1]);
    if n < 0 { assert text[1..] == Digits(m); }
  }

  lemma TaggedLine(tag: string, s: string)
    requires tag == SOURCE || tag == FOUND || tag == HIT
    requires s != "" ==> !IsSpace(s[|s| - 1])
    ensures Strip(tag + s) == tag + s && tag <= tag + s && (tag + s)[3..] == s
    ensures tag != SOURCE ==> !(SOURCE <= tag + s)
    ensures tag == HIT ==> !(FOUND <= tag + s)
  {
    var line := tag + s;
    assert !IsSpace(line[0]) && !IsSpace(line[|line| - 1]);
    assert tag != SOURCE ==> line[0] == 'L';
    assert tag == HIT ==> line[1] == 'H';
  }

  /** One printed record is read back, whatever was read before. */
  lemma RecordParses(m: Records, r: Record)
    requires PathOk(r.path)
    ensures Fold(Between(m), RecordLines(r)) == Accept(Between(m[r.path := (r.hit, r.found)]))
  {
    hide Strip, ParseInt, IntText, Fold;
    IntRoundTrip(r.found);
    IntRoundTrip(r.hit);
    TaggedLine(SOURCE, r.path);
    TaggedLine(FOUND, IntText(r.found));
    TaggedLine(HIT, IntText(r.hit));
    assert Normalize(r.path) == r.path;
    EndLine();
    var s0 := Between(m);
    var s1 := s0.(current := Some(r.path));
    var s2 := s1.(found := Some(r.found));
    var s3 := s2.(hit := Some(r.hit));
    assert Step(s0, SOURCE + r.path) == Accept(s1);
    assert Step(s1, FOUND + IntText(r.found)) == Accept(s2);
    assert Step(s2, HIT + IntText(r.hit)) == Accept(s3);
    assert Step(s3, END) == Accept(Between(m[r.path := (r.hit, r.found)]));
    FourSteps(s0, RecordLines(r));
  }

  lemma EndLine()
    ensures Strip(END) == END && !(SOURCE <= END) && !(FOUND <= END) && !(HIT <= END)
  {
    assert END[0] == 'e' && END[12] == 'd' && SOURCE[0] == 'S' && FOUND[0] == 'L' && HIT[0] == 'L';
  }

  lemma FourSteps(s: Scan, lines: seq<string>)
    requires |lines| == 4
    ensures Fold(s, lines) ==
            match Step(s, lines[0])
            case Reject => Reject
            case Accept(a) =>
              match Step(a, lines[1])
              case Reject => Reject
              case Accept(b) =>
                match Step(b, lines[2])
                case Reject => Reject
                case Accept(c) => Step(c, lines[3])
  {
    hide Step;
    assert lines[..3][..2] == lines[..2] && lines[..2][..1] == lines[..1] && lines[..1][..0] == [];
    var one, two, three := Fold(s, lines[..1]), Fold(s, lines[..2]), Fold(s, lines[..3]);
    assert Fold(s, lines[..1][..0]) == Accept(s);
    assert one == Step(s, lines[0]);
    assert two == if one.Accept? then Step(one.value, lines[1]) else Reject;
    assert three == if two.Accept? then Step(two.value, lines[2]) else Reject;
  }

  lemma {:induction false} LinesParse(rs: seq<Record>)
    requires forall r | r in rs :: PathOk(r.path)
    ensures Fold(Between(map[]), PrintLines(rs)) == Accept(Between(LastWins(rs)))
  {
    hide PathOk, RecordLines, Step;
    if rs != [] {
      var n := |rs| - 1;
      LinesParse(rs[..n]);
      RecordParses(LastWins(rs[..n]), rs[n]);
      FoldAppends(Between(map[]), PrintLines(rs[..n]), RecordLines(rs[n]));
    }
  }

  lemma {:induction false} TextSplits(lines: seq<string>)
    requires forall i | 0 <= i < |lines| :: forall j | 0 <= j < |lines[i]| :: !IsBreak(lines[i][j])
    ensures SplitLines(Text(lines)) == lines
  {
    hide SplitLines, LineEnd, IsBreak;
    if lines == [] {
      EmptySplits();
    } else {
      PrintedLine(lines[0], Text(lines[1..]));
      TextSplits(lines[1..]);
      assert [lines[0]] + lines[1..] == lines;
    }
  }

  lemma PrintedLine(line: string, rest: string)
    requires forall j | 0 <= j < |line| :: !IsBreak(line[j])
    ensures SplitLines(line + "\n" + rest) == [line] + SplitLines(rest)
  {
    hide SplitLines, LineEnd;
    var text, i := line + "\n" + rest, |line|;
    assert text[i] == '\n' && forall j | 0 <= j < i :: text[j] == line[j];
    LineEndOf(text, i);
    FirstLine(text);
    assert text[..i] == line && text[i + 1..] == rest;
  }

  lemma {:induction false} PrintedLinesAreLines(rs: seq<Record>)
    requires forall r | r in rs :: PathOk(r.path)
    ensures forall i | 0 <= i < |PrintLines(rs)| :: forall j | 0 <= j < |PrintLines(rs)[i]| ::
        !IsBreak(PrintLines(rs)[i][j])
  {
    hide IntText;
    if rs != [] {
      var n := |rs| - 1;
      PrintedLinesAreLines(rs[..n]);
      assert rs[n] in rs;
      IntRoundTrip(rs[n].hit);
      IntRoundTrip(rs[n].found);
      forall i | 0 <= i < 4 ensures forall j | 0 <= j < |RecordLines(rs[n])[i]| :: !IsBreak(RecordLines(rs[n])[i][j]) {
        RecordLinePlain(rs[n], i);
      }
    }
  }

  lemma RecordLinePlain(r: Record, i: nat)
    requires PathOk(r.path) && i < 4
    requires forall j | 0 <= j < |IntText(r.hit)| :: !IsBreak(IntText(r.hit)[j])
    requires forall j | 0 <= j < |IntText(r.found)| :: !IsBreak(IntText(r.found)[j])
    ensures forall j | 0 <= j < |RecordLines(r)[i]| :: !IsBreak(RecordLines(r)[i][j])
  {
    hide IntText;
  }

  /** Parsing undoes printing: the printed form of any records gives the map in which the last record
      of a path wins. */
  lemma ParsingUndoesPrinting(rs: seq<Record>)
    requires forall r | r in rs :: PathOk(r.path)
    ensures ParseLines(SplitLines(Text(PrintLines(rs)))) == Accept(LastWins(rs))
  {
    hide PathOk, PrintLines, Fold;
    PrintedLinesAreLines(rs);
    TextSplits(PrintLines(rs));
    LinesParse(rs);
    FinishKeeps(LastWins(rs));
  }

  // ----- the gate ------------------------------------------------------------------------

  /** A gated component; the minimum is a percentage. */
  datatype Target = Target(name: string, minimum: real, paths: seq<string>)

  predicate PathMatches(path: string, expected: string) {
    path == expected || (|expected| < |path| && path[|path| - |expected| - 1..] == "/" + expected)
  }

  function Matches(records: Records, expected: string): set<string> {
    set path | path in records && PathMatches(path, expected)
  }

  /** The only record of a path, if there is exactly one. */
  ghost predicate Resolves(records: Records, expected: string, counts: (int, int)) {
    exists path :: Matches(records, expected) == {path} && path in records && records[path] == counts
  }

  function Total(counts: seq<(int, int)>): (int, int) {
    if counts == [] then (0, 0)
    else var rest := Total(counts[..|counts| - 1]); (rest.0 + counts[|counts| - 1].0, rest.1 + counts[|counts| - 1].1)
  }

  /** Percentage comparison with the source's tolerance; nothing to cover counts as covered. */
  predicate Sufficient(total: (int, int), minimum: real) {
    var percent := if total.1 == 0 then 100.0 else 100.0 * total.0 as real / total.1 as real;
    percent + 0.000000001 >= minimum
  }

  /** A target is met: each of its files has one record, and together they are covered. */
  ghost predicate Met(records: Records, t: Target) {
    exists counts :: ResolvesAll(records, t.paths, counts) && Sufficient(Total(counts), t.minimum)
  }

  ghost predicate ResolvesAll(records: Records, paths: seq<string>, counts: seq<(int, int)>) {
    |counts| == |paths| && forall i | 0 <= i < |counts| :: Resolves(records, paths[i], counts[i])
  }

  method Lookup(records: Records, expected: string) returns (r: Outcome<(int, int)>)
    ensures r.Accept? ==> Resolves(records, expected, r.value)
    ensures forall counts | Resolves(records, expected, counts) :: r == Accept(counts)
  {
    var matching := Matches(records, expected);
    if |matching| != 1 { return Reject; }
    var path :| path in matching;
    assert |matching - {path}| == 0;
    assert matching == {path};
    r := Accept(records[path]);
  }

  method CheckTarget(records: Records, t: Target) returns (ok: bool)
    ensures ok <==> Met(records, t)
  {
    hide Resolves, Sufficient;
    var matched: seq<(int, int)> := [];
    for i := 0 to |t.paths|
      invariant |matched| == i && forall j | 0 <= j < i :: Resolves(records, t.paths[j], matched[j])
      invariant forall counts | ResolvesAll(records, t.paths, counts) :: matched == counts[..i]
    {
      var counts := Lookup(records, t.paths[i]);
      if counts.Reject? { return false; }
      matched := matched + [counts.value];
    }
    assert ResolvesAll(records, t.paths, matched);
    forall counts | ResolvesAll(records, t.paths, counts) ensures counts == matched {
      assert counts[..|t.paths|] == counts;
    }
    ok := Sufficient(Total(matched), t.minimum);
  }

  /** The names of the targets that are not met, in order. */
  ghost function Unmet(records: Records, targets: seq<Target>): seq<string> {
    if targets == [] then []
    else
      var n := |targets| - 1;
      Unmet(records, targets[..n]) + if Met(records, targets[n]) then [] else [targets[n].name]
  }

  /** The gate reports exactly the targets that are not met, in order. */
  method Evaluate(records: Records, targets: seq<Target>) returns (failures: seq<string>)
    ensures failures == Unmet(records, targets)
    ensures failures == [] <==> forall t | t in targets :: Met(records, t)
    ensures forall name :: name in failures <==> exists t :: t in targets && t.name == name && !Met(records, t)
  {
    hide Met;
    failures := [];
    for i := 0 to |targets|
      invariant failures == Unmet(records, targets[..i])
      invariant failures == [] <==> forall t | t in targets[..i] :: Met(records, t)
      invariant forall name :: name in failures <==> exists t :: t in targets[..i] && t.name == name && !Met(records, t)
    {
      assert targets[..i + 1] == targets[..i] + [targets[i]];
      assert targets[..i + 1][..i] == targets[..i];
      var ok := CheckTarget(records, targets[i]);
      if !ok { failures := failures + [targets[i].name]; }
    }
    assert targets[..|targets|] == targets;
  }
}

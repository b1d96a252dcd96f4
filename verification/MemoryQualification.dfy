/** benchmarks/src/bin/memory-qualification.rs: the sampled queries and the latency percentile. */
module MemoryQualification {
  import opened Primitives

  const STRIDE: nat := 7_919
  const PRODUCTION_ITEMS: nat := 100_000
  const USIZE_MAX: nat := 0xFFFF_FFFF_FFFF_FFFF

  function Sampled(query: nat, items: nat): nat
    requires items > 0
  {
    (if query * STRIDE <= USIZE_MAX then query * STRIDE else USIZE_MAX) % items
  }

  /** The ids picked by the first `queries` queries. */
  function Selected(queries: nat, items: nat): set<nat>
    requires items > 0
  {
    set q | 0 <= q < queries :: Sampled(q, items)
  }

  // ----- divisors ------------------------------------------------------------------------

  function Gcd(a: nat, b: nat): (g: nat)
    ensures a > 0 ==> g > 0
    decreases b
  {
    if b == 0 then a else Gcd(b, a % b)
  }

  /** Some combination of the two numbers is their greatest common divisor, which divides both. */
  lemma {:induction false} Bezout(a: nat, b: nat) returns (x: int, y: int, m: nat, s: nat)
    requires a > 0
    ensures Gcd(a, b) > 0 && x * a + y * b == Gcd(a, b)
    ensures a == m * Gcd(a, b) && b == s * Gcd(a, b)
    decreases b
  {
    if b == 0 {
      x, y, m, s := 1, 0, 1, 0;
    } else {
      var u, v, m', s' := Bezout(b, a % b);
      var q := a / b;
      assert a == q * b + a % b;
      Expand(u, v, q, b, a % b);
      x, y := v, u - q * v;
      m, s := q * m' + s', m';
      Scale(q, m', s', Gcd(a, b));
    }
  }

  lemma Expand(u: int, v: int, q: int, b: int, r: int)
    ensures v * (q * b + r) + (u - q * v) * b == u * b + v * r
  {
  }

  lemma Scale(q: nat, m: nat, s: nat, g: nat)
    ensures q * (m * g) + s * g == (q * m + s) * g
  {
  }

  lemma CancelFactor(a: int, b: int, g: nat)
    requires g > 0 && a * g == b * g
    ensures a == b
  {
    assert (a - b) * g == 0;
    NonzeroMultiple(a - b, g);
  }

  /** Two numbers with one remainder differ by a multiple. */
  lemma SameRemainder(a: int, b: int, n: nat)
    requires n > 0
    ensures a % n == b % n <==> exists k: int :: a - b == k * n
  {
    assert a == a / n * n + a % n && b == b / n * n + b % n;
    if a % n == b % n {
      assert a - b == (a / n - b / n) * n;
    }
    if k: int :| a - b == k * n {
      Remainder(b, k, n);
    }
  }

  lemma Remainder(b: int, k: int, n: nat)
    requires n > 0
    ensures (b + k * n) % n == b % n
  {
    var a := b + k * n;
    var d := a / n - b / n - k;
    assert a == a / n * n + a % n && b == b / n * n + b % n;
    assert d * n == b % n - a % n;
    NonzeroMultiple(d, n);
  }

  // ----- sampling ------------------------------------------------------------------------

  /** Two strides land on one id exactly when the queries are a whole period apart. */
  lemma Collision(p: nat, q: nat, items: nat)
    requires 0 < items
    ensures items / Gcd(items, STRIDE) > 0 && items == items / Gcd(items, STRIDE) * Gcd(items, STRIDE)
    ensures p * STRIDE % items == q * STRIDE % items
            <==> p % (items / Gcd(items, STRIDE)) == q % (items / Gcd(items, STRIDE))
  {
    var x, y, m, s := Bezout(items, STRIDE);
    var g := Gcd(items, STRIDE);
    QuotientUnique(items, g, m, 0);
    var d := p as int - q;
    assert p * STRIDE - q * STRIDE == d * STRIDE;
    SameRemainder(p * STRIDE, q * STRIDE, items);
    PositiveFactor(m, g, items);
    SameRemainder(p, q, m);
    if k: int :| p * STRIDE - q * STRIDE == k * items {
      DividesOut(d, k, x, y, m, s, g);
      assert p - q == (x * d + y * k) * m;
    }
    if k: int :| p - q == k * m {
      assert d * STRIDE == (k * m) * (s * g) == (k * s) * (m * g) by { Regroup(k, m, s, g); }
      assert p * STRIDE - q * STRIDE == (k * s) * items;
    }
  }

  lemma PositiveFactor(m: nat, g: nat, items: nat)
    requires items == m * g && items > 0
    ensures m > 0
  {
  }

  lemma Regroup(k: int, m: int, s: int, g: int)
    ensures (k * m) * (s * g) == (k * s) * (m * g)
  {
  }

  lemma DividesOut(d: int, k: int, x: int, y: int, m: nat, s: nat, g: nat)
    requires g > 0 && d * (s * g) == k * (m * g) && x * (m * g) + y * (s * g) == g
    ensures d == (x * d + y * k) * m
  {
    assert (d * s) * g == (k * m) * g;
    CancelFactor(d * s, k * m, g);
    assert (x * m + y * s) * g == 1 * g;
    CancelFactor(x * m + y * s, 1, g);
    calc {
      d;
      d * (x * m + y * s);
      (x * d) * m + y * (d * s);
      (x * d) * m + y * (k * m);
      (x * d + y * k) * m;
    }
  }

  /** Below the production threshold no product saturates. */
  lemma NoSaturation(query: nat, items: nat)
    requires query < items < PRODUCTION_ITEMS
    ensures Sampled(query, items) == query * STRIDE % items
  {
  }

  lemma SmallRemainder(q: nat, m: nat)
    requires q < m
    ensures q % m == q
  {
    QuotientUnique(q, m, 0, q);
  }

  /** The sampled ids number exactly the queries up to one period, which is the corpus size over its
      greatest common divisor with the stride. */
  lemma SampleSize(queries: nat, items: nat)
    requires queries <= items && 0 < items < PRODUCTION_ITEMS
    ensures var period := items / Gcd(items, STRIDE);
            |Selected(queries, items)| == if queries < period then queries else period
  {
    Collision(0, 0, items);
    var period := items / Gcd(items, STRIDE);
    var n := if queries < period then queries else period;
    var ids := seq(n, q requires 0 <= q < n => Sampled(q, items));
    forall p, q | 0 <= p < q < n ensures ids[p] != ids[q] {
      NoSaturation(p, items);
      NoSaturation(q, items);
      Collision(p, q, items);
      SmallRemainder(p, period);
      SmallRemainder(q, period);
    }
    DistinctCardinality(ids);
    forall x ensures x in Selected(queries, items) <==> x in ids {
      if x in Selected(queries, items) {
        var q :| 0 <= q < queries && Sampled(q, items) == x;
        Wraps(q, items);
        if n < period { SmallRemainder(q, period); }
        assert ids[q % period] == x;
      }
    }
    assert Selected(queries, items) == set x | x in ids;
  }

  /** A query picks what its place in the period picks. */
  lemma Wraps(q: nat, items: nat)
    requires q < items < PRODUCTION_ITEMS && items / Gcd(items, STRIDE) > 0
    ensures Sampled(q % (items / Gcd(items, STRIDE)), items) == Sampled(q, items)
  {
    hide Gcd, Sampled;
    var period := items / Gcd(items, STRIDE);
    var r := RemainderBelow(q, period);
    SmallRemainder(r, period);
    NoSaturation(q, items);
    NoSaturation(r, items);
    Collision(r, q, items);
  }

  lemma RemainderBelow(q: nat, m: nat) returns (r: nat)
    requires m > 0
    ensures r == q % m && r <= q && r < m
  {
    r := q % m;
    assert q == q / m * m + r && q / m * m >= 0;
  }

  /** Every query gets its own id exactly when there are no more queries than one period; in
      particular whenever the corpus size is coprime to the stride. */
  lemma SamplingIsInjective(queries: nat, items: nat)
    requires queries <= items && 0 < items < PRODUCTION_ITEMS
    ensures |Selected(queries, items)| == queries <==> queries <= items / Gcd(items, STRIDE)
    ensures Gcd(items, STRIDE) == 1 ==> |Selected(queries, items)| == queries
  {
    SampleSize(queries, items);
  }

  /** A corpus that is a multiple of the stride needs more than its period: all queries pick id 0. */
  lemma SamplingCanCollapse()
    ensures Selected(2, STRIDE) == {0}
  {
    assert Sampled(0, STRIDE) == 0 && Sampled(1, STRIDE) == 0;
    assert Selected(2, STRIDE) == {Sampled(0, STRIDE), Sampled(1, STRIDE)};
  }

  method SelectQueries(queries: nat, items: nat) returns (selected: set<nat>)
    requires queries <= items
    ensures items > 0 ==> selected == Selected(queries, items)
    ensures items == 0 ==> selected == {}
  {
    selected := {};
    for query := 0 to queries
      invariant items > 0 ==> selected == Selected(query, items)
      invariant items == 0 ==> selected == {}
    {
      SelectedStep(query, items);
      selected := selected + {Sampled(query, items)};
    }
  }

  lemma SelectedStep(query: nat, items: nat)
    requires items > 0
    ensures Selected(query + 1, items) == Selected(query, items) + {Sampled(query, items)}
  {
  }

  function Ids<V>(pairs: seq<(nat, V)>): (ids: seq<nat>)
    ensures |ids| == |pairs| && forall i | 0 <= i < |ids| :: ids[i] == pairs[i].0
  {
    seq(|pairs|, i requires 0 <= i < |pairs| => pairs[i].0)
  }

  /** One pair for each id of `selected` below `bound`, in id order, with that item's embedding. */
  ghost predicate Gathers<V(!new)>(vectors: seq<(nat, V)>, selected: set<nat>, bound: nat, embed: nat -> V) {
    && (forall i, j | 0 <= i < j < |vectors| :: vectors[i].0 < vectors[j].0)
    && (forall i | 0 <= i < |vectors| :: vectors[i].1 == embed(vectors[i].0))
    && (forall id :: id in Ids(vectors) <==> id in selected && id < bound)
  }

  lemma GatherStep<V(!new)>(vectors: seq<(nat, V)>, selected: set<nat>, id: nat, embed: nat -> V)
    requires Gathers(vectors, selected, id, embed)
    ensures Gathers(if id in selected then vectors + [(id, embed(id))] else vectors, selected, id + 1, embed)
  {
    if id in selected {
      assert Ids(vectors + [(id, embed(id))]) == Ids(vectors) + [id];
      forall i | 0 <= i < |vectors| ensures vectors[i].0 < id { assert Ids(vectors)[i] in Ids(vectors); }
    }
  }

  lemma GatherCount<V(!new)>(vectors: seq<(nat, V)>, selected: set<nat>, bound: nat, embed: nat -> V)
    requires Gathers(vectors, selected, bound, embed) && forall id | id in selected :: id < bound
    ensures |vectors| == |selected|
  {
    var ids := Ids(vectors);
    forall i, j | 0 <= i < j < |ids| ensures ids[i] != ids[j] { }
    DistinctCardinality<nat>(ids);
    var all := set x: nat | x in ids;
    assert |all| == |ids|;
    assert all == selected;
  }

  method BuildQueries<V(!new)>(queries: nat, items: nat, embed: nat -> V) returns (vectors: seq<(nat, V)>)
    requires queries <= items < PRODUCTION_ITEMS
    ensures items > 0 ==>
              Gathers(vectors, Selected(queries, items), items, embed) && |vectors| == |Selected(queries, items)|
    ensures items == 0 ==> vectors == []
  {
    hide Gathers, Selected;
    var selected := SelectQueries(queries, items);
    vectors := [];
    assert Gathers(vectors, selected, 0, embed) by { NothingGathered(selected, embed); }
    for id := 0 to items
      invariant Gathers(vectors, selected, id, embed) && (id == 0 ==> vectors == [])
    {
      GatherStep(vectors, selected, id, embed);
      if id in selected {
        vectors := vectors + [(id, embed(id))];
      }
    }
    if items > 0 {
      SelectedBelow(queries, items);
      GatherCount(vectors, selected, items, embed);
    }
  }

  lemma NothingGathered<V(!new)>(selected: set<nat>, embed: nat -> V)
    ensures Gathers([], selected, 0, embed)
  {
  }

  lemma SelectedBelow(queries: nat, items: nat)
    requires items > 0
    ensures forall id | id in Selected(queries, items) :: id < items
  {
  }

  // ----- the percentile ------------------------------------------------------------------

  predicate NatLeq(a: nat, b: nat) { a <= b }

  /** Sorts the samples in place and returns the ninety-fifth percentile in whole microseconds. */
  method Percentile95(samples: array<nat>) returns (micros: nat)
    modifies samples
    ensures samples[..] == Sort(old(samples[..]), NatLeq)
    ensures samples.Length == 0 ==> micros == 0
    ensures samples.Length > 0 ==> micros == samples[(samples.Length - 1) * 95 / 100] / 1_000
  {
    ghost var before := samples[..];
    SortPermutes(before, NatLeq);
    PermutationFacts(Sort(before, NatLeq), before);
    var sorted := Sort(samples[..], NatLeq);
    for i := 0 to samples.Length
      invariant samples[..i] == sorted[..i]
    {
      samples[i] := sorted[i];
    }
    assert samples[..] == samples[..samples.Length] == sorted;
    if samples.Length == 0 { return 0; }
    micros := samples[(samples.Length - 1) * 95 / 100] / 1_000;
  }

  function CountAtMost(samples: seq<nat>, v: nat): nat { |Filter(samples, v)| }

  function Filter(samples: seq<nat>, v: nat): (r: multiset<nat>) {
    if samples == [] then multiset{} else Filter(samples[1..], v) + if samples[0] <= v then multiset{samples[0]}
    else multiset{}
  }

  lemma {:induction false} FilterCount(samples: seq<nat>, v: nat, n: nat)
    requires n <= |samples| && forall i | 0 <= i < n :: samples[i] <= v
    ensures CountAtMost(samples, v) >= n
  {
    if n > 0 {
      forall i | 0 <= i < n - 1 ensures samples[1..][i] <= v { assert samples[1..][i] == samples[i + 1]; }
      FilterCount(samples[1..], v, n - 1);
    }
  }

  lemma {:induction false} FilterMeans(samples: seq<nat>, v: nat, x: nat)
    ensures Filter(samples, v)[x] == if x <= v then multiset(samples)[x] else 0
  {
    if samples != [] {
      FilterMeans(samples[1..], v, x);
      assert samples == [samples[0]] + samples[1..];
    }
  }

  /** The percentile is a sample, and more than ninety-five per cent of all samples but one are no
      larger. */
  lemma PercentileMeans(samples: seq<nat>)
    requires samples != []
    ensures |Sort(samples, NatLeq)| == |samples|
    ensures var index := (|samples| - 1) * 95 / 100;
            var v := Sort(samples, NatLeq)[index];
            v in samples && CountAtMost(samples, v) >= index + 1 && 100 * CountAtMost(samples, v) > 95 * (|samples| - 1)
  {
    var sorted := Sort(samples, NatLeq);
    SortPermutes(samples, NatLeq);
    PermutationFacts(sorted, samples);
    assert TotalPreorder(NatLeq);
    SortOrders(samples, NatLeq);
    var index := (|samples| - 1) * 95 / 100;
    var v := sorted[index];
    forall i | 0 <= i < index + 1 ensures sorted[i] <= v {
      if i < index { assert NatLeq(sorted[i], sorted[index]); }
    }
    FilterCount(sorted, v, index + 1);
    forall x ensures Filter(sorted, v)[x] == Filter(samples, v)[x] {
      FilterMeans(sorted, v, x);
      FilterMeans(samples, v, x);
    }
    assert Filter(sorted, v) == Filter(samples, v);
  }
}

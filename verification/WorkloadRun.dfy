/** benchmarks/src/bin/capacity-qualification.rs: what a run's workers report, in any order they finish. */
module WorkloadRun {
  import opened Primitives
  import opened Capacity

  const MAX_NOTES := 5

  /** One timed operation; the error text of a failed one. */
  datatype Timed = Timed(latency: real, error: Option<string>)

  type Output = seq<Timed>

  function Failures(output: Output): nat {
    if output == [] then 0 else Failures(output[..|output| - 1]) + if output[|output| - 1].error.Some? then 1 else 0
  }

  function Latencies(output: Output): (r: seq<real>)
    ensures |r| == |output| && forall i | 0 <= i < |r| :: r[i] == output[i].latency
  {
    seq(|output|, i requires 0 <= i < |output| => output[i].latency)
  }

  /** The errors of an output, in order. */
  function Errors(output: Output): seq<string> {
    if output == [] then []
    else Errors(output[..|output| - 1]) + match output[|output| - 1].error case Some(e) => [e] case None => []
  }

  function Concat(outputs: seq<Output>): Output {
    if outputs == [] then [] else Concat(outputs[..|outputs| - 1]) + outputs[|outputs| - 1]
  }

  datatype Tally = Tally(successes: nat, failures: nat, latencies: seq<real>, notes: seq<string>)

  /** What a tally says about the operations it saw: each counted and timed once, and the first
      five errors kept. */
  ghost predicate Accounts(t: Tally, seen: Output) {
    && t.failures == Failures(seen) && t.successes + t.failures == |seen|
    && t.latencies == Latencies(seen) && t.notes == Errors(seen)[..AtMost(|Errors(seen)|, MAX_NOTES)]
  }

  function Note(notes: seq<string>, error: string): seq<string> {
    if |notes| < MAX_NOTES then notes + [error] else notes
  }

  function Count(t: Tally, x: Timed): Tally {
    match x.error
    case None => t.(latencies := t.latencies + [x.latency], successes := t.successes + 1)
    case Some(e) => t.(latencies := t.latencies + [x.latency], failures := t.failures + 1, notes := Note(t.notes, e))
  }

  lemma CountStep(t: Tally, seen: Output, x: Timed)
    requires Accounts(t, seen)
    ensures Accounts(Count(t, x), seen + [x])
  {
    assert (seen + [x])[..|seen|] == seen;
    assert Latencies(seen + [x]) == Latencies(seen) + [x.latency];
  }

  /** Joins the workers as they finish: refused when one could not set up. */
  method CollectWorkers(joined: seq<Outcome<Output>>) returns (r: Outcome<Tally>, ghost outputs: seq<Output>)
    ensures r.Accept? <==> forall o | o in joined :: o.Accept?
    ensures r.Accept? ==> |outputs| == |joined| && (forall i | 0 <= i < |joined| :: joined[i] == Accept(outputs[i]))
    ensures r.Accept? ==> Accounts(r.value, Concat(outputs))
  {
    hide Accounts, Count;
    var t := Tally(0, 0, [], []);
    outputs := [];
    assert Accounts(t, []) by { NothingSeen(); }
    for i := 0 to |joined|
      invariant |outputs| == i && forall j | 0 <= j < i :: joined[j] == Accept(outputs[j])
      invariant Accounts(t, Concat(outputs))
    {
      if joined[i].Reject? {
        r := Reject;
        return;
      }
      var output := joined[i].value;
      ghost var before := Concat(outputs);
      assert before + output[..0] == before;
      for j := 0 to |output|
        invariant Accounts(t, before + output[..j])
      {
        CountStep(t, before + output[..j], output[j]);
        assert before + output[..j] + [output[j]] == before + output[..j + 1];
        t := Count(t, output[j]);
      }
      assert output[..|output|] == output;
      assert (outputs + [output])[..i] == outputs;
      outputs := outputs + [output];
    }
    r := Accept(t);
  }

  lemma NothingSeen()
    ensures Accounts(Tally(0, 0, [], []), [])
  {
  }

  // ----- any join order ------------------------------------------------------------------

  lemma {:induction false} ConcatKeepsOperations(outputs: seq<Output>, pos: nat)
    requires pos < |outputs|
    ensures multiset(Concat(outputs)) == multiset(Concat(outputs[..pos] + outputs[pos + 1..])) + multiset(outputs[pos])
  {
    var n := |outputs| - 1;
    var rest := outputs[..pos] + outputs[pos + 1..];
    if pos == n {
      assert rest == outputs[..n];
    } else {
      ConcatKeepsOperations(outputs[..n], pos);
      assert outputs[..n][..pos] + outputs[..n][pos + 1..] == rest[..n - 1];
      assert rest[n - 1] == outputs[n];
    }
  }

  /** The operations of a run do not depend on the order its workers finish in. */
  lemma {:induction false} OrderDoesNotMatter(xs: seq<Output>, ys: seq<Output>)
    requires multiset(xs) == multiset(ys)
    ensures multiset(Concat(xs)) == multiset(Concat(ys))
    decreases |xs|
  {
    hide Concat;
    PermutationFacts(xs, ys);
    if xs == [] {
      assert xs == ys;
    } else {
      var n := |xs| - 1;
      assert xs[n] in ys;
      var pos :| 0 <= pos < |ys| && ys[pos] == xs[n];
      Without(xs, n);
      Without(ys, pos);
      assert xs[..n] + xs[n + 1..] == xs[..n];
      OrderDoesNotMatter(xs[..n], ys[..pos] + ys[pos + 1..]);
      ConcatKeepsOperations(xs, n);
      ConcatKeepsOperations(ys, pos);
    }
  }

  lemma Without<T>(xs: seq<T>, pos: nat)
    requires pos < |xs|
    ensures multiset(xs[..pos] + xs[pos + 1..]) == multiset(xs) - multiset{xs[pos]}
  {
    assert xs == xs[..pos] + [xs[pos]] + xs[pos + 1..];
  }

  /** Worker outputs of a run in which every worker got its share done. */
  predicate Complete(outputs: seq<Output>, operations: nat) {
    outputs != [] && forall w | 0 <= w < |outputs| :: |outputs[w]| == SplitWork(operations, |outputs|, w)
  }

  lemma {:induction false} ConcatLength(outputs: seq<Output>, operations: nat, workers: nat, n: nat)
    requires workers > 0 && n <= |outputs| && forall w | 0 <= w < n :: |outputs[w]| == SplitWork(operations, workers, w)
    ensures |Concat(outputs[..n])| == ShareSum(operations, workers, n)
  {
    if n > 0 {
      ConcatLength(outputs, operations, workers, n - 1);
      assert outputs[..n][..n - 1] == outputs[..n - 1];
    }
  }

  lemma {:induction false} NoFailures(seen: Output)
    ensures Failures(seen) == 0 <==> forall x | x in seen :: x.error.None?
    ensures Failures(seen) == |Errors(seen)|
  {
    if seen != [] {
      var n := |seen| - 1;
      NoFailures(seen[..n]);
      assert seen == seen[..n] + [seen[n]];
    }
  }

  lemma {:induction false} InConcat(outputs: seq<Output>, x: Timed)
    ensures x in Concat(outputs) <==> exists w :: 0 <= w < |outputs| && x in outputs[w]
  {
    if outputs != [] {
      var n := |outputs| - 1;
      InConcat(outputs[..n], x);
      assert forall w | 0 <= w < n :: outputs[..n][w] == outputs[w];
    }
  }

  predicate Passed(t: Tally, operations: nat) { t.successes == operations && t.failures == 0 }

  /** Work conservation: however the workers finish, exactly the configured operations are counted and
      timed, the errors kept are the first five, and the profile passes exactly when no operation failed. */
  lemma WorkConservation(outputs: seq<Output>, joined: seq<Output>, t: Tally, operations: nat)
    requires Complete(outputs, operations) && multiset(joined) == multiset(outputs) && Accounts(t, Concat(joined))
    ensures t.successes + t.failures == operations == |t.latencies|
    ensures |t.notes| == AtMost(t.failures, MAX_NOTES)
    ensures Passed(t, operations) <==> forall w | 0 <= w < |outputs| :: forall x | x in outputs[w] :: x.error.None?
  {
    OrderDoesNotMatter(joined, outputs);
    PermutationFacts(Concat(joined), Concat(outputs));
    ConcatLength(outputs, operations, |outputs|, |outputs|);
    FairShares(operations, |outputs|, 0, 0);
    assert outputs[..|outputs|] == outputs;
    NoFailures(Concat(joined));
    forall w, x | 0 <= w < |outputs| && x in outputs[w] ensures x in Concat(joined) { InConcat(outputs, x); }
    forall x | x in Concat(joined) ensures exists w :: 0 <= w < |outputs| && x in outputs[w] { InConcat(outputs, x); }
  }

  // ----- percentiles ---------------------------------------------------------------------

  predicate RealLeq(a: real, b: real) { a <= b }

  /** Rounds to the nearest index, halves up. */
  function Rank(n: nat, p: real): nat
    requires n > 0 && 0.0 <= p
  {
    assert (n - 1) as real * p >= 0.0;
    AtMost(((n - 1) as real * p + 0.5).Floor, n - 1)
  }

  function Percentile(samples: seq<real>, p: real): real
    requires 0.0 <= p
  {
    if samples == [] then 0.0
    else
      var sorted := Sort(samples, RealLeq);
      SortPermutes(samples, RealLeq);
      PermutationFacts(sorted, samples);
      sorted[Rank(|samples|, p)]
  }

  lemma FloorMonotone(x: real, y: real)
    requires x <= y
    ensures x.Floor <= y.Floor
  {
  }

  lemma RankMonotone(n: nat, p: real, q: real)
    requires n > 0 && 0.0 <= p <= q
    ensures Rank(n, p) <= Rank(n, q)
  {
    var m := (n - 1) as real;
    assert m * q == m * p + m * (q - p) && m * (q - p) >= 0.0;
    FloorMonotone(m * p + 0.5, m * q + 0.5);
  }

  /** A percentile is a sample, higher ranks give no smaller ones, and all lie between the extremes. */
  lemma PercentileOrder(samples: seq<real>, p: real, q: real)
    requires samples != [] && 0.0 <= p <= q
    ensures Percentile(samples, p) in samples && Percentile(samples, p) <= Percentile(samples, q)
    ensures exists sorted: seq<real> ::
              && multiset(sorted) == multiset(samples) && |sorted| == |samples|
                  && (forall i, j | 0 <= i < j < |sorted| :: sorted[i] <= sorted[j])
              && sorted[Rank(|samples|, p)] == Percentile(samples, p)
  {
    var sorted := Sort(samples, RealLeq);
    SortPermutes(samples, RealLeq);
    PermutationFacts(sorted, samples);
    assert TotalPreorder(RealLeq);
    SortOrders(samples, RealLeq);
    RankMonotone(|samples|, p, q);
    assert forall i, j | 0 <= i < j < |sorted| :: RealLeq(sorted[i], sorted[j]);
  }
}

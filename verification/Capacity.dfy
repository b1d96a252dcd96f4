/** benchmarks/src/bin/capacity-qualification.rs: fair shares, saturating quotas and worker accounting. */
module Capacity {
  import opened Primitives

  const U32_MAX: nat := 0xFFFF_FFFF
  const U64_MAX: nat := 0xFFFF_FFFF_FFFF_FFFF

  /** Machine words of the supported 64-bit targets. */
  type usize = n: nat | n <= U64_MAX
  type u32 = n: nat | n <= U32_MAX

  function Clamp64(n: nat): usize { if n <= U64_MAX then n else U64_MAX }
  function Clamp32(n: nat): u32 { if n <= U32_MAX then n else U32_MAX }
  function AtLeast(n: nat, minimum: nat): nat { if n < minimum then minimum else n }
  function AtMost(n: nat, maximum: nat): nat { if n < maximum then n else maximum }
  function DivCeil(n: nat, m: nat): nat requires m > 0 { n / m + if n % m == 0 then 0 else 1 }

  datatype Kind = Idle | ManyAgents | LongContext | ToolHeavy | ProviderLatency | TenantContention | PackageInstall
    | Restart

  datatype Profile = Profile(
    name: string, kind: Kind, operations: usize, concurrency: usize, durationMs: usize, payloadBytes: usize,
    providerDelayMs: usize, tenants: usize, agentsPerTenant: usize)

  // ----- validation and smoke scaling ----------------------------------------------------

  predicate ProfileOk(p: Profile) {
    && p.operations > 0 && 0 < p.concurrency <= p.operations
    && match p.kind
       case Idle => p.durationMs > 0
       case LongContext => p.payloadBytes > 0
       case ProviderLatency => p.payloadBytes > 0 && p.providerDelayMs > 0
       case TenantContention => p.payloadBytes > 0 && p.tenants >= 2 && p.agentsPerTenant > 0
       case PackageInstall => p.payloadBytes > 0
       case Restart => p.agentsPerTenant > 0
       case _ => true
  }

  function Names(ps: seq<Profile>): (names: seq<string>)
    ensures |names| == |ps| && forall i | 0 <= i < |names| :: names[i] == ps[i].name
  {
    seq(|ps|, i requires 0 <= i < |ps| => ps[i].name)
  }

  datatype Suite = Suite(schemaVersion: int, name: string, profiles: seq<Profile>)

  /** A named suite: valid profiles with distinct non-blank names, one for each required name and kind. */
  ghost predicate SuiteOk(s: Suite, required: map<string, Kind>, blank: string -> bool) {
    s.schemaVersion == 1 && !blank(s.name) && ProfilesOk(s.profiles, required, blank)
  }

  ghost predicate ProfilesOk(ps: seq<Profile>, required: map<string, Kind>, blank: string -> bool) {
    && (forall p | p in ps :: !blank(p.name) && ProfileOk(p))
    && NoDuplicates(Names(ps))
    && (forall p | p in ps :: p.name in required && required[p.name] == p.kind)
    && (forall name | name in required :: name in Names(ps))
  }

  /** `seen` holds the kinds of the profiles so far. */
  ghost predicate Indexes(seen: map<string, Kind>, ps: seq<Profile>) {
    && (forall name :: name in seen <==> name in Names(ps))
    && (forall p | p in ps :: p.name in seen && seen[p.name] == p.kind)
  }

  lemma IndexStep(seen: map<string, Kind>, ps: seq<Profile>, i: nat)
    requires i < |ps| && Indexes(seen, ps[..i]) && NoDuplicates(Names(ps[..i]))
    ensures ps[i].name in seen ==> !NoDuplicates(Names(ps))
    ensures ps[i].name !in seen ==>
              Indexes(seen[ps[i].name := ps[i].kind], ps[..i + 1]) && NoDuplicates(Names(ps[..i + 1]))
  {
    var before, after := Names(ps[..i]), Names(ps[..i + 1]);
    assert ps[..i + 1] == ps[..i] + [ps[i]];
    assert after == before + [ps[i].name];
    if ps[i].name in seen {
      var j :| 0 <= j < i && before[j] == ps[i].name;
      assert Names(ps)[j] == Names(ps)[i];
    } else {
      forall p | p in ps[..i] ensures p.name != ps[i].name { assert p.name in seen; }
      forall j | 0 <= j < i ensures after[j] != after[i] { assert ps[j] in ps[..i]; }
    }
  }

  lemma IndexMeans(seen: map<string, Kind>, ps: seq<Profile>, required: map<string, Kind>)
    requires Indexes(seen, ps) && NoDuplicates(Names(ps))
    ensures seen == required <==>
              && (forall p | p in ps :: p.name in required && required[p.name] == p.kind)
              && (forall name | name in required :: name in Names(ps))
  {
    forall name | name in seen ensures exists p :: p in ps && p.name == name && seen[name] == p.kind {
      var j :| 0 <= j < |ps| && Names(ps)[j] == name;
      assert ps[j] in ps;
    }
  }

  method ValidateConfig(s: Suite, required: map<string, Kind>, blank: string -> bool) returns (ok: bool)
    ensures ok <==> SuiteOk(s, required, blank)
  {
    hide ProfileOk, Indexes, NoDuplicates;
    if s.schemaVersion != 1 || blank(s.name) { return false; }
    var ps := s.profiles;
    var seen: map<string, Kind> := map[];
    EmptyIndex();
    assert ps[..0] == [];
    for i := 0 to |ps|
      invariant Indexes(seen, ps[..i]) && NoDuplicates(Names(ps[..i]))
      invariant forall j | 0 <= j < i :: !blank(ps[j].name) && ProfileOk(ps[j])
    {
      var p := ps[i];
      IndexStep(seen, ps, i);
      if blank(p.name) || p.name in seen || !ProfileOk(p) { return false; }
      seen := seen[p.name := p.kind];
    }
    assert ps[..|ps|] == ps;
    IndexMeans(seen, ps, required);
    ok := seen == required;
  }

  lemma EmptyIndex()
    ensures Indexes(map[], []) && NoDuplicates(Names([]))
  {
  }

  function SmokeOperations(kind: Kind): nat {
    match kind
    case Idle => 1 case Restart => 1
    case ManyAgents => 4 case ToolHeavy => 4 case TenantContention => 4
    case _ => 2
  }

  function SmokeScale(p: Profile): Profile {
    var operations := SmokeOperations(p.kind);
    p.(operations := operations, concurrency := AtMost(AtMost(p.concurrency, operations), 2),
       durationMs := AtMost(p.durationMs, 5),
       payloadBytes := AtMost(p.payloadBytes, 1024), providerDelayMs := AtMost(p.providerDelayMs, 5),
       tenants := if p.kind == TenantContention then 2 else 1,
       agentsPerTenant := AtMost(AtLeast(p.agentsPerTenant, 1), 2))
  }

  function SmokeAll(ps: seq<Profile>): (r: seq<Profile>)
    ensures |r| == |ps| && forall i | 0 <= i < |r| :: r[i] == SmokeScale(ps[i])
  {
    seq(|ps|, i requires 0 <= i < |ps| => SmokeScale(ps[i]))
  }

  /** Scaling a valid suite down gives a valid suite. */
  lemma SmokeKeepsSuite(s: Suite, required: map<string, Kind>, blank: string -> bool)
    requires SuiteOk(s, required, blank)
    ensures SuiteOk(s.(profiles := SmokeAll(s.profiles)), required, blank)
  {
    hide ProfileOk, SmokeScale;
    var ps, smoke := s.profiles, SmokeAll(s.profiles);
    forall i | 0 <= i < |ps|
      ensures smoke[i].name == ps[i].name && smoke[i].kind == ps[i].kind && ProfileOk(smoke[i]) && ps[i] in ps
    {
      SmokeKeepsProfile(ps[i]);
    }
    assert Names(smoke) == Names(ps);
  }

  lemma SmokeKeepsProfile(p: Profile)
    requires ProfileOk(p)
    ensures ProfileOk(SmokeScale(p)) && SmokeScale(p).name == p.name && SmokeScale(p).kind == p.kind
  {
  }

  // ----- shares --------------------------------------------------------------------------

  function SplitWork(total: nat, workers: nat, worker: nat): nat
    requires workers > 0
  {
    total / workers + if worker < total % workers then 1 else 0
  }

  /** The work of the first `n` workers. */
  function ShareSum(total: nat, workers: nat, n: nat): nat
    requires workers > 0
  {
    if n == 0 then 0 else ShareSum(total, workers, n - 1) + SplitWork(total, workers, n - 1)
  }

  lemma {:induction false} SharesSoFar(total: nat, workers: nat, n: nat)
    requires workers > 0
    ensures ShareSum(total, workers, n) == n * (total / workers) + AtMost(n, total % workers)
  {
    if n > 0 {
      SharesSoFar(total, workers, n - 1);
      assert n * (total / workers) == (n - 1) * (total / workers) + total / workers;
    }
  }

  /** The shares add up to the work, differ by at most one, and the largest is the ceiling. */
  lemma FairShares(total: nat, workers: nat, v: nat, w: nat)
    requires v < workers && w < workers
    ensures ShareSum(total, workers, workers) == total
    ensures -1 <= SplitWork(total, workers, v) - SplitWork(total, workers, w) <= 1
    ensures SplitWork(total, workers, w) <= DivCeil(total, workers) == SplitWork(total, workers, 0)
  {
    SharesSoFar(total, workers, workers);
    assert workers * (total / workers) + total % workers == total;
  }

  // ----- the quota -----------------------------------------------------------------------

  datatype Budget = Budget(
    rpm: u32, tpm: usize, maxConcurrent: u32, maxWaiting: u32, agentTpm: usize, maxOutput: u32,
    maxContext: usize, tenantContext: usize, globalContext: usize)

  predicate Metered(p: Profile) { p.kind == LongContext || p.kind == ProviderLatency || p.kind == TenantContention }

  /** Tokens one operation can add to a context, before any clamping. */
  function TokensPerOperation(p: Profile, maxOutput: nat): nat { DivCeil(p.payloadBytes, 4) + maxOutput + 65_536 }

  function OperationsPerAgent(p: Profile): nat { AtLeast(DivCeil(p.operations, AtLeast(p.concurrency, 1)), 1) }

  lemma ClampedProduct(x: nat, n: nat)
    ensures Clamp64(Clamp64(x) * n) == Clamp64(x * n)
  {
    if x > U64_MAX && n > 0 {
      assert U64_MAX * n >= U64_MAX;
      assert x * n >= x;
    }
  }

  lemma ClampedSum(x: nat, n: nat)
    ensures Clamp64(Clamp64(x) + n) == Clamp64(x + n)
  {
  }

  /** Tokens for `n` operations that each carry all `n` contexts, twice over. */
  function TokenQuota(tokens: nat, n: nat): nat { Times(Times(Times(tokens, n), n), 2) }

  function ContextLimit(tokens: nat, perAgent: nat): nat { Times(tokens, perAgent) + 8_192 }

  function Times(a: nat, b: nat): nat { a * b }

  /** The limits, each exact up to one clamp. */
  function LimitsOf(p: Profile, defaults: Budget): Budget {
    var waiting := AtLeast(Clamp32(2 * p.concurrency), 16);
    if !Metered(p) then defaults.(maxWaiting := waiting)
    else
      var tokens := TokensPerOperation(p, defaults.maxOutput);
      var tpm, context := TokenQuota(tokens, p.operations), ContextLimit(tokens, OperationsPerAgent(p));
      var perTenant := Times(context, AtLeast(p.agentsPerTenant, 1));
      Budget(AtLeast(Clamp32(2 * p.operations), 60), Clamp64(tpm), AtLeast(Clamp32(p.concurrency), 1), waiting,
             Clamp64(tpm),
             defaults.maxOutput, Clamp64(context), Clamp64(perTenant), Clamp64(Times(perTenant, AtLeast(p.tenants, 1))))
  }

  /** The chain of saturating steps clamps no more than once. */
  method BudgetFor(p: Profile, defaults: Budget) returns (b: Budget)
    ensures b == LimitsOf(p, defaults)
  {
    b := defaults.(maxWaiting := AtLeast(Clamp32(Clamp64(p.concurrency * 2)), 16));
    if Metered(p) {
      var prompt := DivCeil(p.payloadBytes, 4);
      var tokens := Clamp64(Clamp64(prompt + b.maxOutput) + 65_536);
      var n: nat, perAgent := p.operations, OperationsPerAgent(p);
      ghost var exact := TokensPerOperation(p, defaults.maxOutput);
      ClampedSum(prompt + b.maxOutput, 65_536);
      b := b.(rpm := AtLeast(Clamp32(Clamp64(n * 2)), 60));
      ClampedProduct(exact, n);
      ClampedProduct(exact * n, n);
      ClampedProduct(exact * n * n, 2);
      b := b.(tpm := Clamp64(Clamp64(Clamp64(tokens * n) * n) * 2));
      b := b.(maxConcurrent := AtLeast(Clamp32(p.concurrency), 1));
      b := b.(agentTpm := b.tpm);
      ClampedProduct(exact, perAgent);
      ClampedSum(exact * perAgent, 8_192);
      b := b.(maxContext := Clamp64(Clamp64(tokens * perAgent) + 8_192));
      var agents, tenants := AtLeast(p.agentsPerTenant, 1), AtLeast(p.tenants, 1);
      ClampedProduct(exact * perAgent + 8_192, agents);
      ClampedProduct((exact * perAgent + 8_192) * agents, tenants);
      b := b.(tenantContext := Clamp64(b.maxContext * agents));
      b := b.(globalContext := Clamp64(b.tenantContext * tenants));
    }
  }

  // ----- quadratic growth ----------------------------------------------------------------

  /** Tokens charged to an agent whose k-th turn carries k operations' tokens. */
  function AgentCost(tokens: nat, turns: nat): nat {
    if turns == 0 then 0 else AgentCost(tokens, turns - 1) + turns * tokens
  }

  /** The agents of the first `n` workers, one each. */
  function RunCost(tokens: nat, total: nat, workers: nat, n: nat): nat
    requires workers > 0
  {
    if n == 0 then 0 else RunCost(tokens, total, workers, n - 1) + AgentCost(tokens, SplitWork(total, workers, n - 1))
  }

  lemma {:induction false} AgentCostBound(tokens: nat, turns: nat)
    ensures AgentCost(tokens, turns) <= turns * turns * tokens
  {
    if turns > 0 {
      AgentCostBound(tokens, turns - 1);
      assert turns * turns == (turns - 1) * (turns - 1) + (turns - 1) + turns;
      Distribute((turns - 1) * (turns - 1), (turns - 1), turns, tokens);
    }
  }

  lemma Distribute(a: nat, b: nat, c: nat, t: nat)
    ensures (a + b + c) * t == a * t + b * t + c * t
  {
  }

  lemma SquareOfSum(a: nat, b: nat, t: nat)
    ensures a * a * t + b * b * t <= (a + b) * (a + b) * t
  {
    assert (a + b) * (a + b) == a * a + b * b + 2 * (a * b);
    Distribute(a * a, b * b, 2 * (a * b), t);
    assert 2 * (a * b) * t >= 0;
  }

  lemma {:induction false} RunCostBound(tokens: nat, total: nat, workers: nat, n: nat)
    requires workers > 0
    ensures RunCost(tokens, total, workers, n) <= ShareSum(total, workers, n) * ShareSum(total, workers, n) * tokens
  {
    if n > 0 {
      RunCostBound(tokens, total, workers, n - 1);
      AgentCostBound(tokens, SplitWork(total, workers, n - 1));
      SquareOfSum(ShareSum(total, workers, n - 1), SplitWork(total, workers, n - 1), tokens);
    }
  }

  lemma QuotaOrder(cost: nat, n: nat, tokens: nat)
    requires cost <= n * n * tokens
    ensures Clamp64(cost) <= Clamp64(tokens * n * n * 2)
  {
    assert n * n * tokens == tokens * n * n;
  }

  lemma ContextOrder(load: nat, bound: nat, tokens: nat)
    requires load <= bound
    ensures load * tokens <= tokens * bound
  {
  }

  /** For a valid provider profile the token quota covers every turn of the run together, the context
      limit covers every worker's last turn, and the request quota covers every operation, up to
      clamping at the word size. */
  lemma QuotaCoversGrowth(p: Profile, defaults: Budget, w: nat)
    requires ProfileOk(p) && Metered(p) && w < p.concurrency
    ensures var tokens, limits := TokensPerOperation(p, defaults.maxOutput), LimitsOf(p, defaults);
            && Clamp64(RunCost(tokens, p.operations, p.concurrency, p.concurrency)) <= limits.tpm
            && Clamp64(Times(SplitWork(p.operations, p.concurrency, w), tokens)) <= limits.maxContext
            && Clamp32(p.operations) <= limits.rpm
  {
    var tokens := TokensPerOperation(p, defaults.maxOutput);
    FairShares(p.operations, p.concurrency, w, w);
    RunCostBound(tokens, p.operations, p.concurrency, p.concurrency);
    QuotaOrder(RunCost(tokens, p.operations, p.concurrency, p.concurrency), p.operations, tokens);
    ContextOrder(SplitWork(p.operations, p.concurrency, w), OperationsPerAgent(p), tokens);
  }

  // ----- tenant contention ---------------------------------------------------------------

  /** How many of the first `n` operations a tenant sends to one of its agents, in turn. */
  function AgentLoad(n: nat, agents: nat, agent: nat): nat
    requires agents > 0
  {
    if n == 0 then 0 else AgentLoad(n - 1, agents, agent) + if (n - 1) % agents == agent then 1 else 0
  }

  lemma NextQuotient(n: nat, m: nat)
    requires m > 0
    ensures (n + 1) % m == (if n % m + 1 < m then n % m + 1 else 0)
            && (n + 1) / m == n / m + if n % m + 1 < m then 0 else 1
  {
    var q, r := n / m, n % m;
    assert n + 1 == q * m + r + 1;
    if r + 1 < m {
      QuotientUnique(n + 1, m, q, r + 1);
    } else {
      assert n + 1 == (q + 1) * m;
      QuotientUnique(n + 1, m, q + 1, 0);
    }
  }

  /** Dealing operations out in turn gives every agent its fair share. */
  lemma {:induction false} LoadIsShare(n: nat, agents: nat, agent: nat)
    requires agent < agents
    ensures AgentLoad(n, agents, agent) == SplitWork(n, agents, agent)
  {
    if n > 0 {
      LoadIsShare(n - 1, agents, agent);
      NextQuotient(n - 1, agents);
    } else {
      QuotientUnique(0, agents, 0, 0);
    }
  }

  lemma CeilingAtMost(n: nat, m: nat, k: nat)
    requires m > 0
    ensures DivCeil(n, m) <= k <==> n <= k * m
  {
    var q, r := n / m, n % m;
    assert n == q * m + r;
    if DivCeil(n, m) <= k {
      assert DivCeil(n, m) * m <= k * m;
      if r > 0 { assert (q + 1) * m == q * m + m; }
    } else {
      if r == 0 {
        assert k + 1 <= q;
        assert (k + 1) * m <= q * m;
        assert (k + 1) * m == k * m + m;
      } else {
        assert k <= q;
        assert k * m <= q * m;
      }
    }
  }

  lemma CeilingOfCeiling(n: nat, a: nat, b: nat)
    requires a > 0 && b > 0
    ensures DivCeil(DivCeil(n, a), b) == DivCeil(n, a * b)
  {
    var x, y := DivCeil(DivCeil(n, a), b), DivCeil(n, a * b);
    CeilingsCompare(n, a, b, x);
    CeilingsCompare(n, a, b, y);
  }

  lemma CeilingsCompare(n: nat, a: nat, b: nat, k: nat)
    requires a > 0 && b > 0
    ensures DivCeil(DivCeil(n, a), b) <= k <==> DivCeil(n, a * b) <= k
  {
    hide DivCeil;
    CeilingAtMost(DivCeil(n, a), b, k);
    CeilingAtMost(n, a, k * b);
    CeilingAtMost(n, a * b, k);
    assert k * b * a == k * (a * b);
  }

  /** Every agent of every tenant stays within the context limit exactly when the limit is clamped or
      the most loaded agent's share is no larger than the share per worker the limit is computed
      from; that holds whenever there are at least as many agents as workers. */
  lemma TenantContextFits(p: Profile, defaults: Budget)
    requires ProfileOk(p) && p.kind == TenantContention
    ensures var tokens, limit := TokensPerOperation(p, defaults.maxOutput), LimitsOf(p, defaults).maxContext;
            (forall t, a | 0 <= t < p.tenants && 0 <= a < p.agentsPerTenant ::
               Clamp64(Times(AgentLoad(SplitWork(p.operations, p.tenants, t), p.agentsPerTenant, a),
                             tokens)) <= limit) <==>
            limit == U64_MAX || DivCeil(p.operations, p.tenants * p.agentsPerTenant) <= OperationsPerAgent(p)
    ensures p.tenants * p.agentsPerTenant >= p.concurrency ==>
              DivCeil(p.operations, p.tenants * p.agentsPerTenant) <= OperationsPerAgent(p)
  {
    hide DivCeil, TokensPerOperation, AgentLoad, SplitWork, ProfileOk;
    var tokens, share := TokensPerOperation(p, defaults.maxOutput), OperationsPerAgent(p);
    var agents := AgentCount(p);
    var worst := DivCeil(p.operations, agents);
    CeilingOfCeiling(p.operations, p.tenants, p.agentsPerTenant);
    LargePerOperation(p, defaults.maxOutput);
    forall t, a | 0 <= t < p.tenants && 0 <= a < p.agentsPerTenant
      ensures Clamp64(AgentLoad(SplitWork(p.operations, p.tenants, t), p.agentsPerTenant, a) * tokens)
              <= Clamp64(worst * tokens)
    {
      TenantLoad(p, t, a);
      ContextOrder(AgentLoad(SplitWork(p.operations, p.tenants, t), p.agentsPerTenant, a), worst, tokens);
    }
    TenantLoad(p, 0, 0);
    LimitDecides(worst, share, tokens);
    ManyAgentsSuffice(p);
  }

  lemma AgentCount(p: Profile) returns (agents: nat)
    requires ProfileOk(p) && p.kind == TenantContention
    ensures agents == p.tenants * p.agentsPerTenant > 0 && p.tenants > 0 && p.agentsPerTenant > 0 && p.concurrency > 0
  {
    agents := p.tenants * p.agentsPerTenant;
  }

  lemma LargePerOperation(p: Profile, maxOutput: u32)
    ensures TokensPerOperation(p, maxOutput) > 8_192
  {
  }

  lemma LimitDecides(worst: nat, share: nat, tokens: nat)
    requires tokens > 8_192
    ensures Clamp64(worst * tokens) <= Clamp64(tokens * share + 8_192) <==>
        Clamp64(tokens * share + 8_192) == U64_MAX || worst <= share
  {
    if worst <= share {
      ContextOrder(worst, share, tokens);
    } else {
      ContextOrder(share + 1, worst, tokens);
      assert (share + 1) * tokens == tokens * share + tokens;
    }
  }

  lemma ManyAgentsSuffice(p: Profile)
    requires ProfileOk(p) && p.kind == TenantContention
    ensures p.tenants * p.agentsPerTenant > 0
    ensures p.tenants * p.agentsPerTenant >= p.concurrency ==>
              DivCeil(p.operations, p.tenants * p.agentsPerTenant) <= OperationsPerAgent(p)
  {
    hide DivCeil;
    var share, agents := OperationsPerAgent(p), p.tenants * p.agentsPerTenant;
    if agents >= p.concurrency {
      CeilingAtMost(p.operations, p.concurrency, share);
      CeilingAtMost(p.operations, agents, share);
      ContextOrder(p.concurrency, agents, share);
    }
  }

  lemma TenantLoad(p: Profile, t: nat, a: nat)
    requires ProfileOk(p) && p.kind == TenantContention && t < p.tenants && a < p.agentsPerTenant
    ensures AgentLoad(SplitWork(p.operations, p.tenants, t), p.agentsPerTenant, a) <=
            DivCeil(DivCeil(p.operations, p.tenants), p.agentsPerTenant)
    ensures AgentLoad(SplitWork(p.operations, p.tenants, 0), p.agentsPerTenant, 0) ==
            DivCeil(DivCeil(p.operations, p.tenants), p.agentsPerTenant)
  {
    var mine, most := SplitWork(p.operations, p.tenants, t), SplitWork(p.operations, p.tenants, 0);
    FairShares(p.operations, p.tenants, t, 0);
    FairShares(mine, p.agentsPerTenant, a, 0);
    FairShares(most, p.agentsPerTenant, 0, 0);
    LoadIsShare(mine, p.agentsPerTenant, a);
    LoadIsShare(most, p.agentsPerTenant, 0);
    var k := DivCeil(most, p.agentsPerTenant);
    CeilingAtMost(most, p.agentsPerTenant, k);
    CeilingAtMost(mine, p.agentsPerTenant, k);
  }

  /** The tenants' agents together: every tenant deals its share out over its agents. */
  function TenantCost(tokens: nat, p: Profile, n: nat): nat
    requires p.tenants > 0 && p.agentsPerTenant > 0
  {
    if n == 0 then 0
    else TenantCost(tokens, p, n - 1) + RunCost(tokens, SplitWork(p.operations, p.tenants, n - 1), p.agentsPerTenant,
                                                p.agentsPerTenant)
  }

  lemma {:induction false} TenantCostBound(tokens: nat, p: Profile, n: nat)
    requires p.tenants > 0 && p.agentsPerTenant > 0
    ensures var shares := ShareSum(p.operations, p.tenants, n); TenantCost(tokens, p, n) <= shares * shares * tokens
  {
    if n > 0 {
      TenantCostBound(tokens, p, n - 1);
      var mine := SplitWork(p.operations, p.tenants, n - 1);
      RunCostBound(tokens, mine, p.agentsPerTenant, p.agentsPerTenant);
      FairShares(mine, p.agentsPerTenant, 0, 0);
      SquareOfSum(ShareSum(p.operations, p.tenants, n - 1), mine, tokens);
    }
  }

  /** The token quota covers a tenant-contention run however its agents and workers compare. */
  lemma QuotaCoversTenants(p: Profile, defaults: Budget)
    requires ProfileOk(p) && p.kind == TenantContention
    ensures Clamp64(TenantCost(TokensPerOperation(p, defaults.maxOutput), p, p.tenants)) <= LimitsOf(p, defaults).tpm
  {
    var tokens := TokensPerOperation(p, defaults.maxOutput);
    FairShares(p.operations, p.tenants, 0, 0);
    TenantCostBound(tokens, p, p.tenants);
    QuotaOrder(TenantCost(tokens, p, p.tenants), p.operations, tokens);
  }

  /** Fewer agents than workers can overflow the limit: four operations for four workers, but two agents. */
  lemma TenantContextCanOverflow(p: Profile, defaults: Budget)
    requires p.kind == TenantContention && p.operations == p.concurrency == 4 && p.payloadBytes == 4
    requires p.tenants == 2 && p.agentsPerTenant == 1
    ensures ProfileOk(p)
    ensures var load := AgentLoad(SplitWork(p.operations, p.tenants, 0), p.agentsPerTenant, 0);
            load * TokensPerOperation(p, defaults.maxOutput) > LimitsOf(p, defaults).maxContext
  {
    LoadIsShare(2, 1, 0);
  }
}

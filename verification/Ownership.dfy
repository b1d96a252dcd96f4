/** crates/kernel/src/cluster_consensus.rs: agent leases as a replicated state machine with fencing tokens,
    idempotency receipts and an audit trail. */
module Ownership {
  import opened Primitives

  const MAX_RECEIPTS := 4_096
  const MAX_LEASES := 1_000_000
  const MAX_AUDIT := 100_000
  const U64_MAX: nat := 0xFFFF_FFFF_FFFF_FFFF
  const MIN_TTL: nat := 5
  const MAX_TTL: nat := 300

  /** The field rules of commands, and the last instant the clock can hold. */
  datatype Rules = Rules(isCanonical: string -> bool, isUuid: string -> bool, textOk: string -> bool,
                         reasonOk: string -> bool, maxTime: Micros)

  datatype MemberState = Active | Left | Revoked
  datatype Member = Member(state: MemberState, generation: nat)

  datatype Lease = Lease(
    agent: string, owner: string, term: nat, token: nat, generation: nat, released: bool, expiresAt: Micros,
    updatedAt: Micros, reason: string)

  datatype Operation = Claim | Transfer | Renew | Release

  datatype Audit = Audit(
    agent: string, generation: nat, previousOwner: Option<string>, owner: string, term: nat, token: nat,
    operation: Operation, actor: string, reason: string, changedAt: Micros)

  datatype Control = Control(time: Micros, members: map<string, Member>, revisions: nat, leases: map<string, Lease>,
                             audit: seq<Audit>)

  /** Register and SetMember carry, as `admitted`, the answer of the checks on join challenges, identities and
      certificate rollouts. */
  datatype Command =
    | Initialize(id: string, at: Micros, genesis: set<string>)
    | Barrier(id: string, at: Micros, expected: Option<nat>)
    | AdvanceTime(id: string, at: Micros)
    | Register(id: string, at: Micros, node: string, admitted: bool)
    | SetMember(id: string, at: Micros, node: string, state: MemberState, expectedGeneration: nat, actor: string,
                reason: string, admitted: bool)
    | ClaimLease(id: string, at: Micros, agent: string, owner: string, ttl: nat, expectedToken: Option<nat>,
                 actor: string, reason: string)
    | RenewLease(id: string, at: Micros, agent: string, owner: string, token: nat, ttl: nat, actor: string,
                 reason: string)
    | ReleaseLease(id: string, at: Micros, agent: string, owner: string, token: nat, actor: string, reason: string)

  datatype LogId = LogId(term: nat, index: nat)

  datatype Result = Initialized | BarrierPassed | MemberUpdated(member: Member) | LeaseUpdated(lease: Lease)

  datatype Response =
    | Done(id: string, sequence: nat, log: LogId, replayed: bool, result: Result)
    | TimeAdvanced(id: string, time: Micros)
    | Refused(id: string)

  datatype Receipt = Receipt(command: Command, response: Response)

  datatype State = State(sequence: nat, receipts: map<string, Receipt>, control: Option<Control>)

  // ----- leases --------------------------------------------------------------------------

  /** Every accepted change happens at a later logical instant than the one before. */
  function Advance(r: Rules, c: Control, at: Micros): Outcome<Micros> {
    if c.time + 1 > r.maxTime then Reject else Accept(if at < c.time + 1 then c.time + 1 else at)
  }

  function Record(c: Control, l: Lease, op: Operation, previousOwner: Option<string>, actor: string): Control {
    c.(time := l.updatedAt, leases := c.leases[l.agent := l],
       audit := c.audit + [Audit(l.agent, l.generation, previousOwner, l.owner, l.term, l.token, op, actor, l.reason,
                                 l.updatedAt)])
  }

  predicate RequestOk(r: Rules, agent: string, owner: string, ttl: nat, actor: string, reason: string) {
    r.isUuid(agent) && r.isUuid(owner) && MIN_TTL <= ttl <= MAX_TTL && r.textOk(actor) && r.reasonOk(reason)
  }

  predicate IsActive(c: Control, node: string) { node in c.members && c.members[node].state == Active }

  /** The token, generation and audit operation of a claim, when it may take the lease over. */
  function ClaimTerms(c: Control, agent: string, expected: Option<nat>, now: Micros)
    : Outcome<(nat, nat, Operation, Option<string>)>
  {
    if agent !in c.leases then if expected.Some? then Reject else Accept((1, 1, Claim, None))
    else
      var l := c.leases[agent];
      if expected != Some(l.token) || (!l.released && l.expiresAt > now) then Reject
      else if l.token >= U64_MAX || l.generation >= U64_MAX then Reject
      else Accept((l.token + 1, l.generation + 1, Transfer, Some(l.owner)))
  }

  function ApplyClaim(r: Rules, c: Control, m: Command, term: nat): Outcome<(Control, Lease)>
    requires m.ClaimLease?
  {
    if !RequestOk(r, m.agent, m.owner, m.ttl, m.actor, m.reason) || !IsActive(c, m.owner) then Reject
    else if (|c.leases| >= MAX_LEASES && m.agent !in c.leases) || |c.audit| >= MAX_AUDIT then Reject
    else
      var now :- Advance(r, c, m.at);
      var (token, generation, op, previous) :- ClaimTerms(c, m.agent, m.expectedToken, now);
      if now + m.ttl * SECOND > r.maxTime then Reject
      else
        var l := Lease(m.agent, m.owner, term, token, generation, false, now + m.ttl * SECOND, now, m.reason);
        Accept((Record(c, l, op, previous, m.actor), l))
  }

  /** The lease of an agent is live under this owner and token. */
  predicate Holds(c: Control, agent: string, owner: string, token: nat) {
    agent in c.leases && !c.leases[agent].released && c.leases[agent].owner == owner && c.leases[agent].token == token
  }

  function ApplyRenew(r: Rules, c: Control, m: Command, term: nat): Outcome<(Control, Lease)>
    requires m.RenewLease?
  {
    if !RequestOk(r, m.agent, m.owner, m.ttl, m.actor, m.reason) || !IsActive(c, m.owner) || |c.audit| >= MAX_AUDIT
    then Reject
    else if m.agent !in c.leases then Reject
    else
      var now :- Advance(r, c, m.at);
      if !Holds(c, m.agent, m.owner, m.token) then Reject
      else
        var l := c.leases[m.agent];
        if l.expiresAt <= now || l.generation >= U64_MAX || now + m.ttl * SECOND > r.maxTime then Reject
        else
          var l' := l.(term := term, generation := l.generation + 1, expiresAt := now + m.ttl * SECOND,
                       updatedAt := now, reason := m.reason);
          Accept((Record(c, l', Renew, Some(m.owner), m.actor), l'))
  }

  function Released(l: Lease, term: nat, now: Micros, reason: string): Lease {
    l.(term := term, generation := l.generation + 1, released := true, expiresAt := now, updatedAt := now,
       reason := reason)
  }

  function ApplyRelease(r: Rules, c: Control, m: Command, term: nat): Outcome<(Control, Lease)>
    requires m.ReleaseLease?
  {
    if !r.isUuid(m.agent) || !r.isUuid(m.owner) || !r.textOk(m.actor) || !r.reasonOk(m.reason) then Reject
    else if |c.audit| >= MAX_AUDIT || !Holds(c, m.agent, m.owner, m.token) then Reject
    else
      var now :- Advance(r, c, m.at);
      var l := c.leases[m.agent];
      if l.generation >= U64_MAX then Reject
      else var l' := Released(l, term, now, m.reason); Accept((Record(c, l', Release, Some(m.owner), m.actor), l'))
  }

  // ----- members -------------------------------------------------------------------------

  /** The agents whose live lease `node` holds. */
  function Owned(c: Control, node: string, now: Micros): set<string> {
    set a | a in c.leases && c.leases[a].owner == node && !c.leases[a].released && c.leases[a].expiresAt > now
  }

  /** Releases the leases of `ids` one after the other. */
  function ReleaseAll(c: Control, ids: seq<string>, term: nat, actor: string, reason: string): Outcome<Control> {
    if ids == [] then Accept(c)
    else
      var n := |ids| - 1;
      var c' :- ReleaseAll(c, ids[..n], term, actor, reason);
      if ids[n] !in c'.leases || c'.leases[ids[n]].generation >= U64_MAX then Reject
      else
        var l := c'.leases[ids[n]];
        Accept(Record(c', Released(l, term, c.time, reason), Release, Some(l.owner), actor))
  }

  /** Whether a member may take the requested state. */
  predicate MemberChangeOk(r: Rules, c: Control, m: Command)
    requires m.SetMember?
  {
    && m.admitted && m.state != Active && r.isUuid(m.node) && r.textOk(m.actor) && r.reasonOk(m.reason)
    && m.node in c.members && c.members[m.node].generation == m.expectedGeneration
    && c.members[m.node].state != Revoked && c.members[m.node].state != m.state
    && c.members[m.node].generation < U64_MAX && c.revisions < MAX_AUDIT
  }

  /** Leaving needs every lease released first; revoking releases them. */
  ghost function ApplySetMember(r: Rules, c: Control, m: Command, term: nat): Outcome<(Control, Member)>
    requires m.SetMember?
  {
    if !MemberChangeOk(r, c, m) then Reject
    else
      var now :- Advance(r, c, m.at);
      var owned := Owned(c, m.node, now);
      if (m.state == Left && owned != {}) || (m.state == Revoked && |c.audit| + |owned| > MAX_AUDIT) then Reject
      else
        var c' :- ReleaseAll(c.(time := now), if m.state == Revoked then SortedMembers(owned) else [], term, m.actor,
                             m.reason);
        var member := Member(m.state, c.members[m.node].generation + 1);
        Accept((c'.(members := c'.members[m.node := member], revisions := c.revisions + 1), member))
  }

  function ApplyRegister(r: Rules, c: Control, m: Command): Outcome<(Control, Member)>
    requires m.Register?
  {
    if !m.admitted || c.revisions >= MAX_AUDIT then Reject
    else if m.node in c.members
        && (c.members[m.node].state == Revoked || c.members[m.node].generation >= U64_MAX) then Reject
    else
      var now :- Advance(r, c, m.at);
      var member := Member(Active, if m.node in c.members then c.members[m.node].generation + 1 else 1);
      Accept((c.(time := now, members := c.members[m.node := member], revisions := c.revisions + 1), member))
  }

  // ----- the state machine ---------------------------------------------------------------

  /** The control plane and result of a command seen for the first time. */
  ghost function ApplyNew(r: Rules, s: State, m: Command, term: nat): Outcome<(Option<Control>, Result)> {
    match m
    case Initialize(_, at, genesis) =>
      if s.control.Some? then Reject
      else Accept((Some(Control(at, map node | node in genesis :: Member(Active, 1), |genesis|, map[], [])),
                   Initialized))
    case Barrier(_, _, _) => Accept((s.control, BarrierPassed))
    case AdvanceTime(_, _) => Reject
    case Register(_, _, _, _) =>
      if s.control.None? then Reject
      else var (c, member) :- ApplyRegister(r, s.control.value, m); Accept((Some(c), MemberUpdated(member)))
    case SetMember(_, _, _, _, _, _, _, _) =>
      if s.control.None? then Reject
      else var (c, member) :- ApplySetMember(r, s.control.value, m, term); Accept((Some(c), MemberUpdated(member)))
    case ClaimLease(_, _, _, _, _, _, _, _) =>
      if s.control.None? then Reject
      else var (c, l) :- ApplyClaim(r, s.control.value, m, term); Accept((Some(c), LeaseUpdated(l)))
    case RenewLease(_, _, _, _, _, _, _, _) =>
      if s.control.None? then Reject
      else var (c, l) :- ApplyRenew(r, s.control.value, m, term); Accept((Some(c), LeaseUpdated(l)))
    case ReleaseLease(_, _, _, _, _, _, _) =>
      if s.control.None? then Reject
      else var (c, l) :- ApplyRelease(r, s.control.value, m, term); Accept((Some(c), LeaseUpdated(l)))
  }

  /** The request itself, without the answer of the checks. */
  function Request(m: Command): Command { if m.Register? || m.SetMember? then m.(admitted := true) else m }

  /** Equal requests up to the proposed time. */
  predicate SameRetry(a: Command, b: Command) { Request(a).(at := b.at) == Request(b) }

  function Replayed(r: Response): Response { if r.Done? then r.(replayed := true) else r }

  ghost function Apply(r: Rules, s: State, m: Command, log: LogId): (State, Response) {
    if !r.isCanonical(m.id) then (s, Refused(m.id))
    else if m.AdvanceTime? then
      if s.control.None? then (s, Refused(m.id))
      else
        var c := s.control.value;
        var time := if c.time < m.at then m.at else c.time;
        (s.(control := Some(c.(time := time))), TimeAdvanced(m.id, time))
    else if m.id in s.receipts then
      (s, if SameRetry(s.receipts[m.id].command, m) then Replayed(s.receipts[m.id].response) else Refused(m.id))
    else if m.Barrier? && m.expected.Some? && m.expected.value != s.sequence then (s, Refused(m.id))
    else if |s.receipts| >= MAX_RECEIPTS || s.sequence >= U64_MAX then (s, Refused(m.id))
    else
      match ApplyNew(r, s, m, log.term)
      case Reject => (s, Refused(m.id))
      case Accept((control, result)) =>
        var response := Done(m.id, s.sequence + 1, log, false, result);
        (State(s.sequence + 1, s.receipts[m.id := Receipt(m, response)], control), response)
  }

  // ----- the machine as an object --------------------------------------------------------

  /** Revokes leases in id order, by loop. */
  method ReleaseOwned(c: Control, owned: set<string>, term: nat, actor: string, reason: string)
    returns (r: Outcome<Control>)
    ensures r == ReleaseAll(c, SortedMembers(owned), term, actor, reason)
  {
    var distinct := Elements(owned);
    SortedDistinctIsAscending(distinct);
    var ids := Sort(distinct, TextLeq);
    AscendingUnique(ids, SortedMembers(owned));
    var next := c;
    for i := 0 to |ids|
      invariant ReleaseAll(c, ids[..i], term, actor, reason) == Accept(next)
    {
      ReleaseAllStep(c, ids, i, term, actor, reason);
      if ids[i] !in next.leases || next.leases[ids[i]].generation >= U64_MAX { return Reject; }
      var l := next.leases[ids[i]];
      next := Record(next, Released(l, term, c.time, reason), Release, Some(l.owner), actor);
    }
    assert ids[..|ids|] == ids;
    r := Accept(next);
  }

  lemma {:induction false} ReleaseAllStep(c: Control, ids: seq<string>, i: nat, term: nat, actor: string,
                                          reason: string)
    requires i < |ids| && ReleaseAll(c, ids[..i], term, actor, reason).Accept?
    ensures var next := ReleaseAll(c, ids[..i], term, actor, reason).value;
            if ids[i] !in next.leases || next.leases[ids[i]].generation >= U64_MAX
            then ReleaseAll(c, ids, term, actor, reason) == Reject
            else ReleaseAll(c, ids[..i + 1], term, actor, reason) ==
                 Accept(Record(next, Released(next.leases[ids[i]], term, c.time, reason), Release,
                               Some(next.leases[ids[i]].owner), actor))
    decreases |ids|
  {
    hide Record;
    assert ids[..i + 1][..i] == ids[..i];
    if i + 1 < |ids| {
      var shorter := ids[..|ids| - 1];
      assert shorter[..i] == ids[..i] && shorter[i] == ids[i] && shorter[..i + 1] == ids[..i + 1];
      ReleaseAllStep(c, shorter, i, term, actor, reason);
    } else {
      assert ids[..i + 1] == ids;
    }
  }

  method ChangeMember(r: Rules, c: Control, m: Command, term: nat) returns (x: Outcome<(Control, Member)>)
    requires m.SetMember?
    ensures x == ApplySetMember(r, c, m, term)
  {
    hide SortedMembers, ReleaseAll;
    if !MemberChangeOk(r, c, m) { return Reject; }
    var now :- Advance(r, c, m.at);
    var owned := Owned(c, m.node, now);
    if m.state == Left && owned != {} { return Reject; }
    var next := c.(time := now);
    if m.state == Revoked {
      if |c.audit| + |owned| > MAX_AUDIT { return Reject; }
      next :- ReleaseOwned(next, owned, term, m.actor, m.reason);
    } else {
      NothingReleased(next, term, m.actor, m.reason);
    }
    var member := Member(m.state, c.members[m.node].generation + 1);
    x := Accept((next.(members := next.members[m.node := member], revisions := c.revisions + 1), member));
  }

  lemma NothingReleased(c: Control, term: nat, actor: string, reason: string)
    ensures ReleaseAll(c, [], term, actor, reason) == Accept(c)
  {
  }

  class Authority {
    var sequence: nat
    var receipts: map<string, Receipt>
    var control: Option<Control>

    ghost function Contents(): State
      reads this
    {
      State(sequence, receipts, control)
    }

    constructor ()
      ensures Contents() == State(0, map[], None)
    {
      sequence, receipts, control := 0, map[], None;
    }

    /** Runs a new command on a copy of the control plane and commits it only when it succeeds. */
    method RunNew(r: Rules, m: Command, term: nat) returns (x: Outcome<Result>)
      requires !m.AdvanceTime?
      modifies this`control
      ensures ApplyNew(r, old(Contents()), m, term) == (if x.Accept? then Accept((control, x.value)) else Reject)
      ensures x.Reject? ==> control == old(control)
    {
      hide ApplySetMember, ApplyClaim, ApplyRenew, ApplyRelease, ApplyRegister;
      match m {
        case Initialize(_, at, genesis) =>
          if control.Some? { return Reject; }
          control := Some(Control(at, map node | node in genesis :: Member(Active, 1), |genesis|, map[], []));
          x := Accept(Initialized);
        case Barrier(_, _, _) =>
          x := Accept(BarrierPassed);
        case Register(_, _, _, _) =>
          if control.None? { return Reject; }
          var next :- ApplyRegister(r, control.value, m);
          control := Some(next.0);
          x := Accept(MemberUpdated(next.1));
        case SetMember(_, _, _, _, _, _, _, _) =>
          if control.None? { return Reject; }
          var next :- ChangeMember(r, control.value, m, term);
          control := Some(next.0);
          x := Accept(MemberUpdated(next.1));
        case ClaimLease(_, _, _, _, _, _, _, _) =>
          if control.None? { return Reject; }
          var next :- ApplyClaim(r, control.value, m, term);
          control := Some(next.0);
          x := Accept(LeaseUpdated(next.1));
        case RenewLease(_, _, _, _, _, _, _, _) =>
          if control.None? { return Reject; }
          var next :- ApplyRenew(r, control.value, m, term);
          control := Some(next.0);
          x := Accept(LeaseUpdated(next.1));
        case ReleaseLease(_, _, _, _, _, _, _) =>
          if control.None? { return Reject; }
          var next :- ApplyRelease(r, control.value, m, term);
          control := Some(next.0);
          x := Accept(LeaseUpdated(next.1));
      }
    }

    method Execute(r: Rules, m: Command, log: LogId) returns (response: Response)
      modifies this
      ensures (Contents(), response) == Apply(r, old(Contents()), m, log)
    {
      hide ApplyNew;
      if !r.isCanonical(m.id) { return Refused(m.id); }
      if m.AdvanceTime? {
        if control.None? { return Refused(m.id); }
        var time := if control.value.time < m.at then m.at else control.value.time;
        control := Some(control.value.(time := time));
        return TimeAdvanced(m.id, time);
      }
      if m.id in receipts {
        return if SameRetry(receipts[m.id].command, m) then Replayed(receipts[m.id].response) else Refused(m.id);
      }
      if m.Barrier? && m.expected.Some? && m.expected.value != sequence { return Refused(m.id); }
      if |receipts| >= MAX_RECEIPTS || sequence >= U64_MAX { return Refused(m.id); }
      var result := RunNew(r, m, log.term);
      if result.Reject? { return Refused(m.id); }
      sequence := sequence + 1;
      response := Done(m.id, sequence, log, false, result.value);
      receipts := receipts[m.id := Receipt(m, response)];
    }
  }
}

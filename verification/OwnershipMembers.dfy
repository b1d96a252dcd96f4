/** Members and leases over every replicated log: only active members hold live leases. */
module OwnershipMembers {
  import opened Primitives
  import opened Ownership
  import opened OwnershipSafety
  import opened OwnershipRuns

  /** The lease of an agent binds at the current instant. */
  predicate Live(c: Control, agent: string) {
    agent in c.leases && !c.leases[agent].released && c.leases[agent].expiresAt > c.time
  }

  ghost predicate HeldByActive(c: Control) { forall a | Live(c, a) :: IsActive(c, c.leases[a].owner) }

  predicate IsRevoked(c: Control, node: string) { node in c.members && c.members[node].state == Revoked }

  ghost predicate RevokedStay(c: Control, c': Control) { forall node | IsRevoked(c, node) :: IsRevoked(c', node) }

  /** One step that keeps live leases with active members and revocations for good. */
  ghost predicate Keeps(c: Control, c': Control) { HeldByActive(c') && RevokedStay(c, c') }

  // ----- one step ------------------------------------------------------------------------

  lemma RecordKeeps(c: Control, l: Lease, op: Operation, previousOwner: Option<string>, actor: string)
    requires HeldByActive(c) && c.time <= l.updatedAt && (l.released || IsActive(c, l.owner))
    ensures Keeps(c, Record(c, l, op, previousOwner, actor))
  {
    var c' := Record(c, l, op, previousOwner, actor);
    forall a | Live(c', a) ensures IsActive(c', c'.leases[a].owner) {
      if a != l.agent { assert Live(c, a); }
    }
  }

  lemma ClaimKeeps(r: Rules, c: Control, m: Command, term: nat)
    requires HeldByActive(c) && m.ClaimLease? && ApplyClaim(r, c, m, term).Accept?
    ensures Keeps(c, ApplyClaim(r, c, m, term).value.0)
  {
    hide Record, Keeps, HeldByActive;
    var now := Advance(r, c, m.at).value;
    var (token, generation, op, previous) := ClaimTerms(c, m.agent, m.expectedToken, now).value;
    RecordKeeps(c, Lease(m.agent, m.owner, term, token, generation, false, now + m.ttl * SECOND, now, m.reason), op,
                previous, m.actor);
  }

  lemma RenewKeeps(r: Rules, c: Control, m: Command, term: nat)
    requires HeldByActive(c) && m.RenewLease? && ApplyRenew(r, c, m, term).Accept?
    ensures Keeps(c, ApplyRenew(r, c, m, term).value.0)
  {
    hide Record, Keeps, HeldByActive;
    RecordKeeps(c, ApplyRenew(r, c, m, term).value.1, Renew, Some(m.owner), m.actor);
  }

  lemma ReleaseKeeps(r: Rules, c: Control, m: Command, term: nat)
    requires HeldByActive(c) && m.ReleaseLease? && ApplyRelease(r, c, m, term).Accept?
    ensures Keeps(c, ApplyRelease(r, c, m, term).value.0)
  {
    hide Record, Keeps, HeldByActive;
    RecordKeeps(c, ApplyRelease(r, c, m, term).value.1, Release, Some(m.owner), m.actor);
  }

  lemma RegisterKeeps(r: Rules, c: Control, m: Command)
    requires HeldByActive(c) && m.Register? && ApplyRegister(r, c, m).Accept?
    ensures Keeps(c, ApplyRegister(r, c, m).value.0)
  {
    var c' := ApplyRegister(r, c, m).value.0;
    forall a | Live(c', a) ensures IsActive(c', c'.leases[a].owner) { assert Live(c, a); }
  }

  /** Leaving without a live lease, or releasing them all at once, leaves the member none. */
  lemma SetMemberKeeps(r: Rules, c: Control, m: Command, term: nat)
    requires Sound(r, c, term) && HeldByActive(c) && m.SetMember? && ApplySetMember(r, c, m, term).Accept?
    ensures Keeps(c, ApplySetMember(r, c, m, term).value.0)
  {
    hide Sound, ReleaseAll, SortedMembers;
    var now := Advance(r, c, m.at).value;
    var owned := Owned(c, m.node, now);
    var ids := if m.state == Revoked then SortedMembers(owned) else [];
    AscendingIffSortedDistinct(ids);
    var d := c.(time := now);
    forall id | id in ids ensures id in d.leases && d.leases[id].agent == id { LeaseFacts(r, c, term, id); }
    var c' := ApplySetMember(r, c, m, term).value.0;
    forall a | Live(c', a) ensures IsActive(c', c'.leases[a].owner) {
      ReleaseAllAt(d, ids, term, m.actor, m.reason, a);
      assert Live(c, a) && a !in owned;
    }
    forall node | IsRevoked(c, node) ensures IsRevoked(c', node) {
      ReleaseAllAt(d, ids, term, m.actor, m.reason, node);
    }
  }

  lemma NewCommandKeeps(r: Rules, s: State, m: Command, term: nat)
    requires s.control.Some? ==> Sound(r, s.control.value, term) && HeldByActive(s.control.value)
    requires ApplyNew(r, s, m, term).Accept?
    ensures var control := ApplyNew(r, s, m, term).value.0;
            && (control.Some? ==> HeldByActive(control.value))
            && (s.control.Some? ==> control.Some? && RevokedStay(s.control.value, control.value))
  {
    hide Sound, HeldByActive, RevokedStay, ApplyClaim, ApplyRenew, ApplyRelease, ApplySetMember, ApplyRegister;
    match m
    case Initialize(_, at, genesis) => NoLeases(ApplyNew(r, s, m, term).value.0.value);
    case Barrier(_, _, _) => if s.control.Some? { SameStays(s.control.value); }
    case Register(_, _, _, _) => RegisterKeeps(r, s.control.value, m);
    case SetMember(_, _, _, _, _, _, _, _) => SetMemberKeeps(r, s.control.value, m, term);
    case ClaimLease(_, _, _, _, _, _, _, _) => ClaimKeeps(r, s.control.value, m, term);
    case RenewLease(_, _, _, _, _, _, _, _) => RenewKeeps(r, s.control.value, m, term);
    case ReleaseLease(_, _, _, _, _, _, _) => ReleaseKeeps(r, s.control.value, m, term);
  }

  lemma NoLeases(c: Control)
    requires c.leases == map[]
    ensures HeldByActive(c)
  {
  }

  lemma SameStays(c: Control)
    ensures RevokedStay(c, c)
  {
  }

  lemma LaterKeeps(c: Control, time: Micros)
    requires HeldByActive(c) && c.time <= time
    ensures Keeps(c, c.(time := time))
  {
    forall a | Live(c.(time := time), a) ensures IsActive(c, c.leases[a].owner) { assert Live(c, a); }
  }

  lemma CommandKeeps(r: Rules, s: State, m: Command, term: nat, log: LogId)
    requires s.control.Some? ==>
               Consistent(r, s.control.value) && TermsUpTo(s.control.value, term) && HeldByActive(s.control.value)
    requires term <= log.term && log.term > 0
    ensures var s' := Apply(r, s, m, log).0;
            && (s'.control.Some? ==> HeldByActive(s'.control.value))
            && (s.control.Some? ==> s'.control.Some? && RevokedStay(s.control.value, s'.control.value))
  {
    hide ApplyNew, Consistent, HeldByActive, RevokedStay;
    var s' := Apply(r, s, m, log).0;
    if s.control.Some? { SameStays(s.control.value); }
    if m.AdvanceTime? && s' != s {
      LaterKeeps(s.control.value, s'.control.value.time);
    } else if s' != s {
      NewCommandKeeps(r, s, m, log.term);
    }
  }

  // ----- every log -----------------------------------------------------------------------

  /** After any prefix of a log, every live lease is held by an active member. */
  lemma {:induction false} LiveLeasesHaveActiveOwners(r: Rules, log: seq<Entry>, n: nat)
    requires Ordered(log) && n <= |log|
    ensures Replay(r, log, n).control.Some? ==> HeldByActive(Replay(r, log, n).control.value)
    ensures n > 0 && Replay(r, log, n - 1).control.Some? ==>
              Replay(r, log, n).control.Some? &&
              RevokedStay(Replay(r, log, n - 1).control.value, Replay(r, log, n).control.value)
  {
    hide Apply, HeldByActive, RevokedStay, Consistent, TermsUpTo, ReceiptsOk;
    if n > 0 {
      LiveLeasesHaveActiveOwners(r, log, n - 1);
      EveryStateIsValid(r, log, n - 1);
      CommandKeeps(r, Replay(r, log, n - 1), log[n - 1].command, TermBefore(log, n - 1), log[n - 1].log);
    }
  }

  ghost predicate RevokedAt(r: Rules, log: seq<Entry>, n: nat, node: string)
    requires n <= |log|
  {
    Replay(r, log, n).control.Some? && IsRevoked(Replay(r, log, n).control.value, node)
  }

  lemma {:induction false} RevocationIsFinal(r: Rules, log: seq<Entry>, i: nat, j: nat, node: string)
    requires Ordered(log) && i <= j <= |log| && RevokedAt(r, log, i, node)
    ensures RevokedAt(r, log, j, node)
    decreases j - i
  {
    hide Replay, Ordered;
    if i < j {
      RevocationIsFinal(r, log, i, j - 1, node);
      LiveLeasesHaveActiveOwners(r, log, j);
    }
  }

  /** Once a node is revoked, at no later point of the log is a live lease in its hands, whatever
      commands follow. */
  lemma RevokedNodesHoldNothing(r: Rules, log: seq<Entry>, i: nat, j: nat, node: string, agent: string)
    requires Ordered(log) && i <= j <= |log| && RevokedAt(r, log, i, node)
    requires LeaseAt(r, log, j, agent).Some? && LeaseAt(r, log, j, agent).value.owner == node
    ensures var l := LeaseAt(r, log, j, agent).value;
            l.released || l.expiresAt <= Replay(r, log, j).control.value.time
  {
    hide Replay, Ordered;
    RevocationIsFinal(r, log, i, j, node);
    LiveLeasesHaveActiveOwners(r, log, j);
    assert !Live(Replay(r, log, j).control.value, agent);
  }
}

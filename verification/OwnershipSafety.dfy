/** What every replicated log keeps: a consistent audit trail, one holder per fencing token, and at most one
    effect per operation. The validator is that of crates/kernel/src/cluster_consensus.rs. */
module OwnershipSafety {
  import opened Primitives
  import opened Ownership

  // ----- the validator -------------------------------------------------------------------

  /** The last audited revision of an agent's lease. */
  datatype Head = Head(generation: nat, owner: string, term: nat, token: nat, released: bool)

  function HeadOf(l: Lease): Head { Head(l.generation, l.owner, l.term, l.token, l.released) }

  function Heads(leases: map<string, Lease>): map<string, Head> { map a | a in leases :: HeadOf(leases[a]) }

  predicate EntryOk(r: Rules, a: Audit, time: Micros) {
    && a.generation > 0 && a.term > 0 && a.token > 0 && a.changedAt <= time && r.isUuid(a.agent) && r.isUuid(a.owner)
    && (a.previousOwner.Some? ==> r.isUuid(a.previousOwner.value)) && r.textOk(a.actor) && r.reasonOk(a.reason)
  }

  /** Whether an audit entry may follow the recorded heads. */
  predicate Follows(heads: map<string, Head>, a: Audit) {
    if a.agent !in heads then a.operation == Claim && a.generation == 1 && a.token == 1 && a.previousOwner == None
    else
      var h := heads[a.agent];
      && a.generation == h.generation + 1 && a.previousOwner == Some(h.owner) && a.term >= h.term
      && match a.operation
         case Claim => false
         case Transfer => a.token == h.token + 1
         case _ => !h.released && a.owner == h.owner && a.token == h.token
  }

  function Extend(heads: map<string, Head>, a: Audit): map<string, Head> {
    heads[a.agent := Head(a.generation, a.owner, a.term, a.token, a.operation == Release)]
  }

  /** The heads an audit trail leads to, if it is consecutive. */
  function History(audit: seq<Audit>): Outcome<map<string, Head>> {
    if audit == [] then Accept(map[])
    else
      var heads :- History(audit[..|audit| - 1]);
      if Follows(heads, audit[|audit| - 1]) then Accept(Extend(heads, audit[|audit| - 1])) else Reject
  }

  predicate LeaseOk(r: Rules, agent: string, l: Lease, time: Micros) {
    && l.agent == agent && l.generation > 0 && l.term > 0 && l.token > 0 && l.updatedAt <= time
    && (if l.released then l.expiresAt == l.updatedAt else l.expiresAt > l.updatedAt)
    && r.isUuid(l.agent) && r.isUuid(l.owner)
  }

  /** The leases are exactly what the audit trail says, and both are well formed. */
  predicate Consistent(r: Rules, c: Control) {
    && |c.leases| <= MAX_LEASES && |c.audit| <= MAX_AUDIT
    && (forall i | 0 <= i < |c.audit| :: EntryOk(r, c.audit[i], c.time))
    && (forall a | a in c.leases :: LeaseOk(r, a, c.leases[a], c.time))
    && History(c.audit) == Accept(Heads(c.leases))
  }

  method Validate(r: Rules, c: Control) returns (ok: bool)
    ensures ok <==> Consistent(r, c)
  {
    hide EntryOk, LeaseOk, Follows, Extend;
    if |c.leases| > MAX_LEASES || |c.audit| > MAX_AUDIT { return false; }
    var latest: map<string, Head> := map[];
    for i := 0 to |c.audit|
      invariant History(c.audit[..i]) == Accept(latest)
      invariant forall j | 0 <= j < i :: EntryOk(r, c.audit[j], c.time)
    {
      HistoryStep(c.audit, i);
      if !EntryOk(r, c.audit[i], c.time) || !Follows(latest, c.audit[i]) { return false; }
      latest := Extend(latest, c.audit[i]);
    }
    assert c.audit[..|c.audit|] == c.audit;
    ok := (forall a | a in c.leases :: LeaseOk(r, a, c.leases[a], c.time)) && latest == Heads(c.leases);
  }

  lemma {:induction false} HistoryStep(audit: seq<Audit>, i: nat)
    requires i < |audit| && History(audit[..i]).Accept?
    ensures var heads := History(audit[..i]).value;
            if Follows(heads, audit[i]) then History(audit[..i + 1]) == Accept(Extend(heads, audit[i]))
            else History(audit) == Reject
    decreases |audit|
  {
    hide Follows, Extend;
    assert audit[..i + 1][..i] == audit[..i];
    if i + 1 < |audit| {
      var shorter := audit[..|audit| - 1];
      assert shorter[..i] == audit[..i] && shorter[..i + 1] == audit[..i + 1];
      HistoryStep(shorter, i);
    } else {
      assert audit[..i + 1] == audit;
    }
  }

  // ----- recording a revision ------------------------------------------------------------

  /** A revision that continues the history of its agent. */
  predicate Continues(c: Control, l: Lease, op: Operation, previousOwner: Option<string>) {
    && (l.released <==> op == Release)
    && if l.agent !in c.leases then op == Claim && l.generation == 1 && l.token == 1 && previousOwner == None
    && |c.leases| < MAX_LEASES
       else
         var p := c.leases[l.agent];
         && l.generation == p.generation + 1 && previousOwner == Some(p.owner) && l.term >= p.term
         && match op
            case Claim => false
            case Transfer => l.token == p.token + 1
            case _ => !p.released && l.owner == p.owner && l.token == p.token
  }

  lemma RecordKeepsConsistent(r: Rules, c: Control, l: Lease, op: Operation, previousOwner: Option<string>,
                              actor: string)
    requires Consistent(r, c) && |c.audit| < MAX_AUDIT && c.time <= l.updatedAt && LeaseOk(r, l.agent, l, l.updatedAt)
    requires Continues(c, l, op, previousOwner) && r.textOk(actor) && r.reasonOk(l.reason)
    ensures Consistent(r, Record(c, l, op, previousOwner, actor))
  {
    hide LeaseOk, EntryOk, History;
    var c' := Record(c, l, op, previousOwner, actor);
    var n := |c.audit|;
    assert c'.audit[..n] == c.audit;
    RecordedEntryOk(r, c, l, op, previousOwner, actor);
    forall i | 0 <= i < n ensures EntryOk(r, c'.audit[i], c'.time) { EntryLater(r, c.audit[i], c.time, c'.time); }
    forall a | a in c'.leases ensures LeaseOk(r, a, c'.leases[a], c'.time) {
      if a != l.agent { LeaseLater(r, a, c.leases[a], c.time, c'.time); }
    }
    FollowsRecord(c, l, op, previousOwner, actor);
    HistoryStep(c'.audit, n);
    assert c'.audit[..n + 1] == c'.audit;
    assert c'.leases.Keys == c.leases.Keys + {l.agent};
  }

  lemma EntryLater(r: Rules, a: Audit, time: Micros, later: Micros)
    requires EntryOk(r, a, time) && time <= later
    ensures EntryOk(r, a, later)
  {
  }

  lemma LeaseLater(r: Rules, agent: string, l: Lease, time: Micros, later: Micros)
    requires LeaseOk(r, agent, l, time) && time <= later
    ensures LeaseOk(r, agent, l, later)
  {
  }

  lemma RecordedEntryOk(r: Rules, c: Control, l: Lease, op: Operation, previousOwner: Option<string>, actor: string)
    requires LeaseOk(r, l.agent, l, l.updatedAt) && Continues(c, l, op, previousOwner) && r.textOk(actor)
    requires r.reasonOk(l.reason)
    requires forall a | a in c.leases :: LeaseOk(r, a, c.leases[a], c.time)
    ensures EntryOk(r, Record(c, l, op, previousOwner, actor).audit[|c.audit|], l.updatedAt)
  {
  }

  lemma FollowsRecord(c: Control, l: Lease, op: Operation, previousOwner: Option<string>, actor: string)
    requires Continues(c, l, op, previousOwner)
    ensures var a := Record(c, l, op, previousOwner, actor).audit[|c.audit|];
            Follows(Heads(c.leases), a) && Extend(Heads(c.leases), a) == Heads(c.leases[l.agent := l])
  {
  }

  // ----- one step ------------------------------------------------------------------------

  /** How a lease may change: not at all; renewed or released under its token by its owner; or taken
      over with the next token, after it was released or had expired. */
  predicate Evolves(l: Lease, l': Lease) {
    || l' == l
    || (l'.token == l.token && l'.owner == l.owner && !l.released && l'.generation == l.generation + 1
        && l.updatedAt < l'.updatedAt && (l'.released || l'.updatedAt < l.expiresAt))
    || (l'.token == l.token + 1 && l'.generation == l.generation + 1 && l.updatedAt < l'.updatedAt
        && (l.released || l.expiresAt <= l'.updatedAt))
  }

  ghost predicate Steps(c: Control, c': Control) {
    && c.time <= c'.time
    && (forall a | a in c.leases :: a in c'.leases && Evolves(c.leases[a], c'.leases[a]))
    && (forall a | a in c'.leases && a !in c.leases :: c'.leases[a].token == 1)
  }

  ghost predicate TermsUpTo(c: Control, term: nat) { forall a | a in c.leases :: c.leases[a].term <= term }

  /** A sound control plane before a command of this term, and one sound step of it. */
  ghost predicate Sound(r: Rules, c: Control, term: nat) { Consistent(r, c) && TermsUpTo(c, term) && term > 0 }

  lemma RecordSteps(r: Rules, c: Control, l: Lease, op: Operation, previousOwner: Option<string>, actor: string,
                    term: nat)
    requires Sound(r, c, term) && |c.audit| < MAX_AUDIT && c.time <= l.updatedAt && LeaseOk(r, l.agent, l, l.updatedAt)
    requires Continues(c, l, op, previousOwner) && r.textOk(actor) && r.reasonOk(l.reason) && l.term == term
    requires l.agent in c.leases ==> Evolves(c.leases[l.agent], l)
    ensures Sound(r, Record(c, l, op, previousOwner, actor), term) && Steps(c, Record(c, l, op, previousOwner, actor))
  {
    hide Consistent, LeaseOk, Evolves;
    RecordKeepsConsistent(r, c, l, op, previousOwner, actor);
    assert forall a | a in c.leases && a != l.agent :: Evolves(c.leases[a], c.leases[a]) by {
      forall a | a in c.leases ensures Evolves(c.leases[a], c.leases[a]) { SameEvolves(c.leases[a]); }
    }
  }

  lemma SameEvolves(l: Lease)
    ensures Evolves(l, l)
  {
  }

  lemma LeaseFacts(r: Rules, c: Control, term: nat, agent: string)
    requires Sound(r, c, term) && agent in c.leases
    ensures LeaseOk(r, agent, c.leases[agent], c.time) && c.leases[agent].term <= term
  {
    hide LeaseOk, EntryOk, History;
  }

  lemma Capacity(r: Rules, c: Control, term: nat, agent: string)
    requires Sound(r, c, term) && !(|c.leases| >= MAX_LEASES && agent !in c.leases)
    ensures agent !in c.leases ==> |c.leases| < MAX_LEASES
  {
  }

  lemma ClaimSteps(r: Rules, c: Control, m: Command, term: nat)
    requires Sound(r, c, term) && m.ClaimLease? && ApplyClaim(r, c, m, term).Accept?
    ensures var c' := ApplyClaim(r, c, m, term).value.0; Sound(r, c', term) && Steps(c, c')
  {
    hide Sound, Steps, Record;
    var now := Advance(r, c, m.at).value;
    var (token, generation, op, previous) := ClaimTerms(c, m.agent, m.expectedToken, now).value;
    var l := Lease(m.agent, m.owner, term, token, generation, false, now + m.ttl * SECOND, now, m.reason);
    if m.agent in c.leases { LeaseFacts(r, c, term, m.agent); }
    Capacity(r, c, term, m.agent);
    TermIsPositive(r, c, term);
    RecordSteps(r, c, l, op, previous, m.actor, term);
  }

  lemma TermIsPositive(r: Rules, c: Control, term: nat)
    requires Sound(r, c, term)
    ensures term > 0
  {
    hide Consistent;
  }

  lemma RenewSteps(r: Rules, c: Control, m: Command, term: nat)
    requires Sound(r, c, term) && m.RenewLease? && ApplyRenew(r, c, m, term).Accept?
    ensures var c' := ApplyRenew(r, c, m, term).value.0; Sound(r, c', term) && Steps(c, c')
  {
    hide Sound, Steps, Record;
    var now := Advance(r, c, m.at).value;
    var l := c.leases[m.agent];
    var l' := l.(term := term, generation := l.generation + 1, expiresAt := now + m.ttl * SECOND, updatedAt := now,
                 reason := m.reason);
    LeaseFacts(r, c, term, m.agent);
    TermIsPositive(r, c, term);
    RecordSteps(r, c, l', Renew, Some(m.owner), m.actor, term);
  }

  lemma ReleaseSteps(r: Rules, c: Control, m: Command, term: nat)
    requires Sound(r, c, term) && m.ReleaseLease? && ApplyRelease(r, c, m, term).Accept?
    ensures var c' := ApplyRelease(r, c, m, term).value.0; Sound(r, c', term) && Steps(c, c')
  {
    hide Sound, Steps, Record;
    var now := Advance(r, c, m.at).value;
    var l' := Released(c.leases[m.agent], term, now, m.reason);
    LeaseFacts(r, c, term, m.agent);
    TermIsPositive(r, c, term);
    RecordSteps(r, c, l', Release, Some(m.owner), m.actor, term);
  }

  lemma LaterIsSound(r: Rules, c: Control, term: nat, time: Micros, members: map<string, Member>, revisions: nat)
    requires Sound(r, c, term) && c.time <= time
    ensures var c' := c.(time := time, members := members, revisions := revisions); Sound(r, c', term) && Steps(c, c')
  {
    hide EntryOk, LeaseOk, History;
    forall i | 0 <= i < |c.audit| ensures EntryOk(r, c.audit[i], time) { EntryLater(r, c.audit[i], c.time, time); }
    forall a | a in c.leases ensures LeaseOk(r, a, c.leases[a], time) { LeaseLater(r, a, c.leases[a], c.time, time); }
  }

  predicate Named(c: Control, ids: seq<string>) { forall id | id in ids :: id in c.leases && c.leases[id].agent == id }

  /** The control plane after the first of two parts of a release. */
  lemma ReleaseLast(c: Control, ids: seq<string>, term: nat, actor: string, reason: string)
    requires ids != [] && ReleaseAll(c, ids, term, actor, reason).Accept?
    ensures var n := |ids| - 1;
            && ReleaseAll(c, ids[..n], term, actor, reason).Accept?
            && (var d := ReleaseAll(c, ids[..n], term, actor, reason).value;
                && ids[n] in d.leases
                && ReleaseAll(c, ids, term, actor, reason).value ==
                   Record(d, Released(d.leases[ids[n]], term, c.time, reason), Release, Some(d.leases[ids[n]].owner),
                          actor))
  {
  }

  lemma {:induction false} ReleaseAllAt(c: Control, ids: seq<string>, term: nat, actor: string, reason: string,
                                        agent: string)
    requires NoDuplicates(ids) && Named(c, ids) && ReleaseAll(c, ids, term, actor, reason).Accept?
    ensures var c' := ReleaseAll(c, ids, term, actor, reason).value;
            && c'.time == c.time && |c'.audit| == |c.audit| + |ids| && c'.members == c.members
            && (agent in c'.leases <==> agent in c.leases)
            && (agent in c.leases ==> c'.leases[agent] == if agent in ids
                then Released(c.leases[agent], term, c.time, reason) else c.leases[agent])
  {
    hide ReleaseAll, Released;
    if ids == [] {
      NothingReleased(c, term, actor, reason);
    } else {
      var n := |ids| - 1;
      ReleaseLast(c, ids, term, actor, reason);
      assert ids == ids[..n] + [ids[n]];
      assert ids[n] !in ids[..n];
      ReleaseAllAt(c, ids[..n], term, actor, reason, agent);
      ReleaseAllAt(c, ids[..n], term, actor, reason, ids[n]);
      ReleasedKeeps(c.leases[ids[n]], term, c.time, reason);
    }
  }

  lemma ReleasedKeeps(l: Lease, term: nat, now: Micros, reason: string)
    ensures Released(l, term, now, reason).agent == l.agent && Released(l, term, now, reason).updatedAt == now
  {
  }

  /** Releasing distinct live leases, at an instant after their last change. */
  lemma {:induction false} ReleaseAllSteps(r: Rules, c: Control, ids: seq<string>, term: nat, actor: string,
                                           reason: string)
    requires Sound(r, c, term) && NoDuplicates(ids) && |c.audit| + |ids| <= MAX_AUDIT && r.textOk(actor)
    requires r.reasonOk(reason)
    requires Named(c, ids) && forall id | id in ids :: !c.leases[id].released && c.leases[id].updatedAt < c.time
    requires ReleaseAll(c, ids, term, actor, reason).Accept?
    ensures Sound(r, ReleaseAll(c, ids, term, actor, reason).value, term)
  {
    hide Sound, Released, ReleaseAll;
    if ids == [] {
      NothingReleased(c, term, actor, reason);
    } else {
      var n := |ids| - 1;
      ReleaseLast(c, ids, term, actor, reason);
      ReleaseAllSteps(r, c, ids[..n], term, actor, reason);
      ReleaseAllAt(c, ids[..n], term, actor, reason, ids[n]);
      assert ids == ids[..n] + [ids[n]];
      assert ids[n] !in ids[..n];
      ReleaseOneSteps(r, ReleaseAll(c, ids[..n], term, actor, reason).value, ids[n], term, actor, reason);
    }
  }

  lemma ReleaseOneSteps(r: Rules, c: Control, agent: string, term: nat, actor: string, reason: string)
    requires Sound(r, c, term) && |c.audit| < MAX_AUDIT && r.textOk(actor) && r.reasonOk(reason)
    requires agent in c.leases && !c.leases[agent].released && c.leases[agent].updatedAt < c.time
    ensures var l := c.leases[agent];
            Sound(r, Record(c, Released(l, term, c.time, reason), Release, Some(l.owner), actor), term)
    ensures c.leases[agent].agent == agent
  {
    hide Sound;
    LeaseFacts(r, c, term, agent);
    TermIsPositive(r, c, term);
    RecordSteps(r, c, Released(c.leases[agent], term, c.time, reason), Release, Some(c.leases[agent].owner), actor,
                term);
  }

  lemma SetMemberSteps(r: Rules, c: Control, m: Command, term: nat)
    requires Sound(r, c, term) && m.SetMember? && ApplySetMember(r, c, m, term).Accept?
    ensures var c' := ApplySetMember(r, c, m, term).value.0; Sound(r, c', term) && Steps(c, c')
  {
    hide Sound, ReleaseAll, SortedMembers;
    var now := Advance(r, c, m.at).value;
    var owned := Owned(c, m.node, now);
    var ids := if m.state == Revoked then SortedMembers(owned) else [];
    AscendingIffSortedDistinct(ids);
    var d := c.(time := now);
    LaterIsSound(r, c, term, now, c.members, c.revisions);
    assert d == c.(time := now, members := c.members, revisions := c.revisions);
    forall id | id in ids
      ensures id in d.leases && d.leases[id].agent == id && !d.leases[id].released && d.leases[id].updatedAt < d.time
    {
      LeaseFacts(r, c, term, id);
    }
    AuditRoom(r, c, term);
    ReleaseAllSteps(r, d, ids, term, m.actor, m.reason);
    var e := ReleaseAll(d, ids, term, m.actor, m.reason).value;
    ReleaseAllAt(d, ids, term, m.actor, m.reason, m.node);
    forall a ensures a in e.leases <==> a in c.leases { ReleaseAllAt(d, ids, term, m.actor, m.reason, a); }
    var member := Member(m.state, c.members[m.node].generation + 1);
    LaterIsSound(r, e, term, now, e.members[m.node := member], c.revisions + 1);
    forall a | a in c.leases ensures Evolves(c.leases[a], e.leases[a]) {
      LeaseFacts(r, c, term, a);
      ReleaseAllAt(d, ids, term, m.actor, m.reason, a);
    }
  }

  lemma AuditRoom(r: Rules, c: Control, term: nat)
    requires Sound(r, c, term)
    ensures |c.audit| <= MAX_AUDIT
  {
    hide EntryOk, LeaseOk, History;
  }

  lemma RegisterSteps(r: Rules, c: Control, m: Command, term: nat)
    requires Sound(r, c, term) && m.Register? && ApplyRegister(r, c, m).Accept?
    ensures var c' := ApplyRegister(r, c, m).value.0; Sound(r, c', term) && Steps(c, c')
  {
    hide Sound, Steps;
    var c' := ApplyRegister(r, c, m).value.0;
    LaterIsSound(r, c, term, c'.time, c'.members, c'.revisions);
  }

  // ----- receipts ------------------------------------------------------------------------

  predicate ResultMatches(m: Command, result: Result) {
    match m
    case Initialize(_, _, _) => result.Initialized?
    case Barrier(_, _, _) => result.BarrierPassed?
    case AdvanceTime(_, _) => false
    case Register(_, _, _, _) => result.MemberUpdated?
    case SetMember(_, _, _, _, _, _, _, _) => result.MemberUpdated?
    case _ => result.LeaseUpdated?
  }

  /** A receipt is the first successful answer to its command. */
  predicate ReceiptOk(r: Rules, id: string, receipt: Receipt, sequence: nat, index: int) {
    && r.isCanonical(id) && receipt.command.id == id && receipt.response.Done? && receipt.response.id == id
    && !receipt.response.replayed
    && 0 < receipt.response.sequence <= sequence && receipt.response.log.index <= index
    && (receipt.command.Barrier? && receipt.command.expected.Some? ==>
        receipt.command.expected.value == receipt.response.sequence - 1)
    && ResultMatches(receipt.command, receipt.response.result)
  }

  ghost predicate ReceiptsOk(r: Rules, s: State, index: int) {
    && s.sequence == |s.receipts| <= MAX_RECEIPTS
    && (forall id | id in s.receipts :: ReceiptOk(r, id, s.receipts[id], s.sequence, index))
    && (forall x, y | x in s.receipts && y in s.receipts && x != y :: Unalike(s.receipts[x], s.receipts[y]))
  }

  /** No two receipts share a sequence number or a log position. */
  predicate Unalike(a: Receipt, b: Receipt) {
    && a.response.Done? && b.response.Done?
    && a.response.sequence != b.response.sequence && a.response.log != b.response.log
  }

  /** What holds after a log whose last entry has this term and index. */
  ghost predicate Inv(r: Rules, s: State, term: nat, index: int) {
    && ReceiptsOk(r, s, index)
    && (s.control.Some? ==> Consistent(r, s.control.value) && TermsUpTo(s.control.value, term))
  }

  ghost predicate ControlSteps(s: State, s': State) {
    s.control.Some? ==> s'.control.Some? && Steps(s.control.value, s'.control.value)
  }

  lemma NewCommandSteps(r: Rules, s: State, m: Command, term: nat)
    requires (s.control.Some? ==> Sound(r, s.control.value, term)) && term > 0
    requires ApplyNew(r, s, m, term).Accept?
    ensures var control := ApplyNew(r, s, m, term).value.0;
            && (control.Some? ==> Sound(r, control.value, term))
            && (s.control.Some? ==> control.Some? && Steps(s.control.value, control.value))
    ensures ResultMatches(m, ApplyNew(r, s, m, term).value.1)
  {
    hide Sound, Steps, ApplyClaim, ApplyRenew, ApplyRelease, ApplySetMember, ApplyRegister;
    match m
    case Initialize(_, at, genesis) => FreshIsSound(r, ApplyNew(r, s, m, term).value.0.value, term);
    case Barrier(_, _, _) => if s.control.Some? { NothingSteps(s.control.value); }
    case Register(_, _, _, _) => RegisterSteps(r, s.control.value, m, term);
    case SetMember(_, _, _, _, _, _, _, _) => SetMemberSteps(r, s.control.value, m, term);
    case ClaimLease(_, _, _, _, _, _, _, _) => ClaimSteps(r, s.control.value, m, term);
    case RenewLease(_, _, _, _, _, _, _, _) => RenewSteps(r, s.control.value, m, term);
    case ReleaseLease(_, _, _, _, _, _, _) => ReleaseSteps(r, s.control.value, m, term);
  }

  lemma FreshIsSound(r: Rules, c: Control, term: nat)
    requires c.leases == map[] && c.audit == [] && term > 0
    ensures Sound(r, c, term)
  {
  }

  lemma NothingSteps(c: Control)
    ensures Steps(c, c)
  {
  }

  /** Every command keeps the invariant and moves every lease forward. */
  lemma CommandKeepsInv(r: Rules, s: State, m: Command, term: nat, index: int, log: LogId)
    requires Inv(r, s, term, index) && index < log.index && term <= log.term && log.term > 0
    ensures Inv(r, Apply(r, s, m, log).0, log.term, log.index) && ControlSteps(s, Apply(r, s, m, log).0)
  {
    hide ApplyNew, Consistent, Steps, ReceiptOk;
    var s' := Apply(r, s, m, log).0;
    if s.control.Some? { NothingSteps(s.control.value); }
    ReceiptsLater(r, s, index, log.index);
    if m.AdvanceTime? && s' != s {
      var c := s.control.value;
      LaterIsSound(r, c, log.term, s'.control.value.time, c.members, c.revisions);
      assert s'.control.value == c.(time := s'.control.value.time, members := c.members, revisions := c.revisions);
    } else if s' != s {
      NewCommandSteps(r, s, m, log.term);
      var (control, result) := ApplyNew(r, s, m, log.term).value;
      NewReceiptOk(r, s, m, log, index, result, control);
    }
  }

  lemma ReceiptsLater(r: Rules, s: State, index: int, later: int)
    requires ReceiptsOk(r, s, index) && index <= later
    ensures ReceiptsOk(r, s, later)
  {
  }

  lemma NewReceiptOk(r: Rules, s: State, m: Command, log: LogId, index: int, result: Result, control: Option<Control>)
    requires ReceiptsOk(r, s, index) && index < log.index && r.isCanonical(m.id) && m.id !in s.receipts
    requires |s.receipts| < MAX_RECEIPTS
    requires ResultMatches(m, result) && (m.Barrier? && m.expected.Some? ==> m.expected.value == s.sequence)
    ensures var response := Done(m.id, s.sequence + 1, log, false, result);
            ReceiptsOk(r, State(s.sequence + 1, s.receipts[m.id := Receipt(m, response)], control), log.index)
  {
    hide ReceiptOk, ResultMatches, Unalike;
    var added := Receipt(m, Done(m.id, s.sequence + 1, log, false, result));
    var receipts := s.receipts[m.id := added];
    assert receipts.Keys == s.receipts.Keys + {m.id};
    assert |receipts| == |receipts.Keys| == |s.receipts| + 1;
    FirstAnswerOk(r, m, s.sequence, log, result);
    forall id | id in s.receipts
      ensures ReceiptOk(r, id, s.receipts[id], s.sequence + 1, log.index)
      ensures Unalike(s.receipts[id], added) && Unalike(added, s.receipts[id])
    {
      ReceiptLater(r, id, s.receipts[id], s.sequence, index, added);
    }
  }

  lemma FirstAnswerOk(r: Rules, m: Command, sequence: nat, log: LogId, result: Result)
    requires r.isCanonical(m.id) && ResultMatches(m, result) && (m.Barrier? && m.expected.Some? ==>
        m.expected.value == sequence)
    ensures ReceiptOk(r, m.id, Receipt(m, Done(m.id, sequence + 1, log, false, result)), sequence + 1, log.index)
  {
    hide ResultMatches;
  }

  lemma ReceiptLater(r: Rules, id: string, receipt: Receipt, sequence: nat, index: int, added: Receipt)
    requires ReceiptOk(r, id, receipt, sequence, index) && added.response.Done? && index < added.response.log.index
    requires sequence < added.response.sequence
    ensures ReceiptOk(r, id, receipt, sequence + 1, added.response.log.index) && Unalike(receipt, added)
    ensures Unalike(added, receipt)
  {
    hide ResultMatches;
  }
}

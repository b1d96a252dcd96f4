/** Safety of agent leases over every replicated log. */
module OwnershipRuns {
  import opened Primitives
  import opened Ownership
  import opened OwnershipSafety

  datatype Entry = Entry(command: Command, log: LogId)

  /** A log as consensus delivers it: positions ascend and terms never fall. */
  predicate Ordered(log: seq<Entry>) {
    && (forall i | 0 <= i < |log| :: log[i].log.term > 0)
    && (forall i, j | 0 <= i < j < |log| :: log[i].log.index < log[j].log.index && log[i].log.term <= log[j].log.term)
  }

  /** The state after the first `n` entries. */
  ghost function Replay(r: Rules, log: seq<Entry>, n: nat): State
    requires n <= |log|
  {
    if n == 0 then State(0, map[], None) else Apply(r, Replay(r, log, n - 1), log[n - 1].command, log[n - 1].log).0
  }

  /** The answer to entry `i`. */
  ghost function Answer(r: Rules, log: seq<Entry>, i: nat): Response
    requires i < |log|
  {
    Apply(r, Replay(r, log, i), log[i].command, log[i].log).1
  }

  /** Term and index of the entry before position `n`. */
  function TermBefore(log: seq<Entry>, n: nat): nat
    requires n <= |log|
  {
    if n == 0 then 0 else log[n - 1].log.term
  }

  function IndexBefore(log: seq<Entry>, n: nat): int
    requires n <= |log|
  {
    if n == 0 then -1 else log[n - 1].log.index
  }

  /** Every state a log leads to passes the validator, and its receipts are in order. */
  lemma {:induction false} EveryStateIsValid(r: Rules, log: seq<Entry>, n: nat)
    requires Ordered(log) && n <= |log|
    ensures Inv(r, Replay(r, log, n), TermBefore(log, n), IndexBefore(log, n))
    ensures n > 0 ==> ControlSteps(Replay(r, log, n - 1), Replay(r, log, n))
  {
    hide Apply;
    if n > 0 {
      EveryStateIsValid(r, log, n - 1);
      CommandKeepsInv(r, Replay(r, log, n - 1), log[n - 1].command, TermBefore(log, n - 1), IndexBefore(log, n - 1),
                      log[n - 1].log);
    }
  }

  /** The lease of an agent after the first `n` entries. */
  ghost function LeaseAt(r: Rules, log: seq<Entry>, n: nat, agent: string): Option<Lease>
    requires n <= |log|
  {
    var s := Replay(r, log, n);
    if s.control.Some? && agent in s.control.value.leases then Some(s.control.value.leases[agent]) else None
  }

  lemma LeaseStep(r: Rules, log: seq<Entry>, n: nat, agent: string)
    requires Ordered(log) && n < |log| && LeaseAt(r, log, n, agent).Some?
    ensures LeaseAt(r, log, n + 1, agent).Some?
    ensures Evolves(LeaseAt(r, log, n, agent).value, LeaseAt(r, log, n + 1, agent).value)
  {
    hide Inv, Evolves, Replay;
    EveryStateIsValid(r, log, n + 1);
  }

  /** A fencing token never falls, a lease's generation never falls, and one token has one owner. */
  lemma {:induction false} TokensNeverFall(r: Rules, log: seq<Entry>, i: nat, j: nat, agent: string)
    requires Ordered(log) && i <= j <= |log| && LeaseAt(r, log, i, agent).Some?
    ensures LeaseAt(r, log, j, agent).Some?
    ensures var l, l' := LeaseAt(r, log, i, agent).value, LeaseAt(r, log, j, agent).value;
            && l.token <= l'.token && l.generation <= l'.generation && l.updatedAt <= l'.updatedAt
            && (l.token == l'.token ==> l.owner == l'.owner)
            && (l.generation == l'.generation ==> l == l')
    decreases j - i
  {
    hide LeaseAt, Ordered;
    if i < j {
      TokensNeverFall(r, log, i, j - 1, agent);
      LeaseStep(r, log, j - 1, agent);
    }
  }

  /** The lease `l` is the last under its token: the next one has the next token, and `l` was released
      or expired before it and before `last`. */
  predicate HandedOver(l: Lease, next: Lease, last: Lease) {
    next.token == l.token + 1 && (l.released || (l.expiresAt <= next.updatedAt && l.expiresAt <= last.updatedAt))
  }

  /** A token is succeeded only by the next one, taken when the last lease under the old token had been
      released or had expired, before every lease that follows. */
  lemma {:induction false} Handover(r: Rules, log: seq<Entry>, i: nat, j: nat, agent: string)
    returns (k: nat, l: Lease, next: Lease)
    requires Ordered(log) && i <= j <= |log| && LeaseAt(r, log, i, agent).Some? && LeaseAt(r, log, j, agent).Some?
    requires LeaseAt(r, log, i, agent).value.token != LeaseAt(r, log, j, agent).value.token
    ensures i <= k < j && LeaseAt(r, log, k, agent) == Some(l) && LeaseAt(r, log, k + 1, agent) == Some(next)
    ensures l.token == LeaseAt(r, log, i, agent).value.token && l.owner == LeaseAt(r, log, i, agent).value.owner
    ensures HandedOver(l, next, LeaseAt(r, log, j, agent).value)
    decreases j - i
  {
    hide LeaseAt, Ordered;
    LeaseStep(r, log, i, agent);
    l, next := LeaseAt(r, log, i, agent).value, LeaseAt(r, log, i + 1, agent).value;
    if next.token == l.token {
      k, l, next := Handover(r, log, i + 1, j, agent);
    } else {
      k := i;
      TokensNeverFall(r, log, i + 1, j, agent);
    }
  }

  /** Once a lease has moved on, no new command of an earlier holder's token changes anything. */
  lemma StaleCommandsAreRefused(r: Rules, log: seq<Entry>, i: nat, j: nat, agent: string, m: Command, position: LogId)
    requires Ordered(log) && i <= j <= |log| && LeaseAt(r, log, i, agent).Some? && LeaseAt(r, log, j, agent).Some?
    requires LeaseAt(r, log, i, agent).value.token != LeaseAt(r, log, j, agent).value.token
    requires (m.RenewLease? || m.ReleaseLease?) && m.agent == agent && m.token == LeaseAt(r, log, i, agent).value.token
    requires m.id !in Replay(r, log, j).receipts
    ensures Apply(r, Replay(r, log, j), m, position) == (Replay(r, log, j), Refused(m.id))
    ensures m.token < LeaseAt(r, log, j, agent).value.token
  {
    hide Replay, Ordered;
    TokensNeverFall(r, log, i, j, agent);
  }

  /** Entry `i` took effect. */
  ghost predicate Fresh(r: Rules, log: seq<Entry>, i: nat)
    requires i < |log|
  {
    Answer(r, log, i).Done? && !Answer(r, log, i).replayed
  }

  /** How many of the first `n` entries took effect. */
  ghost function Effects(r: Rules, log: seq<Entry>, n: nat): nat
    requires n <= |log|
  {
    if n == 0 then 0 else Effects(r, log, n - 1) + if Fresh(r, log, n - 1) then 1 else 0
  }

  /** A command that takes effect files one receipt under a new id; any other leaves them alone. */
  lemma ReceiptStep(r: Rules, s: State, m: Command, log: LogId)
    ensures var (s', answer) := Apply(r, s, m, log);
            if answer.Done? && !answer.replayed then
              && m.id !in s.receipts && s'.receipts == s.receipts[m.id := Receipt(m, answer)]
              && s'.sequence == s.sequence + 1 == answer.sequence && answer.log == log
            else
              s'.receipts == s.receipts && s'.sequence == s.sequence
  {
    hide ApplyNew;
  }

  lemma EntryStep(r: Rules, log: seq<Entry>, n: nat)
    requires n < |log|
    ensures var s, s', answer := Replay(r, log, n), Replay(r, log, n + 1), Answer(r, log, n);
            if Fresh(r, log, n) then
              && log[n].command.id !in s.receipts
              && s'.receipts == s.receipts[log[n].command.id := Receipt(log[n].command, answer)]
              && s'.sequence == s.sequence + 1 == answer.sequence && answer.log == log[n].log
            else
              s'.receipts == s.receipts && s'.sequence == s.sequence
  {
    hide Apply;
    ReceiptStep(r, Replay(r, log, n), log[n].command, log[n].log);
  }

  /** Entry `i` has its receipt in `s`, numbered by how many entries took effect up to it. */
  ghost predicate Filed(r: Rules, log: seq<Entry>, i: nat, s: State)
    requires i < |log| && Fresh(r, log, i)
  {
    var id, answer := log[i].command.id, Answer(r, log, i);
    && id in s.receipts && s.receipts[id] == Receipt(log[i].command, answer)
    && answer.sequence == Effects(r, log, i + 1) && answer.log == log[i].log
  }

  ghost predicate TookEffect(r: Rules, log: seq<Entry>, n: nat, id: string)
    requires n <= |log|
  {
    exists i :: 0 <= i < n && Fresh(r, log, i) && log[i].command.id == id
  }

  /** The receipts after any prefix of any log: one for each entry that took effect, holding its command
      and its answer, and none besides. The answers are numbered in the order of the log. */
  lemma {:induction false} ReceiptsAreComplete(r: Rules, log: seq<Entry>, n: nat)
    requires n <= |log|
    ensures forall i | 0 <= i < n && Fresh(r, log, i) :: Filed(r, log, i, Replay(r, log, n))
    ensures forall id | id in Replay(r, log, n).receipts :: TookEffect(r, log, n, id)
    ensures Replay(r, log, n).sequence == Effects(r, log, n) == |Replay(r, log, n).receipts|
  {
    hide Replay, Answer, Fresh, Filed, Effects, TookEffect;
    ReceiptsCounted(r, log, n);
    if n == 0 {
      NoEntries(r, log);
    } else {
      ReceiptsAreComplete(r, log, n - 1);
      forall i | 0 <= i < n && Fresh(r, log, i) ensures Filed(r, log, i, Replay(r, log, n)) {
        StaysFiled(r, log, n - 1, i);
      }
      forall x | x in Replay(r, log, n).receipts ensures TookEffect(r, log, n, x) {
        EntryStep(r, log, n - 1);
        TakesEffect(r, log, n - 1, x);
      }
    }
  }

  lemma {:induction false} ReceiptsCounted(r: Rules, log: seq<Entry>, n: nat)
    requires n <= |log|
    ensures Replay(r, log, n).sequence == Effects(r, log, n) == |Replay(r, log, n).receipts|
  {
    hide Replay, Answer, Fresh, Effects;
    if n == 0 {
      NoEntries(r, log);
    } else {
      ReceiptsCounted(r, log, n - 1);
      EntryStep(r, log, n - 1);
      EffectStep(r, log, n - 1);
      var s, s', id := Replay(r, log, n - 1), Replay(r, log, n), log[n - 1].command.id;
      if Fresh(r, log, n - 1) { OneMore(s.receipts, id, s'.receipts[id]); }
    }
  }

  lemma OneMore(receipts: map<string, Receipt>, id: string, receipt: Receipt)
    requires id !in receipts
    ensures |receipts[id := receipt]| == |receipts| + 1
  {
    assert receipts[id := receipt].Keys == receipts.Keys + {id};
  }

  lemma TakesEffect(r: Rules, log: seq<Entry>, n: nat, id: string)
    requires n < |log| && (TookEffect(r, log, n, id) || (Fresh(r, log, n) && log[n].command.id == id))
    ensures TookEffect(r, log, n + 1, id)
  {
    hide Replay, Answer, Fresh;
  }

  lemma NoEntries(r: Rules, log: seq<Entry>)
    ensures Replay(r, log, 0) == State(0, map[], None) && Effects(r, log, 0) == 0
  {
  }

  lemma EffectStep(r: Rules, log: seq<Entry>, n: nat)
    requires n < |log|
    ensures Effects(r, log, n + 1) == Effects(r, log, n) + if Fresh(r, log, n) then 1 else 0
  {
    hide Replay, Answer, Fresh;
  }

  lemma StaysFiled(r: Rules, log: seq<Entry>, n: nat, i: nat)
    requires i <= n < |log| && Fresh(r, log, i) && (i < n ==> Filed(r, log, i, Replay(r, log, n)))
    requires Replay(r, log, n).sequence == Effects(r, log, n)
    ensures Filed(r, log, i, Replay(r, log, n + 1))
  {
    hide Replay, Answer, Fresh, Effects;
    EntryStep(r, log, n);
    EffectStep(r, log, n);
  }

  lemma ReceiptKept(r: Rules, s: State, m: Command, log: LogId, id: string)
    requires id in s.receipts
    ensures id in Apply(r, s, m, log).0.receipts && Apply(r, s, m, log).0.receipts[id] == s.receipts[id]
  {
    hide ApplyNew;
  }

  lemma {:induction false} ReceiptsStay(r: Rules, log: seq<Entry>, i: nat, j: nat, id: string)
    requires i <= j <= |log| && id in Replay(r, log, i).receipts
    ensures id in Replay(r, log, j).receipts && Replay(r, log, j).receipts[id] == Replay(r, log, i).receipts[id]
    decreases j - i
  {
    hide Apply;
    if i < j {
      ReceiptsStay(r, log, i, j - 1, id);
      ReceiptKept(r, Replay(r, log, j - 1), log[j - 1].command, log[j - 1].log, id);
    }
  }

  lemma FirstAnswerIsKept(r: Rules, s: State, m: Command, log: LogId)
    requires Apply(r, s, m, log).1.Done? && !Apply(r, s, m, log).1.replayed
        && (forall id | id in s.receipts :: s.receipts[id].response.Done?)
    ensures m.id in Apply(r, s, m, log).0.receipts
    ensures Apply(r, s, m, log).0.receipts[m.id] == Receipt(m, Apply(r, s, m, log).1)
  {
    hide ApplyNew;
  }

  /** An operation takes effect at most once: after its first success, every later entry with its id
      leaves the state alone and, when it is the same request at any proposed time, gets the first answer. */
  lemma AtMostOnce(r: Rules, log: seq<Entry>, i: nat, j: nat)
    requires Ordered(log) && i < j < |log| && log[i].command.id == log[j].command.id && !log[j].command.AdvanceTime?
    requires Answer(r, log, i).Done? && !Answer(r, log, i).replayed
    ensures Replay(r, log, j + 1) == Replay(r, log, j)
    ensures Answer(r, log, j) ==
            if SameRetry(log[i].command, log[j].command) then Answer(r, log, i).(replayed := true)
            else Refused(log[j].command.id)
  {
    hide Ordered, ApplyNew;
    EveryStateIsValid(r, log, i);
    assert forall id | id in Replay(r, log, i).receipts :: Replay(r, log, i).receipts[id].response.Done?;
    FirstAnswerIsKept(r, Replay(r, log, i), log[i].command, log[i].log);
    ReceiptsStay(r, log, i + 1, j, log[i].command.id);
    CanonicalFirst(r, Replay(r, log, i), log[i].command, log[i].log);
  }

  lemma CanonicalFirst(r: Rules, s: State, m: Command, log: LogId)
    requires Apply(r, s, m, log).1.Done?
    ensures r.isCanonical(m.id)
  {
    hide ApplyNew;
  }
}

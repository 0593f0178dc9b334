/**
 * Registration: pending quotas hold in every state of every run, registration
 * is idempotent, and bindings do not interfere.
 */
module ApprovalQuotas {

  import opened Core
  import opened ApprovalState
  import opened ApprovalRuns
  import opened ApprovalInvariants
  import opened ApprovalTheorems
  import Broker = ApprovalState

  // --- Registration -------------------------------------------------------

  // Registering a live binding again returns its identity and changes nothing;
  // otherwise a quota refuses it or it becomes a new undecided record.
  lemma RegisterOutcome(s: System, op: Op)
    requires Inv(s) && op.Register? && Enabled(s, op)
    ensures var (b, answer) := Broker.Register(s.broker, op.binding, op.now, op.created, op.id);
      && (forall id | id in s.broker.records && s.broker.records[id].binding == op.binding ::
            b == s.broker && answer == Some(id))
      && ((forall id <- s.broker.records :: s.broker.records[id].binding != op.binding) ==>
            if OverQuota(s.broker, op.binding, op.now) then b == s.broker && answer == None
            else answer == Some(op.id) && op.id !in s.broker.records
                 && b == s.broker.(records := s.broker.records[op.id := b.records[op.id]])
                 && b.records[op.id].binding == op.binding && b.records[op.id].decision == None
                 && !b.records[op.id].used && !b.records[op.id].dispatched)
  {
    var same := WithDigest(s.broker.records, Sha256(op.binding));
    forall id | id in s.broker.records && s.broker.records[id].binding == op.binding
      ensures same == {id}
    {
      assert id in same;
      forall other <- same ensures other == id { assert SameDigest(s.broker.records, other, id); }
    }
  }

  // --- Quotas -------------------------------------------------------------

  // Steps other than a registration only make records inactive.
  lemma QuotasShrink(s: System, s': System)
    requires WithinQuotas(s) && s.clock <= s'.clock
    requires forall id <- s'.broker.records ::
      id in s.broker.records && Evolves(s.broker.records[id], s'.broker.records[id])
    requires s'.broker.maxPerSession == s.broker.maxPerSession && s'.broker.maxPerTurn == s.broker.maxPerTurn
    ensures WithinQuotas(s')
  {
    forall t: real, p, q | s'.clock <= t
      ensures |ActiveInSession(s'.broker.records, t, p, q)| <= s'.broker.maxPerSession
    {
      SubsetSize(ActiveInSession(s'.broker.records, t, p, q), ActiveInSession(s.broker.records, t, p, q));
    }
    forall t: real, p, q, n | s'.clock <= t
      ensures |ActiveInTurn(s'.broker.records, t, p, q, n)| <= s'.broker.maxPerTurn
    {
      SubsetSize(ActiveInTurn(s'.broker.records, t, p, q, n), ActiveInTurn(s.broker.records, t, p, q, n));
    }
  }

  // A new record is the only one that can be active now and was not before.
  lemma SessionAdmits(m: map<ApprovalId, Record>, r: Record, now: real, t: real, p: string, q: string)
    requires now <= t && r.id !in m
    ensures var before := ActiveInSession(m, now, p, q);
      |ActiveInSession(m[r.id := r], t, p, q)| <=
        if p == r.binding.principal && q == r.binding.session then |before| + 1 else |before|
  {
    var before, after := ActiveInSession(m, now, p, q), ActiveInSession(m[r.id := r], t, p, q);
    if p == r.binding.principal && q == r.binding.session {
      assert after <= before + {r.id};
      SubsetSize(after, before + {r.id});
    } else {
      assert after <= before;
      SubsetSize(after, before);
    }
  }

  lemma TurnAdmits(m: map<ApprovalId, Record>, r: Record, now: real, t: real, p: string, q: string, n: string)
    requires now <= t && r.id !in m
    ensures var before := ActiveInTurn(m, now, p, q, n);
      |ActiveInTurn(m[r.id := r], t, p, q, n)| <=
        if p == r.binding.principal && q == r.binding.session && n == r.binding.turn then |before| + 1 else |before|
  {
    var before, after := ActiveInTurn(m, now, p, q, n), ActiveInTurn(m[r.id := r], t, p, q, n);
    if p == r.binding.principal && q == r.binding.session && n == r.binding.turn {
      assert after <= before + {r.id};
      SubsetSize(after, before + {r.id});
    } else {
      assert after <= before;
      SubsetSize(after, before);
    }
  }

  // A new record fits because its own quota was not full when it was admitted.
  lemma QuotasAdmit(s: System, s': System, x: Binding, now: real, created: real, id: ApprovalId)
    requires WithinQuotas(s) && s.clock <= now <= created == s'.clock && id !in s.broker.records
    requires !OverQuota(s.broker, x, now)
    requires s'.broker == s.broker.(records := s.broker.records[id := NewRecord(id, x, created)])
    ensures WithinQuotas(s')
  {
    var m, r := s.broker.records, NewRecord(id, x, created);
    forall t: real, p, q | s'.clock <= t
      ensures |ActiveInSession(s'.broker.records, t, p, q)| <= s'.broker.maxPerSession
    {
      SessionAdmits(m, r, now, t, p, q);
    }
    forall t: real, p, q, n | s'.clock <= t
      ensures |ActiveInTurn(s'.broker.records, t, p, q, n)| <= s'.broker.maxPerTurn
    {
      TurnAdmits(m, r, now, t, p, q, n);
    }
  }

  lemma QuotaStep(s: System, op: Op, s': System)
    requires Inv(s) && Enabled(s, op) && s' == Next(s, op) && WithinQuotas(s)
    ensures WithinQuotas(s')
  {
    StepKeeps(s, op);
    if op.Register? && s'.broker != s.broker {
      QuotasAdmit(s, s', op.binding, op.now, op.created, op.id);
    } else {
      OnlyRegisterAdds(s, op);
      QuotasShrink(s, s');
    }
  }

  lemma OnlyRegisterAdds(s: System, op: Op)
    requires s.broker.WellFormed() && Enabled(s, op) && (op.Register? ==> Next(s, op).broker == s.broker)
    ensures Next(s, op).broker.records.Keys <= s.broker.records.Keys
    ensures s.clock <= Next(s, op).clock
  {
  }

  // In every reachable state, at every later clock value, unused unexpired
  // records stay within the per-session and the per-turn quota.
  lemma {:induction false} RunWithinQuotas(states: seq<System>, ops: seq<Op>, k: nat)
    requires IsRun(states, ops) && k < |states|
    ensures WithinQuotas(states[k])
  {
    if k > 0 {
      RunWithinQuotas(states, ops, k - 1);
      RunInv(states, ops, k - 1);
      QuotaStep(states[k - 1], ops[k - 1], states[k]);
    } else {
      assert forall t: real, p, q :: ActiveInSession(states[0].broker.records, t, p, q) == {};
      assert forall t: real, p, q, n :: ActiveInTurn(states[0].broker.records, t, p, q, n) == {};
    }
  }

  // --- Isolation ----------------------------------------------------------

  // The digest a wait, resolve or consume step is about.
  ghost function Target(s: System, op: Op): Digest
    requires Enabled(s, op) && !op.Register? && !op.Sweep?
  {
    if op.Resolve? || op.Dispatch? || op.TaskCommit? then op.claim.digest
    else if op.WaitEnter? then op.digest
    else s.waiters[op.w].digest
  }

  // Such a step leaves every record with another digest unchanged, together
  // with its pending future, even when both carry the same tool call.
  ghost predicate Untouched(s: System, s': System, id: ApprovalId)
    requires id in s.broker.records
  {
    && id in s'.broker.records && s'.broker.records[id] == s.broker.records[id]
    && (id in s'.broker.pending <==> id in s.broker.pending)
    && (id in s.broker.pending ==> s'.broker.pending[id] == s.broker.pending[id])
    && |s.broker.futures| <= |s'.broker.futures|
    && forall f | 0 <= f < |s.broker.futures| && s.broker.futures[f].owner == id ::
         s'.broker.futures[f] == s.broker.futures[f]
  }

  // Only record `id`, its pending future and its futures may differ.
  ghost predicate Apart(b: Broker.Broker, b': Broker.Broker, id: ApprovalId) {
    && (forall other | other in b.records && other != id :: other in b'.records && b'.records[other] == b.records[other])
    && b'.pending - {id} == b.pending - {id}
    && |b.futures| <= |b'.futures|
    && (forall f | 0 <= f < |b.futures| && b.futures[f].owner != id :: b'.futures[f] == b.futures[f])
  }

  lemma ApartUntouched(s: System, s': System, one: ApprovalId, id: ApprovalId)
    requires Apart(s.broker, s'.broker, one) && id in s.broker.records && id != one
    ensures Untouched(s, s', id)
  {
    assert id in s'.broker.pending - {one} <==> id in s.broker.pending - {one};
  }

  lemma WaitApart(b: Broker.Broker, toolCall: string, digest: Digest, now: real, id: ApprovalId)
    requires Find(b.records, toolCall, digest, None, None) == Some(id)
    ensures Apart(b, Broker.WaitEnter(b, toolCall, digest, now).0, id)
    ensures Apart(b, Broker.WaitTimeout(b, toolCall, digest), id)
    ensures Apart(b, Broker.WaitFinish(b, toolCall, digest), id)
  {
  }

  lemma NotifyApart(b: Broker.Broker, b': Broker.Broker, id: ApprovalId, d: Decision)
    requires PendingOk(b) && id in b.records
    requires b' == SetDecision(b, id, d) || b' == SetDispatched(b, id, d)
    ensures b'.WellFormed() && Apart(b, b', id) && Apart(b, Notify(b', id, d), id)
  {
  }

  lemma ResolveApart(b: Broker.Broker, c: Claim, d: Decision, now: real, id: ApprovalId)
    requires PendingOk(b) && FindClaimed(b.records, c) == Some(id)
    ensures Apart(b, Broker.Resolve(b, c, d, now).0, id)
  {
    NotifyApart(b, SetDecision(b, id, d), id, d);
  }

  lemma DispatchApart(b: Broker.Broker, c: Claim, d: Decision, now: real, id: ApprovalId)
    requires FindClaimed(b.records, c) == Some(id)
    ensures Apart(b, Broker.Dispatch(b, c, d, now).0, id)
  {
  }

  lemma CommitApart(b: Broker.Broker, c: Claim, approved: bool, committed: bool, now: real, id: ApprovalId)
    requires PendingOk(b) && FindClaimed(b.records, c) == Some(id)
    ensures Apart(b, Broker.TaskCommit(b, c, approved, committed, now).0, id)
  {
    NotifyApart(b, SetDispatched(b, id, Decision(approved, false)), id, Decision(approved, false));
  }

  predicate LooksUp(op: Op) {
    op.WaitEnter? || op.WaitTimeout? || op.WaitFinish? || op.Resolve? || op.Dispatch? || op.TaskCommit?
  }

  // The record such a step finds, if it finds one.
  ghost function Found(s: System, op: Op): Option<ApprovalId>
    requires Enabled(s, op) && LooksUp(op)
  {
    if op.Resolve? || op.Dispatch? || op.TaskCommit? then FindClaimed(s.broker.records, op.claim)
    else if op.WaitEnter? then Find(s.broker.records, op.toolCall, op.digest, None, None)
    else Find(s.broker.records, s.waiters[op.w].toolCall, s.waiters[op.w].digest, None, None)
  }

  lemma FoundHasTarget(s: System, op: Op)
    requires Enabled(s, op) && LooksUp(op) && Found(s, op).Some?
    ensures Found(s, op).value in s.broker.records && s.broker.records[Found(s, op).value].digest == Target(s, op)
  {
  }

  lemma NothingFound(s: System, op: Op)
    requires s.broker.WellFormed() && Enabled(s, op)
    requires LooksUp(op) && Found(s, op).None?
    ensures Next(s, op).broker == s.broker
  {
  }

  lemma BindingsAreIsolated(s: System, op: Op, id: ApprovalId)
    requires Inv(s) && Enabled(s, op) && !op.Register? && !op.Sweep?
    requires id in s.broker.records && s.broker.records[id].digest != Target(s, op)
    ensures Untouched(s, Next(s, op), id)
  {
    if !LooksUp(op) {
      WakingIsIsolated(s, op, id);
    } else if Found(s, op).None? {
      NothingFound(s, op);
    } else {
      FoundHasTarget(s, op);
      FoundApart(s, op, Found(s, op).value);
      ApartUntouched(s, Next(s, op), Found(s, op).value, id);
    }
  }

  lemma WakingIsIsolated(s: System, op: Op, id: ApprovalId)
    requires Inv(s) && Enabled(s, op) && (op.WaitWake? || op.WaitCancel? || op.WaitAbandon?)
    requires id in s.broker.records && s.broker.records[id].digest != Target(s, op)
    ensures Untouched(s, Next(s, op), id)
  {
    if op.WaitCancel? {
      WaiterIsElsewhere(s, s.waiters[op.w], id);
      FutureIsElsewhere(s, Next(s, op), s.waiters[op.w].future, id);
    }
  }

  lemma WaiterIsElsewhere(s: System, v: Waiter, id: ApprovalId)
    requires RecordsOk(s) && WaiterOk(s, v) && id in s.broker.records && s.broker.records[id].digest != v.digest
    ensures s.broker.futures[v.future].owner != id
  {
  }

  // At most one future, of another record, differs.
  lemma FutureIsElsewhere(s: System, s': System, f: nat, id: ApprovalId)
    requires id in s.broker.records && f < |s.broker.futures| && s.broker.futures[f].owner != id
    requires s'.broker == s.broker.(futures := s'.broker.futures) && |s'.broker.futures| == |s.broker.futures|
    requires forall g | 0 <= g < |s.broker.futures| && g != f :: s'.broker.futures[g] == s.broker.futures[g]
    ensures Untouched(s, s', id)
  {
  }

  lemma FoundApart(s: System, op: Op, id: ApprovalId)
    requires PendingOk(s.broker) && Enabled(s, op)
    requires LooksUp(op) && Found(s, op) == Some(id)
    ensures Apart(s.broker, Next(s, op).broker, id)
  {
    match op
    case Resolve(c, d, now) => ResolveApart(s.broker, c, d, now, id);
    case Dispatch(c, d, now) => DispatchApart(s.broker, c, d, now, id);
    case TaskCommit(c, approved, committed, now) => CommitApart(s.broker, c, approved, committed, now, id);
    case WaitEnter(_, toolCall, digest, _, now) => WaitApart(s.broker, toolCall, digest, now, id);
    case WaitTimeout(w) => WaitApart(s.broker, s.waiters[w].toolCall, s.waiters[w].digest, 0.0, id);
    case WaitFinish(w) => WaitApart(s.broker, s.waiters[w].toolCall, s.waiters[w].digest, 0.0, id);
  }

}

/**
 * What each call of the approval broker answers and leaves behind, stated over
 * the records, the registrations and the futures: exactly when `wait` answers
 * at once and with what, who is told a decision, and which records a
 * registration, a finished wait, a mismatched dispatch, a task commit and a
 * sweep leave.
 */
module ApprovalAnswers {

  import opened Core
  import opened ApprovalState
  import opened ApprovalRuns
  import opened ApprovalInvariants
  import opened ApprovalTheorems
  import opened ApprovalQuotas
  import opened ApprovalWaiters
  import Broker = ApprovalState

  // --- Waiting ------------------------------------------------------------

  // The live record `id` was registered for this tool call and digest.
  ghost predicate Bound(s: System, toolCall: string, digest: Digest, id: ApprovalId) {
    id in s.broker.records && id in s.issued && digest == Sha256(s.issued[id]) && toolCall == s.issued[id].toolCall
  }

  // And it is neither used nor expired.
  ghost predicate Awaited(s: System, toolCall: string, digest: Digest, now: real, id: ApprovalId) {
    Bound(s, toolCall, digest, id) && !s.broker.records[id].used && now < s.issued[id].expiresAt
  }

  lemma BoundIsFound(s: System, toolCall: string, digest: Digest, id: ApprovalId)
    requires Inv(s)
    ensures Find(s.broker.records, toolCall, digest, None, None) == Some(id) <==> Bound(s, toolCall, digest, id)
  {
    FindIsTheMatch(s.broker.records, toolCall, digest, None, None, id);
  }

  // What a call of `wait` does about the record it is bound to.
  lemma EnterAnswer(s: System, toolCall: string, digest: Digest, now: real, id: ApprovalId)
    requires Inv(s) && Bound(s, toolCall, digest, id)
    ensures var e, r := Broker.WaitEnter(s.broker, toolCall, digest, now).1, s.broker.records[id];
      if !Awaited(s, toolCall, digest, now, id) then e == Answer(DENIED)
      else if r.decision.Some? then e == Answer(r.decision.value)
      else e.Await?
  {
    BoundIsFound(s, toolCall, digest, id);
  }

  // Exactly when `wait` answers at once, and with what.
  lemma EnterAnswersIff(s: System, toolCall: string, digest: Digest, now: real, d: Decision)
    requires Inv(s)
    ensures var e := Broker.WaitEnter(s.broker, toolCall, digest, now).1;
      && (e.Await? <==> exists id :: Awaited(s, toolCall, digest, now, id) && s.broker.records[id].decision == None)
      && (e == Answer(d) <==>
            || (exists id :: Awaited(s, toolCall, digest, now, id) && s.broker.records[id].decision == Some(d))
            || (d == DENIED && forall id :: !Awaited(s, toolCall, digest, now, id)))
  {
    var found := Find(s.broker.records, toolCall, digest, None, None);
    forall id ensures found == Some(id) <==> Bound(s, toolCall, digest, id) { BoundIsFound(s, toolCall, digest, id); }
    if found.Some? { EnterAnswer(s, toolCall, digest, now, found.value); }
  }

  // An answer spends the record; otherwise the caller waits on the future that
  // is then pending for it, the one pending before if there was one.
  lemma EnterLeaves(s: System, op: Op, id: ApprovalId)
    requires Inv(s) && Enabled(s, op) && op.WaitEnter? && Awaited(s, op.toolCall, op.digest, op.now, id)
    ensures var s' := Next(s, op); var b, b' := s.broker, s'.broker;
      if b.records[id].decision.Some? then
        b'.records == b.records[id := b.records[id].(used := true)] && s'.waiters == s.waiters
        && b'.pending == b.pending && b'.futures == b.futures
      else
        && b'.records == b.records && id in b'.pending && b'.pending[id] < |b'.futures|
        && b'.futures[b'.pending[id]].owner == id
        && (if id in b.pending then b'.pending == b.pending && b'.futures == b.futures
            else b'.futures[b'.pending[id]].state == Unresolved)
        && s'.waiters == s.waiters[op.w := Waiter(op.toolCall, op.digest, b'.pending[id], op.timed, Waiting)]
  {
    BoundIsFound(s, op.toolCall, op.digest, id);
  }

  // A caller that times out or runs its last region spends the record of its
  // digest, and the last region drops the pending future.
  lemma LeavingSpends(s: System, op: Op, id: ApprovalId)
    requires Inv(s) && Enabled(s, op) && (op.WaitTimeout? || op.WaitFinish?)
    requires id in s.broker.records && s.broker.records[id].digest == s.waiters[op.w].digest
    ensures id in Next(s, op).broker.records && Next(s, op).broker.records[id] == s.broker.records[id].(used := true)
    ensures op.WaitFinish? ==> Next(s, op).broker.pending == s.broker.pending - {id}
    ensures op.WaitTimeout? ==> Next(s, op).waiters[op.w].phase == Leaving(Some(DENIED))
  {
    var v := s.waiters[op.w];
    assert WaiterOk(s, v);
    BoundIsFound(s, v.toolCall, v.digest, id);
  }

  // A cancelled caller raises; it takes an unresolved future with it exactly
  // when it gave no timeout.
  lemma CancelReaches(s: System, op: Op)
    requires Inv(s) && Enabled(s, op) && op.WaitCancel?
    ensures var v := s.waiters[op.w]; var u, u' := s.broker.futures[v.future], Next(s, op).broker.futures[v.future];
      && Next(s, op).waiters[op.w].phase == Leaving(None)
      && u' == if u.state.Unresolved? && !v.timed then u.(state := Cancelled) else u
  {
  }

  // --- Who is told a decision ---------------------------------------------

  // Steps lo..hi neither evict `id` nor are about its digest.
  ghost predicate LeftAlone(states: seq<System>, ops: seq<Op>, lo: nat, hi: nat, id: ApprovalId, digest: Digest)
    requires hi <= |ops| < |states|
  {
    forall j | lo <= j < hi :: LeavesAlone(states[j], ops[j], states[j + 1], id, digest)
  }

  ghost predicate LeavesAlone(s: System, op: Op, s': System, id: ApprovalId, digest: Digest) {
    Enabled(s, op) && id in s'.broker.records && (op.Register? || op.Sweep? || Target(s, op) != digest)
  }

  lemma AloneStep(s: System, op: Op, id: ApprovalId)
    requires Inv(s) && Enabled(s, op) && id in s.broker.records && id in Next(s, op).broker.records
    requires op.Register? || op.Sweep? || Target(s, op) != s.broker.records[id].digest
    ensures Next(s, op).broker.records[id] == s.broker.records[id]
  {
    if !op.Register? && !op.Sweep? { BindingsAreIsolated(s, op, id); }
  }

  lemma RunAlone(states: seq<System>, ops: seq<Op>, lo: nat, k: nat, id: ApprovalId)
    requires IsRun(states, ops) && lo <= k < |ops| && id in states[lo].issued && id in states[k].broker.records
    requires LeavesAlone(states[k], ops[k], states[k + 1], id, Sha256(states[lo].issued[id]))
    ensures Kept(states[k], states[k + 1], id)
  {
    RunInv(states, ops, k);
    RunIsTracked(states, ops);
    IssuedStays(states, ops, lo, k, id);
    AloneStep(states[k], ops[k], id);
  }

  ghost predicate Kept(s: System, s': System, id: ApprovalId) {
    id in s.broker.records ==> id in s'.broker.records && s'.broker.records[id] == s.broker.records[id]
  }

  lemma {:induction false} KeptThrough(states: seq<System>, lo: nat, hi: nat, id: ApprovalId)
    requires lo <= hi < |states| && forall j | lo <= j < hi :: Kept(states[j], states[j + 1], id)
    ensures Kept(states[lo], states[hi], id)
    decreases hi
  {
    if lo < hi {
      KeptThrough(states, lo, hi - 1, id);
      assert Kept(states[hi - 1], states[hi - 1 + 1], id);
    }
  }

  lemma AloneStays(states: seq<System>, ops: seq<Op>, lo: nat, hi: nat, id: ApprovalId)
    requires IsRun(states, ops) && lo <= hi <= |ops| && id in states[lo].issued
    requires LeftAlone(states, ops, lo, hi, id, Sha256(states[lo].issued[id]))
    ensures Kept(states[lo], states[hi], id)
  {
    forall j | lo <= j < hi ensures Kept(states[j], states[j + 1], id) {
      assert LeavesAlone(states[j], ops[j], states[j + 1], id, Sha256(states[lo].issued[id]));
      if id in states[j].broker.records { RunAlone(states, ops, lo, j, id); }
    }
    KeptThrough(states, lo, hi, id);
  }

  lemma ResolvedIsUnused(s: System, op: Op, id: ApprovalId, d: Decision)
    requires Inv(s) && Enabled(s, op) && op.Resolve? && Decides(s, op, id, d)
    ensures id in Next(s, op).broker.records
    ensures Next(s, op).broker.records[id] == s.broker.records[id].(decision := Some(d))
  {
    var c := op.claim;
    FindIsTheMatch(s.broker.records, c.toolCall, c.digest, Some(c.principal), Some(c.session), id);
  }

  lemma DecidedStays(states: seq<System>, ops: seq<Op>, i: nat, k: nat, id: ApprovalId)
    requires IsRun(states, ops) && i < k < |ops| && id in states[i].issued && id in states[i + 1].broker.records
    requires LeftAlone(states, ops, i + 1, k, id, Sha256(states[i].issued[id]))
    ensures Kept(states[i + 1], states[k], id)
    ensures id in states[k].issued && states[k].issued[id] == states[i].issued[id]
  {
    RunIsTracked(states, ops);
    IssuedStays(states, ops, i, i + 1, id);
    IssuedStays(states, ops, i, k, id);
    AloneStays(states, ops, i + 1, k, id);
  }

  // In every run: what a resolution decided is what the next call of `wait` on
  // it is told, if that comes in time and nothing touched the record between.
  lemma DecidedIsObserved(states: seq<System>, ops: seq<Op>, i: nat, k: nat, id: ApprovalId, d: Decision)
    requires IsRun(states, ops) && i < k < |ops| && ops[i].Resolve? && Decides(states[i], ops[i], id, d)
    requires LeftAlone(states, ops, i + 1, k, id, Sha256(states[i].issued[id]))
    requires ops[k].WaitEnter? && ops[k].digest == Sha256(states[i].issued[id])
    requires ops[k].toolCall == states[i].issued[id].toolCall && ops[k].now < states[i].issued[id].expiresAt
    ensures Inv(states[k]) && Observes(states[k], ops[k], id, d)
  {
    RunInv(states, ops, i);
    RunInv(states, ops, i + 1);
    RunInv(states, ops, k);
    ResolvedIsUnused(states[i], ops[i], id, d);
    DecidedStays(states, ops, i, k, id);
    BoundIsFound(states[k], ops[k].toolCall, ops[k].digest, id);
    EnterAnswer(states[k], ops[k].toolCall, ops[k].digest, ops[k].now, id);
  }

  // A decision resolves the future pending for its record.
  lemma DecisionResolves(s: System, op: Op, id: ApprovalId, d: Decision)
    requires Inv(s) && Enabled(s, op) && Decides(s, op, id, d) && id in s.broker.pending
    requires s.broker.futures[s.broker.pending[id]].state.Unresolved?
    ensures s.broker.pending[id] < |Next(s, op).broker.futures|
    ensures Next(s, op).broker.futures[s.broker.pending[id]] == Future(id, Resolved(d))
  {
    if op.Resolve? {
      assert Resolvable(s, op.claim, op.now, id);
      ResolveAnswersIff(s, op.claim, op.decision, op.now);
      ResolveIsLocal(s, op);
    } else {
      assert Claimed(s, op.claim, op.now, id);
      CommitLeaves(s, op.claim, op.approved, op.committed, op.now, id);
    }
  }

  lemma {:induction false} WaiterStays(states: seq<System>, ops: seq<Op>, i: nat, k: nat, w: nat)
    requires IsRun(states, ops) && i <= k < |states| && w in states[i].waiters
    ensures w in states[k].waiters && states[k].waiters[w].future == states[i].waiters[w].future
    decreases k
  {
    if i < k {
      WaiterStays(states, ops, i, k - 1, w);
      RunKeepsWaiter(states, ops, k - 1, w);
    }
  }

  lemma RunKeepsWaiter(states: seq<System>, ops: seq<Op>, k: nat, w: nat)
    requires IsRun(states, ops) && k < |ops| && w in states[k].waiters
    ensures w in states[k + 1].waiters && states[k + 1].waiters[w].future == states[k].waiters[w].future
  {
    WaitersAfter(states[k], ops[k]);
  }

  // In every run: a reachable caller blocked when its approval is decided, by
  // a resolution or a successful task commit, is told that when it wakes.
  lemma WaiterIsTold(states: seq<System>, ops: seq<Op>, i: nat, k: nat, w: nat, d: Decision)
    requires IsRun(states, ops) && i < k < |ops| && Blocked(states[i], w) && Reachable(states[i], w)
    requires Decides(states[i], ops[i], states[i].broker.futures[states[i].waiters[w].future].owner, d)
    requires ops[k] == WaitWake(w)
    ensures Inv(states[k]) && Observes(states[k], ops[k], states[i].broker.futures[states[i].waiters[w].future].owner, d)
  {
    var f := states[i].waiters[w].future;
    RunInv(states, ops, i);
    RunInv(states, ops, k);
    DecisionResolves(states[i], ops[i], states[i].broker.futures[f].owner, d);
    RunIsTracked(states, ops);
    FutureStays(states, ops, i + 1, k, f);
    WaiterStays(states, ops, i, k, w);
  }

  // --- Registering --------------------------------------------------------

  // The unused unexpired records of a principal's session, and of a turn.
  ghost predicate SameSession(r: Record, x: Binding, now: real) {
    && !r.used && now < r.binding.expiresAt
    && r.binding.principal == x.principal && r.binding.session == x.session
  }

  // Exactly when a new binding is refused, and what is stored when it is not.
  lemma RegisterAnswersIff(s: System, op: Op)
    requires Inv(s) && Enabled(s, op) && op.Register?
    requires forall id <- s.broker.records :: s.broker.records[id].binding != op.binding
    ensures var m, x := s.broker.records, op.binding;
      var (b, answer) := Broker.Register(s.broker, x, op.now, op.created, op.id);
      && (answer == None <==>
            || |set id | id in m && SameSession(m[id], x, op.now)| >= s.broker.maxPerSession
            || |set id | id in m && SameSession(m[id], x, op.now) && m[id].binding.turn == x.turn| >= s.broker.maxPerTurn)
      && (answer == None ==> b == s.broker)
      && (answer != None ==> answer == Some(op.id) && b == s.broker.(records :=
            m[op.id := Record(op.id, x, Sha256(x), None, false, false, op.created)]))
  {
    var m, x := s.broker.records, op.binding;
    RegisterOutcome(s, op);
    assert (set id | id in m && SameSession(m[id], x, op.now)) == ActiveInSession(m, op.now, x.principal, x.session);
    assert (set id | id in m && SameSession(m[id], x, op.now) && m[id].binding.turn == x.turn)
        == ActiveInTurn(m, op.now, x.principal, x.session, x.turn);
  }

  // --- Consuming ----------------------------------------------------------

  // What a dispatch does about the record it names, before that expires.
  lemma DispatchLeaves(s: System, c: Claim, d: Decision, now: real, id: ApprovalId)
    requires Inv(s) && Claimed(s, c, now, id)
    ensures var (b, answer) := Broker.Dispatch(s.broker, c, d, now); var r := s.broker.records[id];
      if r.dispatched then b == s.broker && answer == DENIED
      else if MayHold(r, d) then
        answer == d && b == s.broker.(records := s.broker.records[id := r.(decision := Some(d), used := true, dispatched := true)])
      else answer == DENIED && b == s.broker.(records := s.broker.records[id := r.(used := true)])
  {
    ClaimedIsFound(s, c, id);
  }

  // A dispatch that names no live unexpired record is denied and changes nothing.
  lemma DispatchOfNothing(s: System, c: Claim, d: Decision, now: real)
    requires Inv(s) && forall id :: !Claimed(s, c, now, id)
    ensures Broker.Dispatch(s.broker, c, d, now) == (s.broker, DENIED)
  {
    var found := FindClaimed(s.broker.records, c);
    if found.Some? {
      ClaimedIsFound(s, c, found.value);
      assert !Claimed(s, c, now, found.value);
    }
  }

  // A task commit consumes the record it names whatever its callback answers,
  // and tells the waiter exactly when it committed.
  lemma CommitLeaves(s: System, c: Claim, approved: bool, committed: bool, now: real, id: ApprovalId)
    requires Inv(s) && Claimed(s, c, now, id)
    ensures var (b, answer) := Broker.TaskCommit(s.broker, c, approved, committed, now);
      var r, d := s.broker.records[id], Decision(approved, false);
      if !Undecided(r) || r.dispatched then b == s.broker && !answer
      else
        && answer == committed && b.pending == s.broker.pending
        && b.records == s.broker.records[id := r.(decision := Some(d), used := true, dispatched := true)]
        && (if committed && id in s.broker.pending && s.broker.futures[s.broker.pending[id]].state.Unresolved?
            then b.futures == s.broker.futures[s.broker.pending[id] := Future(id, Resolved(d))]
            else b.futures == s.broker.futures)
  {
    ClaimedIsFound(s, c, id);
  }

  // --- Sweeping -----------------------------------------------------------

  // Exactly which records a sweep leaves, all unchanged.
  lemma SweepLeavesIff(s: System, op: Op, id: ApprovalId)
    requires Inv(s) && Enabled(s, op) && op.Sweep?
    ensures var m, m' := s.broker.records, Next(s, op).broker.records;
      && (id in m' <==> id in m && !m[id].used && op.now <= m[id].createdAt + op.ttl)
      && (id in m' ==> m'[id] == m[id])
  {
  }

}

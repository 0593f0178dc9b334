/**
 * Safety of the approval broker over whole runs.
 */
module ApprovalTheorems {

  import opened Core
  import opened ApprovalState
  import opened ApprovalRuns
  import opened ApprovalInvariants
  import Broker = ApprovalState

  lemma {:induction false} RunInv(states: seq<System>, ops: seq<Op>, k: nat)
    requires IsRun(states, ops) && k < |states|
    ensures Inv(states[k])
  {
    if k > 0 {
      RunInv(states, ops, k - 1);
      StepKeeps(states[k - 1], ops[k - 1]);
    }
  }

  lemma RunStep(states: seq<System>, ops: seq<Op>, k: nat)
    requires IsRun(states, ops) && k < |ops|
    ensures Inv(states[k]) && Enabled(states[k], ops[k]) && Inv(states[k + 1])
    ensures StepOk(states[k], states[k + 1]) && Sourced(states[k], ops[k], states[k + 1])
  {
    RunInv(states, ops, k);
    StepKeeps(states[k], ops[k]);
    StepSource(states[k], ops[k]);
  }

  // --- Between two states of a run ----------------------------------------

  // All that the lemmas of this section need to know of a run.
  ghost predicate Tracked(states: seq<System>, ops: seq<Op>) {
    && |states| == |ops| + 1
    && (forall k | 0 <= k < |states| :: Inv(states[k]))
    && (forall k | 0 <= k < |ops| :: StepOk(states[k], states[k + 1]))
    && (forall k | 0 <= k < |ops| :: Sourced(states[k], ops[k], states[k + 1]))
  }

  lemma RunIsTracked(states: seq<System>, ops: seq<Op>)
    requires IsRun(states, ops)
    ensures Tracked(states, ops)
  {
    forall k | 0 <= k < |states| ensures Inv(states[k]) { RunInv(states, ops, k); }
    forall k | 0 <= k < |ops| ensures StepOk(states[k], states[k + 1]) { RunStep(states, ops, k); }
    forall k | 0 <= k < |ops| ensures Sourced(states[k], ops[k], states[k + 1]) { RunStep(states, ops, k); }
  }

  // Registrations are never forgotten, and evicted records never come back.
  lemma {:induction false} IssuedStays(states: seq<System>, ops: seq<Op>, i: nat, j: nat, id: ApprovalId)
    requires Tracked(states, ops) && i <= j < |states| && id in states[i].issued
    ensures id in states[j].issued && states[j].issued[id] == states[i].issued[id]
    ensures id in states[j].broker.records ==> id in states[i].broker.records
    decreases j
  {
    if i < j {
      IssuedStays(states, ops, i, j - 1, id);
      assert StepOk(states[j - 1], states[j]);
    }
  }

  // A stored decision is write-once, and `used` and `dispatched` never go back.
  lemma {:induction false} RecordEvolves(states: seq<System>, ops: seq<Op>, i: nat, j: nat, id: ApprovalId)
    requires Tracked(states, ops) && i <= j < |states|
    requires id in states[i].broker.records && id in states[j].broker.records
    ensures Evolves(states[i].broker.records[id], states[j].broker.records[id])
    decreases j
  {
    if i < j {
      assert Inv(states[i]) && StepOk(states[j - 1], states[j]);
      IssuedStays(states, ops, i, j - 1, id);
      RecordEvolves(states, ops, i, j - 1, id);
    }
  }

  // A future is resolved or cancelled at most once.
  lemma {:induction false} FutureStays(states: seq<System>, ops: seq<Op>, i: nat, j: nat, f: nat)
    requires Tracked(states, ops) && i <= j < |states| && f < |states[i].broker.futures|
    ensures f < |states[j].broker.futures|
    ensures FutureEvolves(states[i].broker.futures[f], states[j].broker.futures[f])
    decreases j
  {
    if i < j {
      FutureStays(states, ops, i, j - 1, f);
      assert StepOk(states[j - 1], states[j]);
      assert FutureEvolves(states[j - 1].broker.futures[f], states[j].broker.futures[f]);
    }
  }

  // --- Dispatch -----------------------------------------------------------

  // Step `op` moves the live record `id` to dispatched.
  ghost predicate Dispatches(s: System, op: Op, id: ApprovalId)
    requires s.broker.WellFormed() && Enabled(s, op)
  {
    && id in s.broker.records && !s.broker.records[id].dispatched
    && id in Next(s, op).broker.records && Next(s, op).broker.records[id].dispatched
  }

  // The caller of either dispatch path is told to go ahead.
  ghost predicate GoAhead(s: System, op: Op)
    requires s.broker.WellFormed()
  {
    || (op.Dispatch? && Broker.Dispatch(s.broker, op.claim, op.decision, op.now).1.approved)
    || (op.TaskCommit? && Broker.TaskCommit(s.broker, op.claim, op.approved, op.committed, op.now).1)
  }

  // Who was told to go ahead, and on what grounds.
  lemma GoAheadIsBound(s: System, op: Op) returns (id: ApprovalId)
    requires Inv(s) && Enabled(s, op) && GoAhead(s, op)
    ensures Dispatches(s, op, id)
    ensures Names(op.claim, s.issued[id]) && op.now < s.issued[id].expiresAt
    ensures Next(s, op).broker.records[id].decision == Some(OpDecision(op))
    ensures MayHold(s.broker.records[id], OpDecision(op))
    ensures op.Dispatch? ==> OpDecision(op).approved
  {
    id := FindClaimed(s.broker.records, op.claim).value;
    FindIsTheMatch(s.broker.records, op.claim.toolCall, op.claim.digest,
                   Some(op.claim.principal), Some(op.claim.session), id);
  }

  // A dispatch that moves a record, approving or rejecting, answers exactly
  // the decision that record then holds.
  lemma DispatchAnswersStored(s: System, op: Op, id: ApprovalId)
    requires Inv(s) && Enabled(s, op) && op.Dispatch? && Dispatches(s, op, id)
    ensures Next(s, op).broker.records[id].decision == Some(Broker.Dispatch(s.broker, op.claim, op.decision, op.now).1)
    ensures MayHold(s.broker.records[id], Broker.Dispatch(s.broker, op.claim, op.decision, op.now).1)
    ensures id in s.issued && Names(op.claim, s.issued[id]) && op.now < s.issued[id].expiresAt
  {
    FindIsTheMatch(s.broker.records, op.claim.toolCall, op.claim.digest,
                   Some(op.claim.principal), Some(op.claim.session), id);
  }

  // The live record `id` is the one the claim names, and it is not expired.
  ghost predicate Claimed(s: System, c: Claim, now: real, id: ApprovalId) {
    id in s.broker.records && id in s.issued && Names(c, s.issued[id]) && now < s.issued[id].expiresAt
  }

  lemma ClaimedIsFound(s: System, c: Claim, id: ApprovalId)
    requires Inv(s)
    ensures FindClaimed(s.broker.records, c) == Some(id) <==>
            id in s.broker.records && id in s.issued && Names(c, s.issued[id])
  {
    FindIsTheMatch(s.broker.records, c.toolCall, c.digest, Some(c.principal), Some(c.session), id);
  }

  // Exactly when a dispatch is told to go ahead: it asks for an approval, and
  // the record it names was not dispatched and holds no other decision.
  lemma DispatchAnswersIff(s: System, c: Claim, d: Decision, now: real)
    requires Inv(s)
    ensures Broker.Dispatch(s.broker, c, d, now).1.approved <==>
      d.approved && exists id :: Claimed(s, c, now, id) && !s.broker.records[id].dispatched && MayHold(s.broker.records[id], d)
  {
    forall id ensures FindClaimed(s.broker.records, c) == Some(id) <==>
                      id in s.broker.records && id in s.issued && Names(c, s.issued[id])
    {
      ClaimedIsFound(s, c, id);
    }
    if Broker.Dispatch(s.broker, c, d, now).1.approved {
      assert Claimed(s, c, now, FindClaimed(s.broker.records, c).value);
    }
  }

  // Exactly when a task commit succeeds: the callback committed, and the
  // record it names was neither used nor dispatched nor decided.
  lemma CommitAnswersIff(s: System, c: Claim, approved: bool, committed: bool, now: real)
    requires Inv(s)
    ensures Broker.TaskCommit(s.broker, c, approved, committed, now).1 <==>
      committed && exists id :: Claimed(s, c, now, id) && Undecided(s.broker.records[id]) && !s.broker.records[id].dispatched
  {
    forall id ensures FindClaimed(s.broker.records, c) == Some(id) <==>
                      id in s.broker.records && id in s.issued && Names(c, s.issued[id])
    {
      ClaimedIsFound(s, c, id);
    }
    if Broker.TaskCommit(s.broker, c, approved, committed, now).1 {
      assert Claimed(s, c, now, FindClaimed(s.broker.records, c).value);
    }
  }

  predicate Undecided(r: Record) {
    !r.used && r.decision == None
  }

  // The record a resolution decides, and whether it can still tell a waiter.
  ghost predicate Resolvable(s: System, c: Claim, now: real, id: ApprovalId) {
    && Claimed(s, c, now, id) && Undecided(s.broker.records[id])
    && (id in s.broker.pending ==>
          s.broker.pending[id] < |s.broker.futures| && s.broker.futures[s.broker.pending[id]].state.Unresolved?)
  }

  // Exactly when a resolution answers true, and that the pending waiter of the
  // record is told then.
  lemma ResolveAnswersIff(s: System, c: Claim, d: Decision, now: real)
    requires Inv(s)
    ensures Broker.Resolve(s.broker, c, d, now).1 <==> exists id :: Resolvable(s, c, now, id)
    ensures forall id | Resolvable(s, c, now, id) && id in s.broker.pending ::
      Broker.Resolve(s.broker, c, d, now).0.futures[s.broker.pending[id]] == Future(id, Resolved(d))
  {
    forall id ensures FindClaimed(s.broker.records, c) == Some(id) <==>
                      id in s.broker.records && id in s.issued && Names(c, s.issued[id])
    {
      ClaimedIsFound(s, c, id);
    }
    if Broker.Resolve(s.broker, c, d, now).1 {
      assert Resolvable(s, c, now, FindClaimed(s.broker.records, c).value);
    }
  }

  // Each approval is dispatched at most once in a run, across both paths.
  lemma DispatchedAtMostOnce(states: seq<System>, ops: seq<Op>, i: nat, j: nat, id: ApprovalId)
    requires IsRun(states, ops) && i < j < |ops|
    ensures Dispatches(states[i], ops[i], id) ==> !Dispatches(states[j], ops[j], id)
  {
    RunIsTracked(states, ops);
    if Dispatches(states[i], ops[i], id) && id in states[j].broker.records {
      assert Inv(states[i + 1]);
      IssuedStays(states, ops, i + 1, j, id);
      RecordEvolves(states, ops, i + 1, j, id);
    }
  }

  // Two calls that were both told to go ahead were about different approvals,
  // and so about different bindings unless one was registered twice.
  lemma GoAheadAtMostOnce(states: seq<System>, ops: seq<Op>, i: nat, j: nat)
    returns (a: ApprovalId, b: ApprovalId)
    requires IsRun(states, ops) && i < j < |ops|
    requires GoAhead(states[i], ops[i]) && GoAhead(states[j], ops[j])
    ensures a != b && Dispatches(states[i], ops[i], a) && Dispatches(states[j], ops[j], b)
    ensures ops[i].claim.digest == ops[j].claim.digest ==> a !in states[j].broker.records
  {
    RunInv(states, ops, i);
    RunInv(states, ops, j);
    a := GoAheadIsBound(states[i], ops[i]);
    b := GoAheadIsBound(states[j], ops[j]);
    if a == b {
      DispatchedAtMostOnce(states, ops, i, j, a);
    }
    RunIsTracked(states, ops);
    IssuedStays(states, ops, i, j, a);
    assert !SameDigest(states[j].broker.records, a, b);
  }

  // --- Where an approval comes from ---------------------------------------

  ghost predicate DecidedBefore(states: seq<System>, ops: seq<Op>, k: nat, id: ApprovalId, d: Decision)
    requires k <= |ops| < |states|
  {
    exists i :: 0 <= i < k && Decides(states[i], ops[i], id, d)
  }

  ghost predicate History(states: seq<System>, ops: seq<Op>, k: nat)
    requires k <= |ops| < |states|
  {
    && (forall f | 0 <= f < |states[k].broker.futures| :: var u := states[k].broker.futures[f];
          u.state.Resolved? && u.state.decision.approved ==>
            DecidedBefore(states, ops, k, u.owner, u.state.decision))
    && (forall id <- states[k].broker.records :: var r := states[k].broker.records[id];
          r.decision.Some? && !r.used ==> DecidedBefore(states, ops, k, id, r.decision.value))
  }

  lemma StillDecided(states: seq<System>, ops: seq<Op>, k: nat)
    requires k < |ops| < |states|
    ensures forall id, d | DecidedBefore(states, ops, k, id, d) || Decides(states[k], ops[k], id, d) ::
              DecidedBefore(states, ops, k + 1, id, d)
  {
  }

  lemma HistoryStep(states: seq<System>, ops: seq<Op>, k: nat)
    requires k < |ops| < |states| && History(states, ops, k)
    requires Sourced(states[k], ops[k], states[k + 1])
    ensures History(states, ops, k + 1)
  {
    StillDecided(states, ops, k);
    var s, s' := states[k], states[k + 1];
    forall f | 0 <= f < |s'.broker.futures| && s'.broker.futures[f].state.Resolved?
               && s'.broker.futures[f].state.decision.approved
      ensures DecidedBefore(states, ops, k + 1, s'.broker.futures[f].owner, s'.broker.futures[f].state.decision)
    {
      assert FutureSource(s, ops[k], s', f);
    }
    forall id | id in s'.broker.records && s'.broker.records[id].decision.Some? && !s'.broker.records[id].used
      ensures DecidedBefore(states, ops, k + 1, id, s'.broker.records[id].decision.value)
    {
      assert RecordSource(s, ops[k], s', id);
    }
  }

  lemma {:induction false} TrackedHistory(states: seq<System>, ops: seq<Op>, k: nat)
    requires Tracked(states, ops) && Initial(states[0]) && k < |states|
    ensures History(states, ops, k)
  {
    if k > 0 {
      TrackedHistory(states, ops, k - 1);
      HistoryStep(states, ops, k - 1);
    }
  }

  // Step `op` tells a caller of `wait` decision `d` about approval `id`.
  ghost predicate Observes(s: System, op: Op, id: ApprovalId, d: Decision)
    requires Inv(s) && Enabled(s, op)
  {
    || ((op.WaitWake? || op.WaitTimeout? || op.WaitCancel?)
        && s.broker.futures[s.waiters[op.w].future].owner == id
        && Next(s, op).waiters[op.w].phase == Leaving(Some(d)))
    || (op.WaitEnter? && Find(s.broker.records, op.toolCall, op.digest, None, None) == Some(id)
        && Broker.WaitEnter(s.broker, op.toolCall, op.digest, op.now).1 == Answer(d))
  }

  // A blocked caller is told an approval only by waking to it.
  lemma ApprovalIsWokenTo(s: System, op: Op, id: ApprovalId, d: Decision)
    requires Inv(s) && Enabled(s, op) && Observes(s, op, id, d) && d.approved && !op.WaitEnter?
    ensures op.WaitWake? && s.broker.futures[s.waiters[op.w].future] == Future(id, Resolved(d))
  {
  }

  // `wait` reports approval only of what a resolution or a successful task
  // commit approved, under the bound principal, session and digest, in time.
  lemma WaitApprovedOnlyIfDecided(states: seq<System>, ops: seq<Op>, k: nat, id: ApprovalId, d: Decision)
    requires IsRun(states, ops) && k < |ops|
    requires Inv(states[k]) && Observes(states[k], ops[k], id, d) && d.approved
    ensures DecidedBefore(states, ops, k, id, d)
  {
    RunIsTracked(states, ops);
    TrackedHistory(states, ops, k);
    if !ops[k].WaitEnter? { ApprovalIsWokenTo(states[k], ops[k], id, d); }
  }

  lemma DecidesWrites(s: System, op: Op, id: ApprovalId, d: Decision)
    requires Inv(s) && Enabled(s, op) && Decides(s, op, id, d)
    ensures id in Next(s, op).broker.records && Next(s, op).broker.records[id].decision == Some(d)
  {
    var c := op.claim;
    FindIsTheMatch(s.broker.records, c.toolCall, c.digest, Some(c.principal), Some(c.session), id);
  }

  // A record holds at most one decision in all the states it lives through.
  lemma DecisionsAgree(states: seq<System>, ops: seq<Op>, i: nat, j: nat, id: ApprovalId)
    requires Tracked(states, ops) && i < |states| && j < |states|
    requires id in states[i].broker.records && states[i].broker.records[id].decision.Some?
    requires id in states[j].broker.records && states[j].broker.records[id].decision.Some?
    ensures states[i].broker.records[id].decision == states[j].broker.records[id].decision
  {
    if i <= j { RecordEvolves(states, ops, i, j, id); } else { RecordEvolves(states, ops, j, i, id); }
  }

  // While a record holds a rejection, or after it did, no `wait` reports it
  // approved and no dispatch of it is told to go ahead with an approval.
  lemma RejectionIsFinal(states: seq<System>, ops: seq<Op>, i: nat, k: nat, id: ApprovalId, d: Decision)
    requires IsRun(states, ops) && i < |states| && k < |ops| && id in states[i].broker.records
    requires states[i].broker.records[id].decision.Some? && !states[i].broker.records[id].decision.value.approved
    ensures Inv(states[k])
    ensures Observes(states[k], ops[k], id, d) ==> !d.approved
    ensures Dispatches(states[k], ops[k], id) ==>
              Next(states[k], ops[k]).broker.records[id].decision == states[i].broker.records[id].decision
  {
    RunIsTracked(states, ops);
    if Observes(states[k], ops[k], id, d) && d.approved {
      WaitApprovedOnlyIfDecided(states, ops, k, id, d);
      var n :| 0 <= n < k && Decides(states[n], ops[n], id, d);
      RunInv(states, ops, n);
      DecidesWrites(states[n], ops[n], id, d);
      DecisionsAgree(states, ops, i, n + 1, id);
      assert false;
    }
    if Dispatches(states[k], ops[k], id) {
      RunInv(states, ops, k + 1);
      DecisionsAgree(states, ops, i, k + 1, id);
    }
  }

  // A task commit that consumed approval `id` and then failed.
  ghost predicate FailsCommit(s: System, op: Op, id: ApprovalId)
    requires s.broker.WellFormed() && Enabled(s, op)
  {
    op.TaskCommit? && !op.committed && Dispatches(s, op, id)
  }

  lemma FailedCommitWrites(s: System, op: Op, id: ApprovalId)
    requires Inv(s) && Enabled(s, op) && FailsCommit(s, op, id)
    ensures s.broker.records[id].decision.None?
    ensures Next(s, op).broker.records[id].decision.Some?
  {
  }

  // Around a failed task commit nobody ever observes approval of its record.
  lemma NothingApprovedAroundFailedCommit(
    states: seq<System>, ops: seq<Op>, i: nat, k: nat, id: ApprovalId, d: Decision)
    requires IsRun(states, ops) && i < |ops| && k < |ops| && Inv(states[k])
    requires FailsCommit(states[i], ops[i], id)
    ensures Observes(states[k], ops[k], id, d) ==> !d.approved
    ensures k != i ==> !Dispatches(states[k], ops[k], id)
  {
    RunIsTracked(states, ops);
    if Observes(states[k], ops[k], id, d) && d.approved {
      WaitApprovedOnlyIfDecided(states, ops, k, id, d);
      var n :| 0 <= n < k && Decides(states[n], ops[n], id, d);
      RunInv(states, ops, n);
      RunInv(states, ops, i);
      DecidesWrites(states[n], ops[n], id, d);
      FailedCommitWrites(states[i], ops[i], id);
      WrittenOnce(states, ops, n, i, id);
      assert false;
    }
    if k != i && Dispatches(states[k], ops[k], id) {
      if k < i { DispatchedAtMostOnce(states, ops, k, i, id); } else { DispatchedAtMostOnce(states, ops, i, k, id); }
    }
  }

  ghost predicate Writes(b: Broker.Broker, b': Broker.Broker, id: ApprovalId) {
    && id in b.records && b.records[id].decision.None?
    && id in b'.records && b'.records[id].decision.Some?
  }

  // A decision is written in one step only.
  lemma WrittenOnce(states: seq<System>, ops: seq<Op>, i: nat, j: nat, id: ApprovalId)
    requires Tracked(states, ops) && i < |ops| && j < |ops|
    requires Writes(states[i].broker, states[i + 1].broker, id)
    requires Writes(states[j].broker, states[j + 1].broker, id)
    ensures i == j
  {
    if i < j { NotWrittenAgain(states, ops, i, j, id); }
    if j < i { NotWrittenAgain(states, ops, j, i, id); }
  }

  lemma NotWrittenAgain(states: seq<System>, ops: seq<Op>, i: nat, j: nat, id: ApprovalId)
    requires Tracked(states, ops) && i < j < |ops| && Writes(states[i].broker, states[i + 1].broker, id)
    ensures !Writes(states[j].broker, states[j + 1].broker, id)
  {
    if id in states[j].broker.records {
      RecordEvolves(states, ops, i + 1, j, id);
    }
  }

  // --- Eviction -----------------------------------------------------------

  // Once a sweep has evicted a record, no call is told it is approved, and a
  // waiter still unanswered then is never told so either.
  lemma EvictionEndsApproval(states: seq<System>, ops: seq<Op>, i: nat, k: nat, id: ApprovalId, d: Decision)
    requires IsRun(states, ops) && i < k < |ops|
    requires id in states[i].broker.records && id !in states[i + 1].broker.records
    ensures Inv(states[i]) && Inv(states[k])
    ensures !Dispatches(states[k], ops[k], id)
    ensures ops[k].WaitEnter? ==> !Observes(states[k], ops[k], id, d)
    ensures !ops[k].WaitEnter? && Observes(states[k], ops[k], id, d) && d.approved ==>
              var f := states[k].waiters[ops[k].w].future;
              f < |states[i].broker.futures| && states[i].broker.futures[f] == Future(id, Resolved(d))
  {
    RunIsTracked(states, ops);
    assert id in states[i].issued;
    IssuedStays(states, ops, i, i + 1, id);
    IssuedStays(states, ops, i + 1, k, id);
    if !ops[k].WaitEnter? && Observes(states[k], ops[k], id, d) && d.approved {
      ApprovalIsWokenTo(states[k], ops[k], id, d);
      var f := states[k].waiters[ops[k].w].future;
      EvictedApprovalIsOld(states, ops, i + 1, k, id, f, d);
      assert FutureSource(states[i], ops[i], states[i + 1], f);
      if Decides(states[i], ops[i], id, d) {
        DecidesWrites(states[i], ops[i], id, d);
      }
    }
  }

  // An approved future of an evicted record was approved before the eviction.
  lemma {:induction false} EvictedApprovalIsOld(
    states: seq<System>, ops: seq<Op>, i: nat, k: nat, id: ApprovalId, f: nat, d: Decision)
    requires Tracked(states, ops) && i <= k < |states| && id in states[i].issued && id !in states[i].broker.records
    requires f < |states[k].broker.futures| && states[k].broker.futures[f] == Future(id, Resolved(d)) && d.approved
    ensures f < |states[i].broker.futures| && states[i].broker.futures[f] == Future(id, Resolved(d))
    decreases k
  {
    if i < k {
      IssuedStays(states, ops, i, k - 1, id);
      assert FutureSource(states[k - 1], ops[k - 1], states[k], f);
      EvictedApprovalIsOld(states, ops, i, k - 1, id, f, d);
    }
  }

}

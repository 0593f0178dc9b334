/**
 * When a caller blocked in `wait` can still be reached by a decision or a
 * sweep, and when it cannot.
 */
module ApprovalWaiters {

  import opened Core
  import opened ApprovalState
  import opened ApprovalRuns
  import opened ApprovalInvariants
  import opened ApprovalTheorems
  import Broker = ApprovalState

  // Waiter `w` blocks on a future nobody has resolved or cancelled.
  ghost predicate Blocked(s: System, w: nat) {
    InPhase(s, w, Waiting) && s.broker.futures[s.waiters[w].future].state.Unresolved?
  }

  // Its future is the one pending for a live record, which a decision or a
  // sweep of that record resolves.
  ghost predicate Reachable(s: System, w: nat)
    requires Blocked(s, w)
  {
    var o := s.broker.futures[s.waiters[w].future].owner;
    o in s.broker.records && o in s.broker.pending && s.broker.pending[o] == s.waiters[w].future
  }

  ghost predicate AllReachable(s: System) {
    forall w | Blocked(s, w) :: Reachable(s, w)
  }

  // Another blocked waiter has the digest of `w`.
  ghost predicate Crowded(s: System, w: nat) {
    w in s.waiters && exists v :: v != w && Blocked(s, v) && s.waiters[v].digest == s.waiters[w].digest
  }

  ghost predicate CrowdedFinish(s: System, op: Op) {
    op.WaitFinish? && Crowded(s, op.w)
  }

  // --- One step -----------------------------------------------------------

  // What the last region of `wait` does to a reachable waiter.
  lemma FinishOutcome(s: System, op: Op, u: nat)
    requires Inv(s) && Enabled(s, op) && op.WaitFinish? && u != op.w && Blocked(s, u) && Reachable(s, u)
    ensures Blocked(Next(s, op), u)
    ensures Reachable(Next(s, op), u) <==> s.waiters[u].digest != s.waiters[op.w].digest
  {
    var v := s.waiters[op.w];
    var found := Find(s.broker.records, v.toolCall, v.digest, None, None);
    if found.Some? {
      FindIsTheMatch(s.broker.records, v.toolCall, v.digest, None, None, found.value);
    }
    var o := s.broker.futures[s.waiters[u].future].owner;
    FindIsTheMatch(s.broker.records, v.toolCall, v.digest, None, None, o);
  }

  lemma FinishBlocked(s: System, op: Op, u: nat)
    requires s.broker.WellFormed() && Enabled(s, op) && op.WaitFinish?
    ensures Blocked(Next(s, op), u) <==> u != op.w && Blocked(s, u)
  {
  }

  // The step of a finishing waiter keeps all others reachable exactly when
  // none of them blocks on the same digest.
  lemma FinishKeepsReachable(s: System, op: Op)
    requires Inv(s) && Enabled(s, op) && op.WaitFinish? && AllReachable(s)
    ensures AllReachable(Next(s, op)) <==> !Crowded(s, op.w)
  {
    forall u ensures Blocked(Next(s, op), u) <==> u != op.w && Blocked(s, u) { FinishBlocked(s, op, u); }
    forall u | u != op.w && Blocked(s, u)
      ensures Reachable(Next(s, op), u) <==> s.waiters[u].digest != s.waiters[op.w].digest
    {
      FinishOutcome(s, op, u);
    }
  }

  // Blocked waiters and their futures after a step that changes only the
  // broker, and only locally, without dropping a pending future.
  lemma LocalReachable(s: System, s': System)
    requires Inv(s) && AllReachable(s) && Local(s.broker, s'.broker) && s'.broker.pending == s.broker.pending
    requires forall w | Blocked(s', w) :: w in s.waiters && s'.waiters[w] == s.waiters[w]
    ensures AllReachable(s')
  {
    forall w | Blocked(s', w) ensures Reachable(s', w) {
      var f := s.waiters[w].future;
      assert FutureEvolves(s.broker.futures[f], s'.broker.futures[f]);
      assert Blocked(s, w);
      assert Reachable(s, w);
    }
  }

  lemma EnterReachable(s: System, op: Op)
    requires Inv(s) && Enabled(s, op) && op.WaitEnter? && AllReachable(s)
    ensures AllReachable(Next(s, op))
  {
    var s' := Next(s, op);
    var found := Find(s.broker.records, op.toolCall, op.digest, None, None);
    if found.Some? {
      FindIsTheMatch(s.broker.records, op.toolCall, op.digest, None, None, found.value);
    }
    forall w | Blocked(s', w) ensures Reachable(s', w) {
      if w != op.w {
        assert Blocked(s, w);
        assert Reachable(s, w);
      }
    }
  }

  lemma SweepReachable(s: System, op: Op)
    requires Inv(s) && Enabled(s, op) && op.Sweep? && AllReachable(s)
    ensures AllReachable(Next(s, op))
  {
    var s' := Next(s, op);
    forall w | Blocked(s', w) ensures Reachable(s', w) {
      assert Blocked(s, w);
      assert Reachable(s, w);
    }
  }

  // A sweep that evicts the record of a reachable waiter wakes it with a denial.
  lemma SweepWakes(s: System, op: Op, w: nat)
    requires Inv(s) && Enabled(s, op) && op.Sweep? && Blocked(s, w) && Reachable(s, w)
    ensures var f := s.waiters[w].future;
      if s.broker.futures[f].owner in Next(s, op).broker.records then Blocked(Next(s, op), w)
      else Next(s, op).broker.futures[f].state == Resolved(DENIED)
  {
    var f := s.waiters[w].future;
    var stale := Stale(s.broker.records, op.now, op.ttl);
    if s.broker.futures[f].owner in stale {
      assert WokenBySweep(s.broker, stale, f);
    }
  }

  lemma DecideReachable(s: System, op: Op)
    requires Inv(s) && Enabled(s, op) && AllReachable(s) && (op.Resolve? || op.Dispatch? || op.TaskCommit?)
    ensures AllReachable(Next(s, op))
  {
    DecideIsLocal(s, op);
    LocalReachable(s, Next(s, op));
  }

  lemma LeaveReachable(s: System, op: Op)
    requires Inv(s) && Enabled(s, op) && AllReachable(s)
    requires op.WaitWake? || op.WaitTimeout? || op.WaitCancel? || op.WaitAbandon?
    ensures AllReachable(Next(s, op))
  {
    if op.WaitTimeout? {
      TimeoutIsLocal(s, s.waiters[op.w].toolCall, s.waiters[op.w].digest);
    } else if op.WaitCancel? && s.broker.futures[s.waiters[op.w].future].state.Unresolved? {
      UnchangedIsLocal(s);
      CancelIsLocal(s, s.waiters[op.w].future);
    } else {
      UnchangedIsLocal(s);
    }
    PhaseReachable(s, Next(s, op).broker, op.w, Next(s, op).waiters[op.w].phase);
  }

  lemma PhaseReachable(s: System, b': Broker.Broker, w: nat, p: Phase)
    requires Inv(s) && AllReachable(s) && Local(s.broker, b') && b'.pending == s.broker.pending
    requires w in s.waiters && p != Waiting
    ensures AllReachable(SetPhase(s.(broker := b'), w, p))
  {
    LocalReachable(s, SetPhase(s.(broker := b'), w, p));
  }

  lemma RegisterReachable(s: System, op: Op)
    requires Inv(s) && Enabled(s, op) && op.Register? && AllReachable(s)
    ensures AllReachable(Next(s, op))
  {
    var s' := Next(s, op);
    forall w | Blocked(s', w) ensures Reachable(s', w) {
      assert Blocked(s, w);
      assert Reachable(s, w);
    }
  }

  lemma StepReachable(s: System, op: Op)
    requires Inv(s) && Enabled(s, op) && AllReachable(s)
    ensures AllReachable(Next(s, op)) <==> !CrowdedFinish(s, op)
  {
    match op
    case WaitFinish(_) => FinishKeepsReachable(s, op);
    case Register(_, _, _, _) => RegisterReachable(s, op);
    case WaitEnter(_, _, _, _, _) => EnterReachable(s, op);
    case Sweep(_, _) => SweepReachable(s, op);
    case Resolve(_, _, _) => DecideReachable(s, op);
    case Dispatch(_, _, _) => DecideReachable(s, op);
    case TaskCommit(_, _, _, _) => DecideReachable(s, op);
    case _ => LeaveReachable(s, op);
  }

  // --- Whole runs ---------------------------------------------------------

  ghost predicate ReachableThrough(states: seq<System>, k: nat)
    requires k < |states|
  {
    forall i | 0 <= i <= k :: AllReachable(states[i])
  }

  ghost predicate NeverCrowded(states: seq<System>, ops: seq<Op>, k: nat)
    requires k <= |ops| < |states|
  {
    forall i | 0 <= i < k :: !CrowdedFinish(states[i], ops[i])
  }

  // Every blocked waiter is reachable in every state up to `k` exactly when no
  // waiter finished before `k` while another one blocked on its digest.
  lemma {:induction false} ReachableIffNeverCrowded(states: seq<System>, ops: seq<Op>, k: nat)
    requires IsRun(states, ops) && k < |states|
    ensures ReachableThrough(states, k) <==> NeverCrowded(states, ops, k)
  {
    if k > 0 {
      var s, op := states[k - 1], ops[k - 1];
      ReachableIffNeverCrowded(states, ops, k - 1);
      RunInv(states, ops, k - 1);
      assert ReachableThrough(states, k) <==> ReachableThrough(states, k - 1) && AllReachable(states[k]);
      assert NeverCrowded(states, ops, k) <==> NeverCrowded(states, ops, k - 1) && !CrowdedFinish(s, op);
      if ReachableThrough(states, k - 1) {
        StepReachable(s, op);
      }
    }
  }

  // The discipline of one waiter at a time per digest.
  ghost predicate OneWaiterPerDigest(s: System) {
    forall v, w | v in s.waiters && w in s.waiters && s.waiters[v].digest == s.waiters[w].digest
                  && s.waiters[v].phase != Gone && s.waiters[w].phase != Gone :: v == w
  }

  ghost predicate EntersAlone(s: System, op: Op) {
    op.WaitEnter? ==> forall v | v in s.waiters && s.waiters[v].digest == op.digest :: s.waiters[v].phase == Gone
  }

  lemma OneWaiterStep(s: System, op: Op)
    requires Inv(s) && Enabled(s, op) && OneWaiterPerDigest(s) && EntersAlone(s, op)
    ensures OneWaiterPerDigest(Next(s, op)) && !CrowdedFinish(s, op)
  {
    var s' := Next(s, op);
    WaitersAfter(s, op);
    forall v, w | v in s'.waiters && w in s'.waiters && s'.waiters[v].digest == s'.waiters[w].digest
                  && s'.waiters[v].phase != Gone && s'.waiters[w].phase != Gone
      ensures v == w
    {
    }
  }

  lemma WaitersAfter(s: System, op: Op)
    requires s.broker.WellFormed() && Enabled(s, op)
    ensures s.waiters.Keys <= Next(s, op).waiters.Keys
    ensures var s' := Next(s, op);
      forall w <- s'.waiters ::
        if w in s.waiters
        then s'.waiters[w] == s.waiters[w].(phase := s'.waiters[w].phase)
             && (s.waiters[w].phase == Gone ==> s'.waiters[w].phase == Gone)
        else op.WaitEnter? && w == op.w && s'.waiters[w].digest == op.digest
  {
  }

  // If a digest is waited on by one caller at a time, nobody is left behind.
  lemma {:induction false} LoneWaitersAreReachable(states: seq<System>, ops: seq<Op>, k: nat)
    requires IsRun(states, ops) && k < |states|
    requires forall i | 0 <= i < |ops| :: EntersAlone(states[i], ops[i])
    ensures OneWaiterPerDigest(states[k]) && AllReachable(states[k])
  {
    if k > 0 {
      LoneWaitersAreReachable(states, ops, k - 1);
      RunInv(states, ops, k - 1);
      assert EntersAlone(states[k - 1], ops[k - 1]);
      OneWaiterStep(states[k - 1], ops[k - 1]);
      StepReachable(states[k - 1], ops[k - 1]);
    }
  }

  // --- Stranded waiters ---------------------------------------------------

  // No record's pending future is `f`.
  ghost predicate Detached(b: Broker.Broker, f: nat) {
    f < |b.futures| && !b.futures[f].state.Resolved? && forall id <- b.pending :: b.pending[id] != f
  }

  lemma DetachedStep(s: System, op: Op, f: nat)
    requires s.broker.WellFormed() && Enabled(s, op) && Detached(s.broker, f)
    ensures Detached(Next(s, op).broker, f)
  {
    match op
    case Register(x, now, created, id) => RegisterDetached(s.broker, x, now, created, id, f);
    case WaitEnter(_, toolCall, digest, _, now) => EnterDetached(s.broker, toolCall, digest, now, f);
    case WaitTimeout(w) => LeaveDetached(s.broker, s.waiters[w].toolCall, s.waiters[w].digest, f);
    case WaitFinish(w) => LeaveDetached(s.broker, s.waiters[w].toolCall, s.waiters[w].digest, f);
    case Resolve(c, d, now) => ResolveDetached(s.broker, c, d, now, f);
    case Dispatch(c, d, now) => DispatchDetached(s.broker, c, d, now, f);
    case TaskCommit(c, a, ok, now) => CommitDetached(s.broker, c, a, ok, now, f);
    case Sweep(now, ttl) => SweepDetached(s.broker, now, ttl, f);
    case _ =>
  }

  lemma RegisterDetached(b: Broker.Broker, x: Binding, now: real, created: real, id: ApprovalId, f: nat)
    requires Detached(b, f)
    ensures Detached(Broker.Register(b, x, now, created, id).0, f)
  {
  }

  lemma EnterDetached(b: Broker.Broker, toolCall: string, digest: Digest, now: real, f: nat)
    requires Detached(b, f)
    ensures Detached(Broker.WaitEnter(b, toolCall, digest, now).0, f)
  {
  }

  lemma LeaveDetached(b: Broker.Broker, toolCall: string, digest: Digest, f: nat)
    requires Detached(b, f)
    ensures Detached(Broker.WaitTimeout(b, toolCall, digest), f)
    ensures Detached(Broker.WaitFinish(b, toolCall, digest), f)
  {
  }

  lemma ResolveDetached(b: Broker.Broker, c: Claim, d: Decision, now: real, f: nat)
    requires b.WellFormed() && Detached(b, f)
    ensures Detached(Broker.Resolve(b, c, d, now).0, f)
  {
  }

  lemma DispatchDetached(b: Broker.Broker, c: Claim, d: Decision, now: real, f: nat)
    requires Detached(b, f)
    ensures Detached(Broker.Dispatch(b, c, d, now).0, f)
  {
  }

  lemma CommitDetached(b: Broker.Broker, c: Claim, approved: bool, committed: bool, now: real, f: nat)
    requires b.WellFormed() && Detached(b, f)
    ensures Detached(Broker.TaskCommit(b, c, approved, committed, now).0, f)
  {
  }

  lemma SweepDetached(b: Broker.Broker, now: real, ttl: real, f: nat)
    requires Detached(b, f)
    ensures Detached(Broker.Sweep(b, now, ttl), f)
  {
  }

  // A detached future never carries a decision again: its waiters end only by
  // a timeout or a cancellation.
  lemma {:induction false} DetachedForever(states: seq<System>, ops: seq<Op>, i: nat, k: nat, f: nat)
    requires IsRun(states, ops) && i <= k < |states| && Detached(states[i].broker, f)
    ensures Detached(states[k].broker, f)
    decreases k
  {
    if i < k {
      DetachedForever(states, ops, i, k - 1, f);
      DetachedStep(states[k - 1], ops[k - 1], f);
    }
  }

  // --- A run that strands a waiter ----------------------------------------

  ghost predicate Steps(s: System, op: Op, s': System) {
    s.broker.WellFormed() && Enabled(s, op) && s' == Next(s, op)
  }

  // The state with one record `r`, its pending future and some waiters.
  function One(r: Record, pending: map<ApprovalId, nat>, futures: seq<Future>, waiters: map<nat, Waiter>): System {
    System(Broker.Broker(map[r.id := r], pending, futures, 128, 16), waiters, map[r.id := r.binding], 0.0)
  }

  function Caller(x: Binding, timed: bool, phase: Phase): Waiter {
    Waiter(x.toolCall, Sha256(x), 0, timed, phase)
  }

  const ID := "approval"

  function Nothing(): System {
    System(Broker.Broker(map[], map[], [], 128, 16), map[], map[], 0.0)
  }

  function Open(): seq<Future> { [Future(ID, Unresolved)] }

  lemma OneIsFound(r: Record)
    requires r.digest == Sha256(r.binding)
    ensures Find(map[r.id := r], r.binding.toolCall, r.digest, None, None) == Some(r.id)
  {
    FindIsTheMatch(map[r.id := r], r.binding.toolCall, r.digest, None, None, r.id);
  }

  lemma OneRegistered(x: Binding)
    ensures Steps(Nothing(), Register(x, 0.0, 0.0, ID), One(NewRecord(ID, x, 0.0), map[], [], map[]))
  {
    var none: map<ApprovalId, Record> := map[];
    assert WithDigest(none, Sha256(x)) == {};
    assert ActiveInSession(none, 0.0, x.principal, x.session) == {};
    assert ActiveInTurn(none, 0.0, x.principal, x.session, x.turn) == {};
  }

  lemma FirstEnters(x: Binding)
    requires x.expiresAt > 0.0
    ensures var r := NewRecord(ID, x, 0.0);
      Steps(One(r, map[], [], map[]), WaitEnter(0, x.toolCall, Sha256(x), true, 0.0),
            One(r, map[ID := 0], Open(), map[0 := Caller(x, true, Waiting)]))
  {
    OneIsFound(NewRecord(ID, x, 0.0));
  }

  lemma SecondEnters(x: Binding)
    requires x.expiresAt > 0.0
    ensures var r := NewRecord(ID, x, 0.0);
      Steps(One(r, map[ID := 0], Open(), map[0 := Caller(x, true, Waiting)]),
            WaitEnter(1, x.toolCall, Sha256(x), false, 0.0),
            One(r, map[ID := 0], Open(), map[0 := Caller(x, true, Waiting), 1 := Caller(x, false, Waiting)]))
  {
    OneIsFound(NewRecord(ID, x, 0.0));
  }

  lemma FirstTimesOut(x: Binding)
    ensures var r := NewRecord(ID, x, 0.0);
      Steps(One(r, map[ID := 0], Open(), map[0 := Caller(x, true, Waiting), 1 := Caller(x, false, Waiting)]),
            WaitTimeout(0),
            One(r.(used := true), map[ID := 0], Open(),
                map[0 := Caller(x, true, Leaving(Some(DENIED))), 1 := Caller(x, false, Waiting)]))
  {
    OneIsFound(NewRecord(ID, x, 0.0));
  }

  lemma FirstFinishes(x: Binding)
    ensures var r := NewRecord(ID, x, 0.0).(used := true);
      Steps(One(r, map[ID := 0], Open(), map[0 := Caller(x, true, Leaving(Some(DENIED))), 1 := Caller(x, false, Waiting)]),
            WaitFinish(0),
            One(r, map[], Open(), map[0 := Caller(x, true, Gone), 1 := Caller(x, false, Waiting)]))
  {
    OneIsFound(NewRecord(ID, x, 0.0).(used := true));
  }

  lemma SweepEvicts(x: Binding) returns (s: System)
    ensures var r := NewRecord(ID, x, 0.0).(used := true);
      Steps(One(r, map[], Open(), map[0 := Caller(x, true, Gone), 1 := Caller(x, false, Waiting)]), Sweep(0.0, 3600.0), s)
    ensures s.broker.futures == Open() && s.broker.pending == map[] && 1 in s.waiters && s.waiters[1] == Caller(x, false, Waiting)
    ensures s.broker.records == map[]
  {
    var r := NewRecord(ID, x, 0.0).(used := true);
    s := Next(One(r, map[], Open(), map[0 := Caller(x, true, Gone), 1 := Caller(x, false, Waiting)]), Sweep(0.0, 3600.0));
  }

  // It does happen: two callers wait on one approval, the first times out and
  // takes the pending future away, the sweep evicts the record, and the second
  // caller, which passed no timeout, blocks on a future nothing can resolve.
  lemma StrandedWaiter(x: Binding) returns (states: seq<System>, ops: seq<Op>)
    requires x.expiresAt > 0.0
    ensures IsRun(states, ops) && |states| == 7
    ensures Blocked(states[6], 1) && !states[6].waiters[1].timed && !Reachable(states[6], 1)
    ensures Detached(states[6].broker, states[6].waiters[1].future)
  {
    OneRegistered(x);
    FirstEnters(x);
    SecondEnters(x);
    FirstTimesOut(x);
    FirstFinishes(x);
    var last := SweepEvicts(x);
    var r := NewRecord(ID, x, 0.0);
    var waiting := map[0 := Caller(x, true, Waiting), 1 := Caller(x, false, Waiting)];
    var leaving := map[0 := Caller(x, true, Leaving(Some(DENIED))), 1 := Caller(x, false, Waiting)];
    var gone := map[0 := Caller(x, true, Gone), 1 := Caller(x, false, Waiting)];
    states := [Nothing(), One(r, map[], [], map[]), One(r, map[ID := 0], Open(), map[0 := Caller(x, true, Waiting)]),
               One(r, map[ID := 0], Open(), waiting), One(r.(used := true), map[ID := 0], Open(), leaving),
               One(r.(used := true), map[], Open(), gone), last];
    ops := [Register(x, 0.0, 0.0, ID), WaitEnter(0, x.toolCall, Sha256(x), true, 0.0),
            WaitEnter(1, x.toolCall, Sha256(x), false, 0.0), WaitTimeout(0), WaitFinish(0), Sweep(0.0, 3600.0)];
    RunOfSteps(states, ops);
  }

  lemma RunOfSteps(states: seq<System>, ops: seq<Op>)
    requires |states| == |ops| + 1 && Initial(states[0])
    requires forall i | 0 <= i < |ops| :: Steps(states[i], ops[i], states[i + 1])
    ensures IsRun(states, ops)
  {
    forall i | 0 <= i < |ops|
      ensures states[i].broker.WellFormed() && Enabled(states[i], ops[i]) && states[i + 1] == Next(states[i], ops[i])
    {
      assert Steps(states[i], ops[i], states[i + 1]);
    }
  }

}

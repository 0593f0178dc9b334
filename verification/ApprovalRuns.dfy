/**
 * Runs of the approval broker: any interleaving of registrations, waits,
 * resolutions, dispatches, task commits and sweeps, with every lock-held
 * region one step and the gap inside `wait` open to all other steps.
 */
module ApprovalRuns {

  import opened Core
  import opened ApprovalState
  import Broker = ApprovalState

  // --- Runs ---------------------------------------------------------------

  // A call of `wait` that did not answer at once. `Leaving` has its outcome
  // but has not run the last region; no outcome means it raised. A call
  // cancelled while it queues for the last region never runs it (WaitAbandon).
  datatype Phase = Waiting | Leaving(outcome: Option<Decision>) | Gone
  datatype Waiter = Waiter(
    toolCall: string, digest: Digest, future: nat, timed: bool, phase: Phase)

  // `issued` remembers every registration ever made.
  datatype System = System(
    broker: Broker.Broker, waiters: map<nat, Waiter>,
    issued: map<ApprovalId, Binding>, clock: real)

  datatype Op =
    | Register(binding: Binding, now: real, created: real, id: ApprovalId)
    | WaitEnter(w: nat, toolCall: string, digest: Digest, timed: bool, now: real)
    | WaitWake(w: nat)
    | WaitTimeout(w: nat)
    | WaitCancel(w: nat)
    | WaitFinish(w: nat)
    | WaitAbandon(w: nat)
    | Resolve(claim: Claim, decision: Decision, now: real)
    | Dispatch(claim: Claim, decision: Decision, now: real)
    | TaskCommit(claim: Claim, approved: bool, committed: bool, now: real)
    | Sweep(now: real, ttl: real)

  // The clock does not run backwards, except that a sweep reads it before it
  // has the lock. Identities are new when the server makes them up.
  ghost predicate Enabled(s: System, op: Op) {
    match op
    case Register(_, now, created, id) => s.clock <= now <= created && id !in s.issued
    case WaitEnter(w, _, _, _, now) => s.clock <= now && w !in s.waiters
    case WaitWake(w) => InPhase(s, w, Waiting) && !s.broker.futures[s.waiters[w].future].state.Unresolved?
    case WaitTimeout(w) => InPhase(s, w, Waiting) && s.waiters[w].timed
    case WaitCancel(w) => InPhase(s, w, Waiting)
    case WaitFinish(w) => w in s.waiters && s.waiters[w].phase.Leaving?
    case WaitAbandon(w) => w in s.waiters && s.waiters[w].phase.Leaving?
    case Resolve(_, _, now) => s.clock <= now
    case Dispatch(_, _, now) => s.clock <= now
    case TaskCommit(_, _, _, now) => s.clock <= now
    case Sweep(_, _) => true
  }

  ghost predicate InPhase(s: System, w: nat, p: Phase) {
    w in s.waiters && s.waiters[w].phase == p && s.waiters[w].future < |s.broker.futures|
  }

  function SetPhase(s: System, w: nat, p: Phase): System
    requires w in s.waiters
  {
    s.(waiters := s.waiters[w := s.waiters[w].(phase := p)])
  }

  ghost function Next(s: System, op: Op): System
    requires s.broker.WellFormed() && Enabled(s, op)
  {
    match op
    case Register(x, now, created, id) =>
      var (b, answer) := Broker.Register(s.broker, x, now, created, id);
      s.(broker := b, clock := created,
         issued := if answer == Some(id) then s.issued[id := x] else s.issued)
    case WaitEnter(w, toolCall, digest, timed, now) =>
      var (b, e) := Broker.WaitEnter(s.broker, toolCall, digest, now);
      s.(broker := b, clock := now,
         waiters := if e.Await?
           then s.waiters[w := Waiter(toolCall, digest, e.future, timed, Waiting)]
           else s.waiters)
    case WaitWake(w) =>
      var f := s.broker.futures[s.waiters[w].future].state;
      SetPhase(s, w, Leaving(if f.Resolved? then Some(f.decision) else None))
    case WaitTimeout(w) =>
      SetPhase(s.(broker := Broker.WaitTimeout(s.broker, s.waiters[w].toolCall, s.waiters[w].digest)),
               w, Leaving(Some(DENIED)))
    case WaitCancel(w) =>
      // Without a timeout the future is awaited unshielded and is cancelled too.
      var f := s.waiters[w].future;
      var cancelled := !s.waiters[w].timed && s.broker.futures[f].state.Unresolved?;
      SetPhase(
        if cancelled
        then s.(broker := s.broker.(futures := s.broker.futures[f := s.broker.futures[f].(state := Cancelled)]))
        else s,
        w, Leaving(None))
    case WaitFinish(w) =>
      SetPhase(s.(broker := Broker.WaitFinish(s.broker, s.waiters[w].toolCall, s.waiters[w].digest)), w, Gone)
    case WaitAbandon(w) => SetPhase(s, w, Gone)
    case Resolve(c, d, now) => s.(broker := Broker.Resolve(s.broker, c, d, now).0, clock := now)
    case Dispatch(c, d, now) => s.(broker := Broker.Dispatch(s.broker, c, d, now).0, clock := now)
    case TaskCommit(c, a, ok, now) => s.(broker := Broker.TaskCommit(s.broker, c, a, ok, now).0, clock := now)
    case Sweep(now, ttl) => s.(broker := Broker.Sweep(s.broker, now, ttl))
  }

  ghost predicate Initial(s: System) {
    && s.broker.records == map[] && s.broker.pending == map[] && s.broker.futures == []
    && s.waiters == map[] && s.issued == map[]
    && s.broker.maxPerSession > 0 && s.broker.maxPerTurn > 0
  }

  ghost predicate IsRun(states: seq<System>, ops: seq<Op>) {
    && |states| == |ops| + 1
    && Initial(states[0])
    && forall i | 0 <= i < |ops| ::
         states[i].broker.WellFormed() && Enabled(states[i], ops[i]) && states[i + 1] == Next(states[i], ops[i])
  }

  // --- The invariant ------------------------------------------------------

  ghost predicate RecordsOk(s: System) {
    forall id <- s.broker.records :: var r := s.broker.records[id];
      && r.id == id && r.digest == Sha256(r.binding)
      && id in s.issued && s.issued[id] == r.binding
      && (r.dispatched ==> r.used && r.decision.Some?)
  }

  // No two live records have the same digest.
  ghost predicate DistinctDigests(records: map<ApprovalId, Record>) {
    forall i, j :: SameDigest(records, i, j) ==> i == j
  }

  ghost predicate SameDigest(records: map<ApprovalId, Record>, i: ApprovalId, j: ApprovalId) {
    i in records && j in records && records[i].digest == records[j].digest
  }

  // Every pending future belongs to a live record.
  ghost predicate PendingOk(b: Broker.Broker) {
    forall id <- b.pending ::
      id in b.records && b.pending[id] < |b.futures| && b.futures[b.pending[id]].owner == id
  }

  // A live record's resolved future carries the record's decision.
  ghost predicate FuturesOk(s: System) {
    forall f | 0 <= f < |s.broker.futures| :: var u := s.broker.futures[f];
      && u.owner in s.issued
      && (u.state.Resolved? && u.owner in s.broker.records ==>
            s.broker.records[u.owner].decision == Some(u.state.decision))
  }

  ghost predicate WaitersOk(s: System) {
    forall w <- s.waiters :: WaiterOk(s, s.waiters[w])
  }

  ghost predicate WaiterOk(s: System, v: Waiter) {
    && v.future < |s.broker.futures|
    && s.broker.futures[v.future].owner in s.issued
    && v.digest == Sha256(s.issued[s.broker.futures[v.future].owner])
    && v.toolCall == s.issued[s.broker.futures[v.future].owner].toolCall
  }

  ghost predicate WithinQuotas(s: System) {
    && (forall t: real, p, q | s.clock <= t :: |ActiveInSession(s.broker.records, t, p, q)| <= s.broker.maxPerSession)
    && (forall t: real, p, q, n | s.clock <= t :: |ActiveInTurn(s.broker.records, t, p, q, n)| <= s.broker.maxPerTurn)
  }

  ghost predicate Inv(s: System) {
    RecordsOk(s) && DistinctDigests(s.broker.records) && PendingOk(s.broker) && FuturesOk(s) && WaitersOk(s)
  }

}

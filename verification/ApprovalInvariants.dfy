/**
 * What every step of the approval broker keeps.
 */
module ApprovalInvariants {

  import opened Core
  import opened ApprovalState
  import opened ApprovalRuns
  import Broker = ApprovalState

  // --- Lookup -------------------------------------------------------------

  // With distinct digests the "exactly one match" scan finds the intended
  // record whenever it exists, and nothing else.
  lemma FindIsTheMatch(records: map<ApprovalId, Record>, toolCall: string, digest: Digest,
                       principal: Option<string>, session: Option<string>, id: ApprovalId)
    requires DistinctDigests(records)
    ensures Find(records, toolCall, digest, principal, session) == Some(id) <==>
            id in records && Matches(records[id], toolCall, digest, principal, session)
  {
    var ids := Matching(records, toolCall, digest, principal, session);
    if id in ids {
      forall other <- ids ensures other == id {
        assert SameDigest(records, other, id);
      }
      assert ids == {id};
    }
  }

  lemma DigestsStayDistinct(m: map<ApprovalId, Record>, m': map<ApprovalId, Record>)
    requires DistinctDigests(m)
    requires forall id <- m' :: id in m && m'[id].digest == m[id].digest
    ensures DistinctDigests(m')
  {
    forall i, j | SameDigest(m', i, j) ensures i == j {
      assert SameDigest(m, i, j);
    }
  }

  // --- One step -----------------------------------------------------------

  // What a record may turn into: flags only go up, a decision never changes.
  ghost predicate Evolves(r: Record, r': Record) {
    && r'.id == r.id && r'.binding == r.binding && r'.digest == r.digest && r'.createdAt == r.createdAt
    && (r.used ==> r'.used) && (r.dispatched ==> r'.dispatched)
    && (r.decision.Some? ==> r'.decision == r.decision)
  }

  ghost predicate FutureEvolves(f: Future, f': Future) {
    f'.owner == f.owner && (f.state.Unresolved? || f' == f)
  }

  ghost predicate StepOk(s: System, s': System) {
    var b, b' := s.broker, s'.broker;
    && (forall id | id in b.records && id in b'.records :: Evolves(b.records[id], b'.records[id]))
    && (forall id <- b'.records :: id in b.records || id !in s.issued)
    && s.issued.Keys <= s'.issued.Keys
    && (forall id <- s.issued :: s'.issued[id] == s.issued[id])
    && |b.futures| <= |b'.futures|
    && (forall f | 0 <= f < |b.futures| :: FutureEvolves(b.futures[f], b'.futures[f]))
    && b'.maxPerSession == b.maxPerSession && b'.maxPerTurn == b.maxPerTurn
    && s.clock <= s'.clock
  }

  // A region that adds and removes no record and opens no future.
  ghost predicate Local(b: Broker.Broker, b': Broker.Broker) {
    && LocalRecords(b.records, b'.records)
    && (forall id <- b'.pending :: id in b.pending && b'.pending[id] == b.pending[id])
    && LocalFutures(b.futures, b'.futures, b'.records)
    && b'.maxPerSession == b.maxPerSession && b'.maxPerTurn == b.maxPerTurn
  }

  ghost predicate LocalRecords(m: map<ApprovalId, Record>, m': map<ApprovalId, Record>) {
    && m'.Keys == m.Keys
    && (forall id <- m :: Evolves(m[id], m'[id]))
    && (forall id <- m :: m'[id].dispatched ==> m'[id].used && m'[id].decision.Some?)
  }

  ghost predicate LocalFutures(fs: seq<Future>, fs': seq<Future>, m': map<ApprovalId, Record>) {
    && |fs'| == |fs|
    && (forall f | 0 <= f < |fs| :: FutureEvolves(fs[f], fs'[f]))
    && (forall f | 0 <= f < |fs| :: Agrees(fs'[f], m'))
  }

  // A resolved future carries the decision of its owner, if the owner is live.
  ghost predicate Agrees(f: Future, m: map<ApprovalId, Record>) {
    f.state.Resolved? && f.owner in m ==> m[f.owner].decision == Some(f.state.decision)
  }

  lemma LocalKeeps(s: System, op: Op, s': System)
    requires Inv(s) && Local(s.broker, s'.broker)
    requires s'.issued == s.issued && s.clock <= s'.clock
    requires s'.waiters.Keys == s.waiters.Keys
    requires forall w <- s.waiters :: s'.waiters[w] == s.waiters[w].(phase := s'.waiters[w].phase)
    ensures Inv(s') && StepOk(s, s')
  {
    var b, b' := s.broker, s'.broker;
    assert RecordsOk(s') by {
      forall id <- b'.records ensures Evolves(b.records[id], b'.records[id]) {}
    }
    assert DistinctDigests(b'.records) by {
      forall id <- b'.records ensures Evolves(b.records[id], b'.records[id]) {}
      DigestsStayDistinct(b.records, b'.records);
    }
    assert FuturesOk(s') by {
      forall f | 0 <= f < |b'.futures|
        ensures b'.futures[f].owner == b.futures[f].owner && Agrees(b'.futures[f], b'.records) {
        assert FutureEvolves(b.futures[f], b'.futures[f]);
      }
    }
    assert WaitersOk(s') by {
      forall f | 0 <= f < |b'.futures| ensures b'.futures[f].owner == b.futures[f].owner {
        assert FutureEvolves(b.futures[f], b'.futures[f]);
      }
    }
    assert PendingOk(b') by {
      forall f | 0 <= f < |b'.futures| ensures b'.futures[f].owner == b.futures[f].owner {
        assert FutureEvolves(b.futures[f], b'.futures[f]);
      }
    }
  }

  lemma RegisterKeeps(s: System, op: Op)
    requires Inv(s) && op.Register? && Enabled(s, op)
    ensures Inv(Next(s, op)) && StepOk(s, Next(s, op))
  {
    if WithDigest(s.broker.records, Sha256(op.binding)) == {} && !OverQuota(s.broker, op.binding, op.now) {
      forall id <- s.broker.records ensures s.broker.records[id].digest != Sha256(op.binding) {
        assert id !in WithDigest(s.broker.records, Sha256(op.binding));
      }
      AddKeeps(s, op, Next(s, op));
    } else {
      assert Next(s, op).broker == s.broker;
      UnchangedIsLocal(s);
      RefusedIssuesNothing(s, op);
      LocalKeeps(s, op, Next(s, op));
    }
  }

  lemma RefusedIssuesNothing(s: System, op: Op)
    requires Inv(s) && op.Register? && Enabled(s, op)
    requires WithDigest(s.broker.records, Sha256(op.binding)) != {} || OverQuota(s.broker, op.binding, op.now)
    ensures Next(s, op).issued == s.issued
  {
  }

  // A record added under a new identity and a new digest.
  ghost predicate Adds(s: System, op: Op, s': System) {
    && op.Register? && op.id !in s.issued
    && s' == s.(
         broker := s.broker.(records := s.broker.records[op.id := NewRecord(op.id, op.binding, op.created)]),
         clock := op.created, issued := s.issued[op.id := op.binding])
  }

  lemma AddKeepsRecords(s: System, op: Op, s': System)
    requires Adds(s, op, s') && RecordsOk(s)
    ensures RecordsOk(s') && op.id !in s.broker.records
  {
  }

  lemma AddKeepsFutures(s: System, op: Op, s': System)
    requires Adds(s, op, s') && FuturesOk(s)
    ensures FuturesOk(s')
  {
  }

  lemma AddKeepsWaiters(s: System, op: Op, s': System)
    requires Adds(s, op, s') && WaitersOk(s)
    ensures WaitersOk(s')
  {
    forall w <- s'.waiters ensures WaiterOk(s', s'.waiters[w]) {
      assert WaiterOk(s, s.waiters[w]);
    }
  }

  lemma AddIsStep(s: System, op: Op, s': System)
    requires Adds(s, op, s') && op.id !in s.broker.records && s.clock <= op.created
    ensures StepOk(s, s')
  {
  }

  lemma AddKeeps(s: System, op: Op, s': System)
    requires Inv(s) && Adds(s, op, s') && s.clock <= op.created
    requires forall id <- s.broker.records :: s.broker.records[id].digest != Sha256(op.binding)
    ensures Inv(s') && StepOk(s, s')
  {
    AddKeepsRecords(s, op, s');
    AddKeepsFutures(s, op, s');
    AddKeepsWaiters(s, op, s');
    AddIsStep(s, op, s');
    DigestAdded(s.broker.records, s'.broker.records, op.id);
  }

  lemma DigestAdded(m: map<ApprovalId, Record>, m': map<ApprovalId, Record>, id: ApprovalId)
    requires DistinctDigests(m) && id in m' && m' == m[id := m'[id]]
    requires forall other <- m :: m[other].digest != m'[id].digest
    ensures DistinctDigests(m')
  {
    forall i, j | SameDigest(m', i, j) ensures i == j {
      assert i != id && j != id ==> SameDigest(m, i, j);
    }
  }

  // Futures that do not change still agree with records that kept their decisions.
  lemma SameFuturesAgree(s: System, m': map<ApprovalId, Record>)
    requires Inv(s) && LocalRecords(s.broker.records, m')
    ensures LocalFutures(s.broker.futures, s.broker.futures, m')
  {
    forall f | 0 <= f < |s.broker.futures| ensures Agrees(s.broker.futures[f], m') {
      var u := s.broker.futures[f];
      if u.owner in m' {
        assert Evolves(s.broker.records[u.owner], m'[u.owner]);
      }
    }
  }

  lemma MarkUsedIsLocal(s: System, id: ApprovalId)
    requires Inv(s) && id in s.broker.records
    ensures Local(s.broker, MarkUsed(s.broker, id))
  {
    SameFuturesAgree(s, MarkUsed(s.broker, id).records);
  }

  lemma UnchangedIsLocal(s: System)
    requires Inv(s)
    ensures Local(s.broker, s.broker)
  {
    SameFuturesAgree(s, s.broker.records);
  }

  lemma WaiterAdded(s: System, s': System, w: nat, v: Waiter)
    requires WaitersOk(s) && s.broker.futures <= s'.broker.futures && s'.issued == s.issued
    requires s'.waiters == s.waiters[w := v] && WaiterOk(s', v)
    ensures WaitersOk(s')
  {
  }

  lemma FutureOpened(b: Broker.Broker, b': Broker.Broker, id: ApprovalId)
    requires PendingOk(b) && id in b.records
    requires b' == b.(futures := b.futures + [Future(id, Unresolved)], pending := b.pending[id := |b.futures|])
    ensures PendingOk(b') && b.futures <= b'.futures && b'.futures[|b.futures|].owner == id
    ensures forall f | 0 <= f < |b.futures| :: FutureEvolves(b.futures[f], b'.futures[f])
  {
  }

  // The future a `wait` opens for a record without one.
  lemma OpenKeeps(s: System, op: Op, id: ApprovalId, s': System)
    requires Inv(s) && op.WaitEnter? && op.w !in s.waiters && s.clock <= s'.clock
    requires id in s.broker.records && Matches(s.broker.records[id], op.toolCall, op.digest, None, None)
    requires var n := |s.broker.futures|;
      s' == s.(clock := s'.clock,
               broker := s.broker.(futures := s.broker.futures + [Future(id, Unresolved)],
                                   pending := s.broker.pending[id := n]),
               waiters := s.waiters[op.w := Waiter(op.toolCall, op.digest, n, op.timed, Waiting)])
    ensures Inv(s') && StepOk(s, s')
  {
    FutureOpened(s.broker, s'.broker, id);
    WaiterAdded(s, s', op.w, s'.waiters[op.w]);
  }

  // A `wait` that joins the future already pending.
  lemma JoinKeeps(s: System, op: Op, id: ApprovalId, s': System)
    requires Inv(s) && op.WaitEnter? && op.w !in s.waiters && s.clock <= s'.clock
    requires id in s.broker.pending && Matches(s.broker.records[id], op.toolCall, op.digest, None, None)
    requires s' == s.(clock := s'.clock, waiters := s.waiters[op.w :=
                        Waiter(op.toolCall, op.digest, s.broker.pending[id], op.timed, Waiting)])
    ensures Inv(s') && StepOk(s, s')
  {
    WaiterAdded(s, s', op.w, s'.waiters[op.w]);
  }

  lemma EnterKeeps(s: System, op: Op)
    requires Inv(s) && op.WaitEnter? && Enabled(s, op)
    ensures Inv(Next(s, op)) && StepOk(s, Next(s, op))
  {
    var s' := Next(s, op);
    var e := Broker.WaitEnter(s.broker, op.toolCall, op.digest, op.now).1;
    var found := Find(s.broker.records, op.toolCall, op.digest, None, None);
    if found.Some? {
      FindIsTheMatch(s.broker.records, op.toolCall, op.digest, None, None, found.value);
    }
    if e.Answer? {
      UnchangedIsLocal(s);
      if found.Some? { MarkUsedIsLocal(s, found.value); }
      LocalKeeps(s, op, s');
    } else if found.value in s.broker.pending {
      JoinKeeps(s, op, found.value, s');
    } else {
      OpenKeeps(s, op, found.value, s');
    }
  }

  // A step of a waiter that changes the broker only locally.
  lemma PhaseKeeps(s: System, op: Op, b': Broker.Broker, w: nat, p: Phase)
    requires Inv(s) && Local(s.broker, b') && w in s.waiters
    ensures Inv(SetPhase(s.(broker := b'), w, p)) && StepOk(s, SetPhase(s.(broker := b'), w, p))
  {
    LocalKeeps(s, op, SetPhase(s.(broker := b'), w, p));
  }

  lemma LeaveKeeps(s: System, op: Op)
    requires Inv(s) && Enabled(s, op)
    requires op.WaitWake? || op.WaitAbandon?
    ensures Inv(Next(s, op)) && StepOk(s, Next(s, op))
  {
    UnchangedIsLocal(s);
    PhaseKeeps(s, op, s.broker, op.w, Next(s, op).waiters[op.w].phase);
  }

  lemma TimeoutIsLocal(s: System, toolCall: string, digest: Digest)
    requires Inv(s)
    ensures Local(s.broker, Broker.WaitTimeout(s.broker, toolCall, digest))
    ensures Broker.WaitTimeout(s.broker, toolCall, digest).pending == s.broker.pending
  {
    match Find(s.broker.records, toolCall, digest, None, None)
    case None => UnchangedIsLocal(s);
    case Some(id) => MarkUsedIsLocal(s, id);
  }

  lemma TimeoutKeeps(s: System, op: Op)
    requires Inv(s) && Enabled(s, op) && op.WaitTimeout?
    ensures Inv(Next(s, op)) && StepOk(s, Next(s, op))
  {
    var v := s.waiters[op.w];
    TimeoutIsLocal(s, v.toolCall, v.digest);
    PhaseKeeps(s, op, Broker.WaitTimeout(s.broker, v.toolCall, v.digest), op.w, Leaving(Some(DENIED)));
  }

  // Cancelling an unresolved future.
  lemma CancelIsLocal(s: System, f: nat)
    requires Inv(s) && f < |s.broker.futures| && s.broker.futures[f].state.Unresolved?
    ensures Local(s.broker, s.broker.(futures := s.broker.futures[f := s.broker.futures[f].(state := Cancelled)]))
  {
    UnchangedIsLocal(s);
  }

  lemma CancelKeeps(s: System, op: Op)
    requires Inv(s) && Enabled(s, op) && op.WaitCancel?
    ensures Inv(Next(s, op)) && StepOk(s, Next(s, op))
  {
    var f := s.waiters[op.w].future;
    UnchangedIsLocal(s);
    if s.broker.futures[f].state.Unresolved? { CancelIsLocal(s, f); }
    PhaseKeeps(s, op, Next(s, op).broker, op.w, Leaving(None));
  }

  lemma FinishIsLocal(s: System, toolCall: string, digest: Digest)
    requires Inv(s)
    ensures Local(s.broker, Broker.WaitFinish(s.broker, toolCall, digest))
  {
    match Find(s.broker.records, toolCall, digest, None, None)
    case None => UnchangedIsLocal(s);
    case Some(id) => MarkUsedIsLocal(s, id);
  }

  lemma FinishKeeps(s: System, op: Op)
    requires Inv(s) && Enabled(s, op) && op.WaitFinish?
    ensures Inv(Next(s, op)) && StepOk(s, Next(s, op))
  {
    var v := s.waiters[op.w];
    FinishIsLocal(s, v.toolCall, v.digest);
    PhaseKeeps(s, op, Broker.WaitFinish(s.broker, v.toolCall, v.digest), op.w, Gone);
  }

  // A record that has no decision yet, or that one.
  ghost predicate MayHold(r: Record, d: Decision) {
    r.decision == None || r.decision == Some(d)
  }

  // Writing a decision on a record that has none, or has that one.
  lemma WriteIsLocal(s: System, id: ApprovalId, d: Decision, r': Record)
    requires Inv(s) && id in s.broker.records
    requires MayHold(s.broker.records[id], d)
    requires r' == s.broker.records[id].(decision := Some(d))
             || r' == s.broker.records[id].(decision := Some(d), used := true, dispatched := true)
    ensures Local(s.broker, s.broker.(records := s.broker.records[id := r']))
  {
    SameFuturesAgree(s, s.broker.records[id := r']);
  }

  // Telling the waiter of a record its decision.
  lemma NotifyFutures(b: Broker.Broker, m: map<ApprovalId, Record>, f: nat, d: Decision)
    requires f < |b.futures| && b.futures[f].state.Unresolved? && LocalFutures(b.futures, b.futures, m)
    requires b.futures[f].owner in m ==> m[b.futures[f].owner].decision == Some(d)
    ensures LocalFutures(b.futures, b.futures[f := b.futures[f].(state := Resolved(d))], m)
  {
  }

  lemma NotifyIsLocal(s: System, b': Broker.Broker, id: ApprovalId, d: Decision)
    requires Inv(s) && Local(s.broker, b') && b'.pending == s.broker.pending && b'.futures == s.broker.futures
    requires id in b'.records && b'.records[id].decision == Some(d)
    ensures b'.WellFormed() && Local(s.broker, Notify(b', id, d))
  {
    if id in b'.pending && b'.futures[b'.pending[id]].state.Unresolved? {
      NotifyFutures(s.broker, b'.records, b'.pending[id], d);
    }
  }

  // Deciding an undecided record and telling its waiter.
  lemma DecisionIsLocal(s: System, b': Broker.Broker, id: ApprovalId, d: Decision)
    requires Inv(s) && id in s.broker.records && s.broker.records[id].decision.None?
    requires b' == SetDecision(s.broker, id, d) || b' == SetDispatched(s.broker, id, d)
    ensures b'.WellFormed() && Local(s.broker, b') && Local(s.broker, Notify(b', id, d))
  {
    WriteIsLocal(s, id, d, b'.records[id]);
    NotifyIsLocal(s, b', id, d);
  }

  lemma ResolveIsLocal(s: System, op: Op)
    requires Inv(s) && Enabled(s, op) && op.Resolve?
    ensures Local(s.broker, Next(s, op).broker) && Next(s, op).broker.pending == s.broker.pending
  {
    var found := FindClaimed(s.broker.records, op.claim);
    UnchangedIsLocal(s);
    if found.Some? && Next(s, op).broker != s.broker {
      DecisionIsLocal(s, SetDecision(s.broker, found.value, op.decision), found.value, op.decision);
    }
  }

  lemma DispatchCases(b: Broker.Broker, c: Claim, d: Decision, now: real)
    ensures var b' := Broker.Dispatch(b, c, d, now).0; var found := FindClaimed(b.records, c);
      || b' == b
      || (found.Some? && b' == MarkUsed(b, found.value))
      || (found.Some? && MayHold(b.records[found.value], d) && b' == SetDispatched(b, found.value, d))
  {
    var found := FindClaimed(b.records, c);
    if found.Some? {
      var r := b.records[found.value];
      if !r.dispatched && now < r.binding.expiresAt && (r.decision.Some? ==> r.decision.value == d) {
        assert r.decision == None || r.decision == Some(d);
        assert Broker.Dispatch(b, c, d, now).0 == SetDispatched(b, found.value, d);
      }
    }
  }

  lemma DispatchIsLocal(s: System, c: Claim, d: Decision, now: real)
    requires Inv(s)
    ensures Local(s.broker, Broker.Dispatch(s.broker, c, d, now).0)
    ensures Broker.Dispatch(s.broker, c, d, now).0.pending == s.broker.pending
  {
    var b', found := Broker.Dispatch(s.broker, c, d, now).0, FindClaimed(s.broker.records, c);
    DispatchCases(s.broker, c, d, now);
    if b' == s.broker {
      UnchangedIsLocal(s);
    } else if b' == MarkUsed(s.broker, found.value) {
      MarkUsedIsLocal(s, found.value);
    } else {
      WriteIsLocal(s, found.value, d, b'.records[found.value]);
    }
  }

  lemma CommitIsLocal(s: System, op: Op)
    requires Inv(s) && Enabled(s, op) && op.TaskCommit?
    ensures Local(s.broker, Next(s, op).broker) && Next(s, op).broker.pending == s.broker.pending
  {
    var found := FindClaimed(s.broker.records, op.claim);
    UnchangedIsLocal(s);
    if found.Some? && Next(s, op).broker != s.broker {
      var d := Decision(op.approved, false);
      DecisionIsLocal(s, SetDispatched(s.broker, found.value, d), found.value, d);
    }
  }

  lemma DecideIsLocal(s: System, op: Op)
    requires Inv(s) && Enabled(s, op) && (op.Resolve? || op.Dispatch? || op.TaskCommit?)
    ensures Local(s.broker, Next(s, op).broker) && Next(s, op).broker.pending == s.broker.pending
    ensures Next(s, op).waiters == s.waiters && Next(s, op).issued == s.issued && Next(s, op).clock == op.now
  {
    match op
    case Resolve(_, _, _) => ResolveIsLocal(s, op);
    case Dispatch(_, _, _) => DispatchIsLocal(s, op.claim, op.decision, op.now);
    case TaskCommit(_, _, _, _) => CommitIsLocal(s, op);
  }

  lemma DecideKeeps(s: System, op: Op)
    requires Inv(s) && Enabled(s, op) && (op.Resolve? || op.Dispatch? || op.TaskCommit?)
    ensures Inv(Next(s, op)) && StepOk(s, Next(s, op))
  {
    DecideIsLocal(s, op);
    LocalKeeps(s, op, Next(s, op));
  }

  lemma SweepKeeps(s: System, op: Op)
    requires Inv(s) && op.Sweep? && Enabled(s, op)
    ensures Inv(Next(s, op)) && StepOk(s, Next(s, op))
  {
    var stale := Stale(s.broker.records, op.now, op.ttl);
    DigestsStayDistinct(s.broker.records, s.broker.records - stale);
    EvictedFutures(s.broker, stale);
  }

  lemma EvictedFutures(b: Broker.Broker, stale: set<ApprovalId>)
    requires PendingOk(b)
    ensures |DenyFutures(b, stale)| == |b.futures|
    ensures forall f | 0 <= f < |b.futures| :: FutureEvolves(b.futures[f], DenyFutures(b, stale)[f])
    ensures forall f | 0 <= f < |b.futures| && b.futures[f].owner !in stale :: DenyFutures(b, stale)[f] == b.futures[f]
  {
  }

  lemma StepKeeps(s: System, op: Op)
    requires Inv(s) && Enabled(s, op)
    ensures Inv(Next(s, op)) && StepOk(s, Next(s, op))
  {
    match op
    case Register(_, _, _, _) => RegisterKeeps(s, op);
    case WaitEnter(_, _, _, _, _) => EnterKeeps(s, op);
    case Resolve(_, _, _) => DecideKeeps(s, op);
    case Dispatch(_, _, _) => DecideKeeps(s, op);
    case TaskCommit(_, _, _, _) => DecideKeeps(s, op);
    case Sweep(_, _) => SweepKeeps(s, op);
    case WaitTimeout(_) => TimeoutKeeps(s, op);
    case WaitCancel(_) => CancelKeeps(s, op);
    case WaitFinish(_) => FinishKeeps(s, op);
    case _ => LeaveKeeps(s, op);
  }

  // --- Where an approval comes from ---------------------------------------

  // The claim names the record: same principal, session, call and digest.
  predicate Names(c: Claim, x: Binding) {
    c.principal == x.principal && c.session == x.session && c.toolCall == x.toolCall && c.digest == Sha256(x)
  }

  function OpDecision(op: Op): Decision
    requires op.Resolve? || op.Dispatch? || op.TaskCommit?
  {
    if op.TaskCommit? then Decision(op.approved, false) else op.decision
  }

  // Step `op` is a resolution or a successful task commit that decides `d` for
  // the undecided record `id`, in its name and before it expires.
  ghost predicate Decides(s: System, op: Op, id: ApprovalId, d: Decision) {
    && (op.Resolve? || (op.TaskCommit? && op.committed))
    && OpDecision(op) == d
    && id in s.broker.records && id in s.issued
    && Names(op.claim, s.issued[id]) && op.now < s.issued[id].expiresAt
    && !s.broker.records[id].used && s.broker.records[id].decision.None?
  }

  // New approvals in a state, with respect to the state before.
  ghost predicate FutureSource(s: System, op: Op, s': System, f: nat)
    requires f < |s'.broker.futures|
  {
    var u := s'.broker.futures[f];
    u.state.Resolved? && u.state.decision.approved ==>
      || (f < |s.broker.futures| && s.broker.futures[f] == u)
      || Decides(s, op, u.owner, u.state.decision)
  }

  ghost predicate RecordSource(s: System, op: Op, s': System, id: ApprovalId)
    requires id in s'.broker.records
  {
    var r := s'.broker.records[id];
    r.decision.Some? && !r.used ==>
      || (id in s.broker.records && !s.broker.records[id].used && s.broker.records[id].decision == r.decision)
      || Decides(s, op, id, r.decision.value)
  }

  ghost predicate Sourced(s: System, op: Op, s': System) {
    && (forall f: nat | f < |s'.broker.futures| :: FutureSource(s, op, s', f))
    && (forall id <- s'.broker.records :: RecordSource(s, op, s', id))
  }

  lemma ClaimedRecord(s: System, c: Claim)
    requires Inv(s) && FindClaimed(s.broker.records, c).Some?
    ensures var id := FindClaimed(s.broker.records, c).value;
            id in s.broker.records && id in s.issued && s.issued[id] == s.broker.records[id].binding && Names(c, s.issued[id])
  {
    FindIsTheMatch(s.broker.records, c.toolCall, c.digest, Some(c.principal), Some(c.session),
                   FindClaimed(s.broker.records, c).value);
  }

  // A decision for `id`, written and told to its waiter, sources what is new.
  lemma DecisionSource(s: System, op: Op, id: ApprovalId, d: Decision, b: Broker.Broker, s': System)
    requires PendingOk(s.broker) && Decides(s, op, id, d)
    requires b == SetDecision(s.broker, id, d) || b == SetDispatched(s.broker, id, d)
    requires b.WellFormed() && s'.broker == Notify(b, id, d)
    ensures Sourced(s, op, s')
  {
  }

  lemma ResolveSource(s: System, op: Op)
    requires Inv(s) && Enabled(s, op) && op.Resolve?
    ensures Sourced(s, op, Next(s, op))
  {
    var found := FindClaimed(s.broker.records, op.claim);
    if Next(s, op).broker != s.broker {
      ClaimedRecord(s, op.claim);
      DecisionSource(s, op, found.value, op.decision, SetDecision(s.broker, found.value, op.decision), Next(s, op));
    }
  }

  lemma CommitSource(s: System, op: Op)
    requires Inv(s) && Enabled(s, op) && op.TaskCommit?
    ensures Sourced(s, op, Next(s, op))
  {
    var d, found := Decision(op.approved, false), FindClaimed(s.broker.records, op.claim);
    if Next(s, op).broker != s.broker && op.committed {
      ClaimedRecord(s, op.claim);
      DecisionSource(s, op, found.value, d, SetDispatched(s.broker, found.value, d), Next(s, op));
    } else {
      FailedCommitIsQuiet(s.broker, op.claim, op.approved, op.now);
      QuietSource(s, op, Next(s, op));
    }
  }

  // A region that approves nothing new and leaves no new unused decision.
  ghost predicate Quiet(b: Broker.Broker, b': Broker.Broker) {
    && (forall f: nat | f < |b'.futures| && b'.futures[f].state.Resolved? && b'.futures[f].state.decision.approved ::
          f < |b.futures| && b.futures[f] == b'.futures[f])
    && (forall id | id in b'.records && b'.records[id].decision.Some? && !b'.records[id].used ::
          id in b.records && !b.records[id].used && b.records[id].decision == b'.records[id].decision)
  }

  lemma QuietSource(s: System, op: Op, s': System)
    requires Quiet(s.broker, s'.broker)
    ensures Sourced(s, op, s')
  {
  }

  lemma FailedCommitIsQuiet(b: Broker.Broker, c: Claim, approved: bool, now: real)
    requires b.WellFormed()
    ensures Quiet(b, Broker.TaskCommit(b, c, approved, false, now).0)
  {
  }

  lemma RegisterIsQuiet(b: Broker.Broker, x: Binding, now: real, created: real, id: ApprovalId)
    ensures Quiet(b, Broker.Register(b, x, now, created, id).0)
  {
  }

  lemma EnterIsQuiet(b: Broker.Broker, toolCall: string, digest: Digest, now: real)
    ensures Quiet(b, Broker.WaitEnter(b, toolCall, digest, now).0)
  {
  }

  lemma LeaveIsQuiet(b: Broker.Broker, toolCall: string, digest: Digest)
    ensures Quiet(b, Broker.WaitTimeout(b, toolCall, digest))
    ensures Quiet(b, Broker.WaitFinish(b, toolCall, digest))
  {
  }

  lemma DispatchIsQuiet(b: Broker.Broker, c: Claim, d: Decision, now: real)
    ensures Quiet(b, Broker.Dispatch(b, c, d, now).0)
  {
  }

  lemma SweepIsQuiet(b: Broker.Broker, now: real, ttl: real)
    ensures Quiet(b, Broker.Sweep(b, now, ttl))
  {
  }

  lemma OtherIsQuiet(s: System, op: Op)
    requires s.broker.WellFormed() && Enabled(s, op) && !op.Resolve? && !op.TaskCommit?
    ensures Quiet(s.broker, Next(s, op).broker)
  {
    match op
    case Register(x, now, created, id) => RegisterIsQuiet(s.broker, x, now, created, id);
    case WaitEnter(_, toolCall, digest, _, now) => EnterIsQuiet(s.broker, toolCall, digest, now);
    case WaitTimeout(w) => LeaveIsQuiet(s.broker, s.waiters[w].toolCall, s.waiters[w].digest);
    case WaitFinish(w) => LeaveIsQuiet(s.broker, s.waiters[w].toolCall, s.waiters[w].digest);
    case Dispatch(c, d, now) => DispatchIsQuiet(s.broker, c, d, now);
    case Sweep(now, ttl) => SweepIsQuiet(s.broker, now, ttl);
    case _ =>
  }

  lemma StepSource(s: System, op: Op)
    requires Inv(s) && Enabled(s, op)
    ensures Sourced(s, op, Next(s, op))
  {
    match op
    case Resolve(_, _, _) => ResolveSource(s, op);
    case TaskCommit(_, _, _, _) => CommitSource(s, op);
    case _ =>
      OtherIsQuiet(s, op);
      QuietSource(s, op, Next(s, op));
  }

}

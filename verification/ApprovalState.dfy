/**
 * The state of ApprovalBroker and one function per lock-held region of its
 * methods. Each function maps the broker before the region to the broker after
 * it and to the value the region returns. The class in ApprovalBroker.dfy is
 * proved to compute these functions; ApprovalRuns.dfy reasons about runs.
 */
module ApprovalState {

  import opened Core

  type ApprovalId = string

  // `scope` stands for the binding fields no broker branch looks at (task,
  // tool name, argument and policy digests, workspace, plan route, nonce).
  datatype Binding = Binding(
    principal: string, session: string, turn: string, toolCall: string,
    expiresAt: real, scope: string)

  // SHA-256 is taken to be injective: a digest is a tagged copy of what was
  // hashed. A caller may also present a text that is the digest of nothing.
  datatype Digest = Sha256(payload: Binding) | Text(text: string)

  datatype Decision = Decision(approved: bool, remember: bool)

  const DENIED := Decision(false, false)

  datatype Record = Record(
    id: ApprovalId, binding: Binding, digest: Digest, decision: Option<Decision>,
    used: bool, dispatched: bool, createdAt: real)

  // An asyncio future. `owner` is the approval whose wait created it; no
  // operation reads it, the run lemmas do.
  datatype Future = Future(owner: ApprovalId, state: FutureState)
  datatype FutureState = Unresolved | Resolved(decision: Decision) | Cancelled

  // `pending` holds indices into `futures`, the futures ever created.
  datatype Broker = Broker(
    records: map<ApprovalId, Record>, pending: map<ApprovalId, nat>,
    futures: seq<Future>, maxPerSession: nat, maxPerTurn: nat)
  {
    ghost predicate WellFormed() {
      && (forall id <- pending :: pending[id] < |futures|)
    }
  }

  // A request to resolve, dispatch or commit one approval.
  datatype Claim = Claim(
    toolCall: string, digest: Digest, principal: string, session: string)

  // --- Lookup -------------------------------------------------------------

  predicate Matches(r: Record, toolCall: string, digest: Digest,
                    principal: Option<string>, session: Option<string>) {
    && r.digest == digest
    && r.binding.toolCall == toolCall
    && (principal == None || principal == Some(r.binding.principal))
    && (session == None || session == Some(r.binding.session))
  }

  function Matching(records: map<ApprovalId, Record>, toolCall: string, digest: Digest,
                    principal: Option<string>, session: Option<string>): set<ApprovalId> {
    set id | id in records && Matches(records[id], toolCall, digest, principal, session)
  }

  ghost function TheOnly(ids: set<ApprovalId>): (r: Option<ApprovalId>)
    ensures forall id :: ids == {id} ==> r == Some(id)
    ensures r.Some? ==> ids == {r.value}
  {
    if exists id :: ids == {id} then
      var id :| ids == {id};
      Some(id)
    else None
  }

  // The record a call is about: the match, if there is exactly one.
  ghost function Find(records: map<ApprovalId, Record>, toolCall: string, digest: Digest,
                      principal: Option<string>, session: Option<string>): Option<ApprovalId> {
    TheOnly(Matching(records, toolCall, digest, principal, session))
  }

  ghost function FindClaimed(records: map<ApprovalId, Record>, c: Claim): Option<ApprovalId> {
    Find(records, c.toolCall, c.digest, Some(c.principal), Some(c.session))
  }

  // --- Registration -------------------------------------------------------

  predicate Active(r: Record, now: real) {
    !r.used && r.binding.expiresAt > now
  }

  function ActiveInSession(records: map<ApprovalId, Record>, now: real,
                           principal: string, session: string): set<ApprovalId> {
    set id | id in records && Active(records[id], now)
             && records[id].binding.principal == principal
             && records[id].binding.session == session
  }

  function ActiveInTurn(records: map<ApprovalId, Record>, now: real, principal: string,
                        session: string, turn: string): set<ApprovalId> {
    set id | id in records && Active(records[id], now)
             && records[id].binding.principal == principal
             && records[id].binding.session == session
             && records[id].binding.turn == turn
  }

  function WithDigest(records: map<ApprovalId, Record>, digest: Digest): set<ApprovalId> {
    set id | id in records && records[id].digest == digest
  }

  predicate OverQuota(b: Broker, x: Binding, now: real) {
    || |ActiveInSession(b.records, now, x.principal, x.session)| >= b.maxPerSession
    || |ActiveInTurn(b.records, now, x.principal, x.session, x.turn)| >= b.maxPerTurn
  }

  function NewRecord(id: ApprovalId, x: Binding, created: real): Record {
    Record(id, x, Sha256(x), None, false, false, created)
  }

  // `newId` is the identity the server generates; no identity is returned when
  // a quota refuses the registration.
  ghost function Register(b: Broker, x: Binding, now: real, created: real, newId: ApprovalId)
    : (Broker, Option<ApprovalId>)
  {
    var existing := WithDigest(b.records, Sha256(x));
    if existing != {} then
      var id :| id in existing;
      (b, Some(id))
    else if OverQuota(b, x, now) then (b, None)
    else (b.(records := b.records[newId := NewRecord(newId, x, created)]), Some(newId))
  }

  // --- Waiting ------------------------------------------------------------

  datatype Entered = Answer(decision: Decision) | Await(future: nat)

  function MarkUsed(b: Broker, id: ApprovalId): Broker
    requires id in b.records
  {
    b.(records := b.records[id := b.records[id].(used := true)])
  }

  // First region of `wait`.
  ghost function WaitEnter(b: Broker, toolCall: string, digest: Digest, now: real)
    : (Broker, Entered)
  {
    match Find(b.records, toolCall, digest, None, None)
    case None => (b, Answer(DENIED))
    case Some(id) =>
      var r := b.records[id];
      if r.used || now >= r.binding.expiresAt then (b, Answer(DENIED))
      else if r.decision.Some? then (MarkUsed(b, id), Answer(r.decision.value))
      else if id in b.pending then (b, Await(b.pending[id]))
      else
        (b.(futures := b.futures + [Future(id, Unresolved)],
            pending := b.pending[id := |b.futures|]),
         Await(|b.futures|))
  }

  // Region of the timeout handler of `wait`.
  ghost function WaitTimeout(b: Broker, toolCall: string, digest: Digest): Broker {
    match Find(b.records, toolCall, digest, None, None)
    case None => b
    case Some(id) => MarkUsed(b, id)
  }

  // Last region of `wait`.
  ghost function WaitFinish(b: Broker, toolCall: string, digest: Digest): Broker {
    match Find(b.records, toolCall, digest, None, None)
    case None => b
    case Some(id) => MarkUsed(b.(pending := b.pending - {id}), id)
  }

  // --- Deciding -----------------------------------------------------------

  function SetDecision(b: Broker, id: ApprovalId, d: Decision): Broker
    requires id in b.records
  {
    b.(records := b.records[id := b.records[id].(decision := Some(d))])
  }

  // Resolve the future pending for `id`, if there is one and it is not done.
  function Notify(b: Broker, id: ApprovalId, d: Decision): Broker
    requires b.WellFormed()
  {
    if id in b.pending && b.futures[b.pending[id]].state.Unresolved? then
      b.(futures := b.futures[b.pending[id] := b.futures[b.pending[id]].(state := Resolved(d))])
    else b
  }

  ghost function Resolve(b: Broker, c: Claim, d: Decision, now: real): (Broker, bool)
    requires b.WellFormed()
  {
    match FindClaimed(b.records, c)
    case None => (b, false)
    case Some(id) =>
      var r := b.records[id];
      if r.used || r.decision.Some? || now >= r.binding.expiresAt then (b, false)
      else
        (Notify(SetDecision(b, id, d), id, d),
         id in b.pending ==> b.futures[b.pending[id]].state.Unresolved?)
  }

  function SetDispatched(b: Broker, id: ApprovalId, d: Decision): Broker
    requires id in b.records
  {
    b.(records := b.records[id :=
      b.records[id].(decision := Some(d), used := true, dispatched := true)])
  }

  ghost function Dispatch(b: Broker, c: Claim, d: Decision, now: real): (Broker, Decision) {
    match FindClaimed(b.records, c)
    case None => (b, DENIED)
    case Some(id) =>
      var r := b.records[id];
      if r.dispatched || now >= r.binding.expiresAt then (b, DENIED)
      else if r.decision.Some? && r.decision.value != d then (MarkUsed(b, id), DENIED)
      else (SetDispatched(b, id, d), d)
  }

  // `committed` is what the caller's commit callback answers; an exception in
  // it counts as false.
  ghost function TaskCommit(b: Broker, c: Claim, approved: bool, committed: bool, now: real)
    : (Broker, bool)
    requires b.WellFormed()
  {
    match FindClaimed(b.records, c)
    case None => (b, false)
    case Some(id) =>
      var r := b.records[id];
      if r.used || r.dispatched || r.decision.Some? || now >= r.binding.expiresAt then (b, false)
      else
        var d := Decision(approved, false);
        if committed then (Notify(SetDispatched(b, id, d), id, d), true)
        else (SetDispatched(b, id, d), false)
  }

  // --- Sweeping -----------------------------------------------------------

  function Stale(records: map<ApprovalId, Record>, now: real, ttl: real): set<ApprovalId> {
    set id | id in records && (records[id].used || now - records[id].createdAt > ttl)
  }

  // Future `f` is the unresolved future pending for a record in `stale`.
  predicate WokenBySweep(b: Broker, stale: set<ApprovalId>, f: nat)
    requires f < |b.futures|
  {
    b.futures[f].state.Unresolved? && exists id :: id in stale && id in b.pending && b.pending[id] == f
  }

  function DenyFutures(b: Broker, stale: set<ApprovalId>): seq<Future> {
    seq(|b.futures|, f requires 0 <= f < |b.futures| =>
      if WokenBySweep(b, stale, f) then b.futures[f].(state := Resolved(DENIED)) else b.futures[f])
  }

  function Evict(b: Broker, stale: set<ApprovalId>): Broker {
    b.(records := b.records - stale, pending := b.pending - stale, futures := DenyFutures(b, stale))
  }

  function Sweep(b: Broker, now: real, ttl: real): Broker {
    Evict(b, Stale(b.records, now, ttl))
  }

}

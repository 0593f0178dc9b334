/**
 * The single-instance protocol: any number of processes race for a flock on a
 * lockfile whose path may be rebound under them, start their services under
 * the lock, and tear them down in a chain that stops at the first failure.
 */
module InstanceLock {

  import opened Core

  type Pid = nat
  type Inode = nat

  // --- Services -----------------------------------------------------------

  // `Live` from the moment the object exists, even if starting it failed.
  datatype Service = Absent | Live | Down

  datatype Layer = Maintenance | Subagent | Agent | Db | Done

  datatype Services = Services(maintenance: Service, subagent: Service, agent: Service, db: Service) {
    function At(l: Layer): Service
      requires l != Done
    {
      match l
      case Maintenance => maintenance
      case Subagent => subagent
      case Agent => agent
      case Db => db
    }

    function Set(l: Layer, v: Service): Services
      requires l != Done
    {
      match l
      case Maintenance => this.(maintenance := v)
      case Subagent => this.(subagent := v)
      case Agent => this.(agent := v)
      case Db => this.(db := v)
    }

    // Something of this process can still touch the database.
    predicate Active() {
      maintenance.Live? || subagent.Live? || agent.Live? || db.Live?
    }

    // No layer is shut down under a live owner that borrows from it.
    predicate Ordered() {
      && (subagent.Down? ==> !maintenance.Live?)
      && (agent.Down? ==> !maintenance.Live? && !subagent.Live?)
      && (db.Down? ==> !maintenance.Live? && !subagent.Live? && !agent.Live?)
    }
  }

  const NOTHING := Services(Absent, Absent, Absent, Absent)

  // The order of tearing down; starting up goes database, agent, maintenance, subagent.
  function After(l: Layer): Layer {
    match l
    case Maintenance => Subagent
    case Subagent => Agent
    case Agent => Db
    case _ => Done
  }

  function Rank(l: Layer): nat {
    match l
    case Maintenance => 0
    case Subagent => 1
    case Agent => 2
    case Db => 3
    case Done => 4
  }

  // One layer of a teardown: an absent service is skipped, a stop may fail and
  // then leaves the service as it was.
  function Stop(sv: Services, l: Layer, ok: bool): Services
    requires l != Done
  {
    if sv.At(l).Absent? || !ok then sv else sv.Set(l, Down)
  }

  // --- Processes ----------------------------------------------------------

  datatype Phase =
    | Idle
    | Stated(pre: Option<Inode>)
    | Opened(fd: Inode)
    | Locked(fd: Inode)
    | Starting(fd: Inode)
    | Serving(fd: Inode)
    | TearingDown(fd: Inode, layer: Layer)
    | Emergency(fd: Inode, layer: Layer)
    | Retained(fd: Inode)
    | Released
    | Exited

  datatype Process = Process(phase: Phase, services: Services)

  predicate HasFd(p: Process) {
    !p.phase.Idle? && !p.phase.Stated? && !p.phase.Released? && !p.phase.Exited?
  }

  // Holds the flock on its descriptor.
  predicate Flocked(p: Process) {
    HasFd(p) && !p.phase.Opened?
  }

  // Passed the check after the flock and has not given the lock up.
  predicate Holder(p: Process) {
    Flocked(p) && !p.phase.Locked?
  }

  // `path` is the inode the lockfile name is bound to.
  datatype World = World(path: Option<Inode>, procs: map<Pid, Process>)

  datatype Op =
    | Spawn(p: Pid)
    | Lstat(p: Pid)
    | Open(p: Pid, created: Inode)
    | Refuse(p: Pid)
    | Flock(p: Pid)
    | Verify(p: Pid)
    | Start(p: Pid, layer: Layer, ok: bool)
    | FailStartup(p: Pid)
    | Serve(p: Pid)
    | Shutdown(p: Pid, drained: bool)
    | StopLayer(p: Pid, ok: bool)
    | Exit(p: Pid)
    | Rebind(path: Option<Inode>)

  function PhaseOf(w: World, p: Pid): Phase
    requires p in w.procs
  {
    w.procs[p].phase
  }

  // Which layer may start next.
  predicate MayStart(sv: Services, l: Layer) {
    match l
    case Db => sv.db.Absent?
    case Agent => sv.db.Live? && sv.agent.Absent?
    case Maintenance => sv.agent.Live? && sv.maintenance.Absent?
    case Subagent => sv.maintenance.Live? && sv.subagent.Absent?
    case Done => false
  }

  predicate Enabled(w: World, op: Op) {
    match op
    case Spawn(p) => p !in w.procs
    case Lstat(p) => p in w.procs && PhaseOf(w, p).Idle?
    // A new lockfile gets an inode no open descriptor refers to.
    case Open(p, created) => p in w.procs && PhaseOf(w, p).Stated?
                             && (w.path == None ==> forall q | q in w.procs && HasFd(w.procs[q]) :: PhaseOf(w, q).fd != created)
    case Refuse(p) => p in w.procs && (PhaseOf(w, p).Idle? || PhaseOf(w, p).Stated? || PhaseOf(w, p).Opened? || PhaseOf(w, p).Locked?)
    case Flock(p) => p in w.procs && PhaseOf(w, p).Opened?
                     && forall q | q in w.procs && Flocked(w.procs[q]) :: PhaseOf(w, q).fd != PhaseOf(w, p).fd
    case Verify(p) => p in w.procs && PhaseOf(w, p).Locked?
    case Start(p, l, _) => p in w.procs && PhaseOf(w, p).Starting? && MayStart(w.procs[p].services, l)
    case FailStartup(p) => p in w.procs && PhaseOf(w, p).Starting?
    case Serve(p) => p in w.procs && PhaseOf(w, p).Starting? && w.procs[p].services.maintenance.Live?
    case Shutdown(p, _) => p in w.procs && PhaseOf(w, p).Serving?
    case StopLayer(p, _) => p in w.procs && (PhaseOf(w, p).TearingDown? || PhaseOf(w, p).Emergency?) && PhaseOf(w, p).layer != Done
    case Exit(p) => p in w.procs && !PhaseOf(w, p).Exited?
    case Rebind(_) => true
  }

  // The step of one process, given the binding of the path.
  function Advance(pr: Process, path: Option<Inode>, op: Op): Process
    requires !op.Spawn? && !op.Rebind?
    requires op.Open? ==> pr.phase.Stated?
    requires op.Flock? ==> pr.phase.Opened?
    requires op.Verify? ==> pr.phase.Locked?
    requires op.Start? ==> pr.phase.Starting? && op.layer != Done
    requires op.FailStartup? || op.Serve? ==> pr.phase.Starting?
    requires op.Shutdown? ==> pr.phase.Serving?
    requires op.StopLayer? ==> (pr.phase.TearingDown? || pr.phase.Emergency?) && pr.phase.layer != Done
  {
    match op
    case Lstat(_) => pr.(phase := Stated(path))
    case Open(_, created) =>
      // The descriptor must be the file the lstat saw, if it saw one.
      var fd := if path.Some? then path.value else created;
      if pr.phase.pre.Some? && pr.phase.pre.value != fd then pr.(phase := Released) else pr.(phase := Opened(fd))
    case Refuse(_) => pr.(phase := Released)
    case Flock(_) => pr.(phase := Locked(pr.phase.fd))
    case Verify(_) => if path == Some(pr.phase.fd) then pr.(phase := Starting(pr.phase.fd)) else pr.(phase := Released)
    case Start(_, l, ok) =>
      // A subagent service that cannot be built is never assigned.
      var sv := if l == Subagent && !ok then pr.services else pr.services.Set(l, Live);
      Process(if ok then pr.phase else Emergency(pr.phase.fd, Maintenance), sv)
    case FailStartup(_) => pr.(phase := Emergency(pr.phase.fd, Maintenance))
    case Serve(_) => pr.(phase := Serving(pr.phase.fd))
    case Shutdown(_, drained) =>
      pr.(phase := if drained then TearingDown(pr.phase.fd, Maintenance) else Emergency(pr.phase.fd, Maintenance))
    case StopLayer(_, ok) =>
      var sv := Stop(pr.services, pr.phase.layer, ok);
      var next := After(pr.phase.layer);
      if pr.services.At(pr.phase.layer).Absent? || ok then
        Process(if next == Done then Released
                else if pr.phase.TearingDown? then TearingDown(pr.phase.fd, next) else Emergency(pr.phase.fd, next), sv)
      else
        Process(if pr.phase.TearingDown? then Emergency(pr.phase.fd, Maintenance) else Retained(pr.phase.fd), sv)
    case Exit(_) => Process(Exited, NOTHING)
  }

  // What creating the file binds the path to.
  function PathAfter(w: World, op: Op): Option<Inode> {
    if op.Rebind? then op.path
    else if op.Open? && w.path == None then Some(op.created)
    else w.path
  }

  function Next(w: World, op: Op): World
    requires Enabled(w, op)
  {
    match op
    case Spawn(p) => w.(procs := w.procs[p := Process(Idle, NOTHING)])
    case Rebind(path) => w.(path := path)
    case _ => World(PathAfter(w, op), w.procs[op.p := Advance(w.procs[op.p], w.path, op)])
  }

  ghost predicate IsRun(worlds: seq<World>, ops: seq<Op>) {
    && |worlds| == |ops| + 1 && worlds[0].procs == map[]
    && forall i | 0 <= i < |ops| :: Enabled(worlds[i], ops[i]) && worlds[i + 1] == Next(worlds[i], ops[i])
  }

  // --- The invariant ------------------------------------------------------

  // The services of a process fit its phase: nothing runs before the check
  // after the flock, nothing runs once the lock is given up, and a teardown
  // has brought down every layer it passed.
  predicate ProcessOk(p: Process) {
    && p.services.Ordered()
    && (!Holder(p) ==> !p.services.Active())
    && (p.phase.Idle? || p.phase.Stated? || p.phase.Opened? || p.phase.Locked? ==> p.services == NOTHING)
    && (p.phase.Starting? || p.phase.Serving? ==>
          !p.services.maintenance.Down? && !p.services.subagent.Down? && !p.services.agent.Down? && !p.services.db.Down?)
    && (p.phase.TearingDown? || p.phase.Emergency? ==>
          && p.phase.layer != Done
          && (Rank(p.phase.layer) > 0 ==> !p.services.maintenance.Live?)
          && (Rank(p.phase.layer) > 1 ==> !p.services.subagent.Live?)
          && (Rank(p.phase.layer) > 2 ==> !p.services.agent.Live?))
  }

  ghost predicate ProcessesOk(w: World) {
    forall p <- w.procs :: ProcessOk(w.procs[p])
  }

  // flock is exclusive on an inode.
  ghost predicate OneLockPerInode(w: World) {
    forall p, q | p in w.procs && q in w.procs && Flocked(w.procs[p]) && Flocked(w.procs[q])
                  && PhaseOf(w, p).fd == PhaseOf(w, q).fd :: p == q
  }

  // Every holder's descriptor is the file at the path.
  ghost predicate HoldersAtPath(w: World) {
    forall p | p in w.procs && Holder(w.procs[p]) :: w.path == Some(PhaseOf(w, p).fd)
  }

  ghost predicate Inv(w: World) {
    ProcessesOk(w) && OneLockPerInode(w)
  }

  lemma AdvanceKeepsProcess(w: World, op: Op)
    requires Enabled(w, op) && !op.Spawn? && !op.Rebind? && ProcessOk(w.procs[op.p])
    ensures ProcessOk(Advance(w.procs[op.p], w.path, op))
  {
  }

  // A lock comes from a flock step only, on the descriptor the process had.
  lemma AdvanceLocks(w: World, op: Op)
    requires Enabled(w, op) && !op.Spawn? && !op.Rebind?
    ensures var pr := Advance(w.procs[op.p], w.path, op);
      Flocked(pr) ==> HasFd(w.procs[op.p]) && pr.phase.fd == PhaseOf(w, op.p).fd && (Flocked(w.procs[op.p]) || op.Flock?)
  {
  }

  lemma StepKeepsLocks(w: World, op: Op)
    requires Enabled(w, op) && OneLockPerInode(w)
    ensures OneLockPerInode(Next(w, op))
  {
    if !op.Spawn? && !op.Rebind? {
      AdvanceLocks(w, op);
    }
  }

  lemma StepKeepsInv(w: World, op: Op)
    requires Enabled(w, op) && Inv(w)
    ensures Inv(Next(w, op))
  {
    StepKeepsLocks(w, op);
    if !op.Spawn? && !op.Rebind? {
      AdvanceKeepsProcess(w, op);
    }
  }

  lemma {:induction false} RunInv(worlds: seq<World>, ops: seq<Op>, k: nat)
    requires IsRun(worlds, ops) && k < |worlds|
    ensures Inv(worlds[k])
  {
    if k > 0 {
      RunInv(worlds, ops, k - 1);
      StepKeepsInv(worlds[k - 1], ops[k - 1]);
    }
  }

  // --- Exclusion ----------------------------------------------------------

  // The environment moves the path away from under a live holder.
  ghost predicate Disturbs(w: World, op: Op) {
    op.Rebind? && exists p :: p in w.procs && Holder(w.procs[p]) && op.path != Some(PhaseOf(w, p).fd)
  }

  // The path stays at every holder's file exactly when nobody moves it.
  lemma StepKeepsPath(w: World, op: Op)
    requires Enabled(w, op) && Inv(w) && HoldersAtPath(w)
    ensures HoldersAtPath(Next(w, op)) <==> !Disturbs(w, op)
  {
    if !op.Spawn? && !op.Rebind? {
      AdvanceLocks(w, op);
      var w' := Next(w, op);
      forall p | p in w'.procs && Holder(w'.procs[p]) ensures w'.path == Some(PhaseOf(w', p).fd) {
        if p != op.p {
          assert w.procs[p] == w'.procs[p];
        }
      }
    }
  }

  lemma {:induction false} RunKeepsPath(worlds: seq<World>, ops: seq<Op>, k: nat)
    requires IsRun(worlds, ops) && k < |worlds|
    requires forall i | 0 <= i < |ops| :: !Disturbs(worlds[i], ops[i])
    ensures HoldersAtPath(worlds[k])
  {
    if k > 0 {
      RunKeepsPath(worlds, ops, k - 1);
      RunInv(worlds, ops, k - 1);
      StepKeepsPath(worlds[k - 1], ops[k - 1]);
    }
  }

  // No two processes have a running service or an open database at once.
  lemma SingleInstance(worlds: seq<World>, ops: seq<Op>, k: nat, p: Pid, q: Pid)
    requires IsRun(worlds, ops) && k < |worlds|
    requires forall i | 0 <= i < |ops| :: !Disturbs(worlds[i], ops[i])
    requires p in worlds[k].procs && worlds[k].procs[p].services.Active()
    requires q in worlds[k].procs && worlds[k].procs[q].services.Active()
    ensures p == q
  {
    RunInv(worlds, ops, k);
    RunKeepsPath(worlds, ops, k);
  }

  // In every reachable world, disturbed or not, shared layers go down only
  // after every owner that borrows from them, and whoever gave the lock up has
  // nothing running.
  lemma TeardownIsFailStop(worlds: seq<World>, ops: seq<Op>, k: nat, p: Pid)
    requires IsRun(worlds, ops) && k < |worlds| && p in worlds[k].procs
    ensures worlds[k].procs[p].services.Ordered()
    ensures PhaseOf(worlds[k], p) in {Released, Exited} ==> !worlds[k].procs[p].services.Active()
  {
    RunInv(worlds, ops, k);
  }

  // A failed teardown keeps the lock until the process exits: the process and
  // its services stay as they are, and nobody else gets past the lock.
  lemma {:induction false} RetainedUntilExit(worlds: seq<World>, ops: seq<Op>, i: nat, k: nat, p: Pid)
    requires IsRun(worlds, ops) && i <= k < |worlds| && p in worlds[i].procs && PhaseOf(worlds[i], p).Retained?
    ensures p in worlds[k].procs
    ensures worlds[k].procs[p] == worlds[i].procs[p] || PhaseOf(worlds[k], p).Exited?
    decreases k
  {
    if i < k {
      RetainedUntilExit(worlds, ops, i, k - 1, p);
    }
  }

  lemma RetainedLocksOthersOut(worlds: seq<World>, ops: seq<Op>, i: nat, k: nat, p: Pid, q: Pid)
    requires IsRun(worlds, ops) && i <= k < |worlds| && p in worlds[i].procs && PhaseOf(worlds[i], p).Retained?
    requires forall j | 0 <= j < |ops| :: !Disturbs(worlds[j], ops[j])
    requires q in worlds[k].procs && q != p && Holder(worlds[k].procs[q])
    ensures p in worlds[k].procs && PhaseOf(worlds[k], p).Exited?
  {
    RetainedUntilExit(worlds, ops, i, k, p);
    RunInv(worlds, ops, k);
    RunKeepsPath(worlds, ops, k);
  }

  // --- Why the path must stay ---------------------------------------------

  // `to` follows `from` by the given steps, and nobody moves the path from
  // under a holder on the way.
  ghost predicate LeadsQuietly(from: World, ops: seq<Op>, to: World)
    decreases |ops|
  {
    if ops == [] then from == to
    else Enabled(from, ops[0]) && !Disturbs(from, ops[0]) && LeadsQuietly(Next(from, ops[0]), ops[1..], to)
  }

  ghost predicate AtMostOneActive(w: World) {
    forall p, q | p in w.procs && q in w.procs && w.procs[p].services.Active() && w.procs[q].services.Active() :: p == q
  }

  // However the world goes on quietly, no two processes are active at once.
  ghost predicate StaysExclusive(w: World) {
    forall ops, w' | LeadsQuietly(w, ops, w') :: AtMostOneActive(w')
  }

  // A holder that runs something or is still to start.
  predicate Runner(p: Process) {
    Holder(p) && (p.services.Active() || p.phase.Starting?)
  }

  ghost predicate RunnersAtPath(w: World) {
    forall p | p in w.procs && Runner(w.procs[p]) :: w.path == Some(PhaseOf(w, p).fd)
  }

  // A process becomes a runner only by the check after the flock.
  lemma AdvanceRunner(w: World, op: Op)
    requires Enabled(w, op) && !op.Spawn? && !op.Rebind? && ProcessOk(w.procs[op.p])
    ensures var pr := Advance(w.procs[op.p], w.path, op);
      Runner(pr) ==> (Runner(w.procs[op.p]) && pr.phase.fd == PhaseOf(w, op.p).fd) || w.path == Some(pr.phase.fd)
    ensures op.Open? && w.path == None ==> !Runner(Advance(w.procs[op.p], w.path, op))
  {
  }

  lemma StepKeepsRunners(w: World, op: Op)
    requires Enabled(w, op) && Inv(w) && RunnersAtPath(w) && !Disturbs(w, op)
    ensures RunnersAtPath(Next(w, op))
  {
    if !op.Spawn? && !op.Rebind? {
      AdvanceRunner(w, op);
    }
  }

  lemma {:induction false} QuietKeepsRunners(w: World, ops: seq<Op>, w': World)
    requires LeadsQuietly(w, ops, w') && Inv(w) && RunnersAtPath(w)
    ensures Inv(w') && RunnersAtPath(w')
    decreases |ops|
  {
    if ops != [] {
      StepKeepsInv(w, ops[0]);
      StepKeepsRunners(w, ops[0]);
      QuietKeepsRunners(Next(w, ops[0]), ops[1..], w');
    }
  }

  lemma RunnersAtPathExclude(w: World)
    requires Inv(w) && RunnersAtPath(w)
    ensures AtMostOneActive(w)
  {
    forall p, q | p in w.procs && q in w.procs && w.procs[p].services.Active() && w.procs[q].services.Active()
      ensures p == q
    {
      assert ProcessOk(w.procs[p]) && ProcessOk(w.procs[q]);
      assert Runner(w.procs[p]) && Runner(w.procs[q]);
    }
  }

  // --- How a second process gets in ---------------------------------------

  // The world with process `q` as given.
  function With(w: World, q: Pid, pr: Process): World {
    w.(procs := w.procs[q := pr])
  }

  lemma OneStep(w: World, q: Pid, pr: Process, op: Op)
    requires w.path.Some? && !op.Spawn? && !op.Rebind? && op.p == q && Enabled(With(w, q, pr), op)
    ensures Next(With(w, q, pr), op) == With(w, q, Advance(pr, w.path, op))
  {
  }

  lemma LeadsOn(from: World, op: Op, rest: seq<Op>, to: World)
    requires !op.Rebind? && Enabled(from, op) && LeadsQuietly(Next(from, op), rest, to)
    ensures LeadsQuietly(from, [op] + rest, to)
  {
    assert ([op] + rest)[1..] == rest;
  }

  // Once a new process has opened a file at the path that nobody has locked,
  // it gets to run next to all others.
  lemma OpenedGetsIn(w: World, q: Pid, i: Inode) returns (ops: seq<Op>, w': World)
    requires w.path == Some(i) && q !in w.procs
    requires forall r | r in w.procs && Flocked(w.procs[r]) :: PhaseOf(w, r).fd != i
    ensures LeadsQuietly(With(w, q, Process(Opened(i), NOTHING)), ops, w')
    ensures w' == With(w, q, Process(Starting(i), NOTHING.Set(Db, Live)))
  {
    var unlocked, locked := Process(Opened(i), NOTHING), Process(Locked(i), NOTHING);
    var starting := Process(Starting(i), NOTHING);
    w' := With(w, q, Process(Starting(i), NOTHING.Set(Db, Live)));
    OneStep(w, q, starting, Start(q, Db, true));
    LeadsOn(With(w, q, starting), Start(q, Db, true), [], w');
    OneStep(w, q, locked, Verify(q));
    LeadsOn(With(w, q, locked), Verify(q), [Start(q, Db, true)], w');
    OneStep(w, q, unlocked, Flock(q));
    ops := [Verify(q)] + [Start(q, Db, true)];
    LeadsOn(With(w, q, unlocked), Flock(q), ops, w');
    ops := [Flock(q)] + ops;
  }

  // The path is bound to a file nobody has locked.
  lemma BoundPathAdmits(w: World, q: Pid, i: Inode) returns (ops: seq<Op>, w': World)
    requires w.path == Some(i) && q !in w.procs
    requires forall r | r in w.procs && Flocked(w.procs[r]) :: PhaseOf(w, r).fd != i
    ensures LeadsQuietly(w, ops, w')
    ensures w' == With(w, q, Process(Starting(i), NOTHING.Set(Db, Live)))
  {
    var idle, stated := Process(Idle, NOTHING), Process(Stated(Some(i)), NOTHING);
    ops, w' := OpenedGetsIn(w, q, i);
    OneStep(w, q, stated, Open(q, i));
    LeadsOn(With(w, q, stated), Open(q, i), ops, w');
    OneStep(w, q, idle, Lstat(q));
    LeadsOn(With(w, q, idle), Lstat(q), [Open(q, i)] + ops, w');
    LeadsOn(w, Spawn(q), [Lstat(q)] + ([Open(q, i)] + ops), w');
    ops := [Spawn(q)] + ([Lstat(q)] + ([Open(q, i)] + ops));
  }

  // The path was unlinked: the new process creates the file anew.
  lemma UnlinkedPathAdmits(w: World, q: Pid, i: Inode) returns (ops: seq<Op>, w': World)
    requires w.path == None && q !in w.procs
    requires forall r | r in w.procs && HasFd(w.procs[r]) :: PhaseOf(w, r).fd != i
    ensures LeadsQuietly(w, ops, w')
    ensures w' == With(w.(path := Some(i)), q, Process(Starting(i), NOTHING.Set(Db, Live)))
  {
    var idle, stated := Process(Idle, NOTHING), Process(Stated(None), NOTHING);
    var bound := w.(path := Some(i));
    ops, w' := OpenedGetsIn(bound, q, i);
    assert Next(With(w, q, stated), Open(q, i)) == With(bound, q, Process(Opened(i), NOTHING));
    LeadsOn(With(w, q, stated), Open(q, i), ops, w');
    assert Next(With(w, q, idle), Lstat(q)) == With(w, q, stated);
    LeadsOn(With(w, q, idle), Lstat(q), [Open(q, i)] + ops, w');
    LeadsOn(w, Spawn(q), [Lstat(q)] + ([Open(q, i)] + ops), w');
    ops := [Spawn(q)] + ([Lstat(q)] + ([Open(q, i)] + ops));
  }

  // Some number is in no finite set.
  lemma {:induction false} Unused(s: set<nat>) returns (n: nat)
    ensures forall m | m in s :: m < n
  {
    if s == {} {
      n := 0;
    } else {
      var m :| m in s;
      var k := Unused(s - {m});
      n := if m < k then k else m + 1;
      forall x | x in s ensures x < n {
        if x != m { assert x in s - {m}; }
      }
    }
  }

  ghost function OpenFiles(w: World): set<Inode> {
    set r | r in w.procs && HasFd(w.procs[r]) :: PhaseOf(w, r).fd
  }

  // Whether the path is bound to another file or to none, a new process gets
  // to run next to `p`; at most one other process has to exit for it.
  lemma DisturbedPathAdmitsSecond(w: World, p: Pid) returns (ops: seq<Op>, w': World)
    requires Inv(w) && p in w.procs && Holder(w.procs[p]) && w.procs[p].services.Active()
    requires w.path != Some(PhaseOf(w, p).fd)
    ensures LeadsQuietly(w, ops, w') && !AtMostOneActive(w')
    ensures p in w'.procs && w'.procs[p] == w.procs[p]
  {
    var q := Unused(w.procs.Keys);
    if w.path == None {
      var i := Unused(OpenFiles(w));
      forall r | r in w.procs && HasFd(w.procs[r]) ensures PhaseOf(w, r).fd != i {
        assert PhaseOf(w, r).fd in OpenFiles(w);
      }
      ops, w' := UnlinkedPathAdmits(w, q, i);
    } else if r :| r in w.procs && Flocked(w.procs[r]) && PhaseOf(w, r).fd == w.path.value {
      var w1 := Next(w, Exit(r));
      ops, w' := BoundPathAdmits(w1, q, w.path.value);
      LeadsOn(w, Exit(r), ops, w');
      ops := [Exit(r)] + ops;
    } else {
      ops, w' := BoundPathAdmits(w, q, w.path.value);
    }
    TwoActive(w', p, q);
  }

  lemma TwoActive(w: World, p: Pid, q: Pid)
    requires p in w.procs && q in w.procs && p != q
    requires w.procs[p].services.Active() && w.procs[q].services.Active()
    ensures !AtMostOneActive(w)
  {
  }

  // A runner off the path is active or one step from it.
  lemma RunnerBreaks(w: World, p: Pid) returns (ops: seq<Op>, w': World)
    requires Inv(w) && p in w.procs && Runner(w.procs[p]) && w.path != Some(PhaseOf(w, p).fd)
    ensures LeadsQuietly(w, ops, w') && !AtMostOneActive(w')
  {
    if w.procs[p].services.Active() {
      ops, w' := DisturbedPathAdmitsSecond(w, p);
    } else {
      assert ProcessOk(w.procs[p]);
      var op := Start(p, Db, true);
      StepKeepsInv(w, op);
      ops, w' := DisturbedPathAdmitsSecond(Next(w, op), p);
      LeadsOn(w, op, ops, w');
      ops := [op] + ops;
    }
  }

  // Exactly which worlds stay exclusive however they go on quietly: those
  // where the path is bound to the file of every process that runs or starts.
  lemma StaysExclusiveIff(w: World)
    requires Inv(w)
    ensures StaysExclusive(w) <==> RunnersAtPath(w)
  {
    if RunnersAtPath(w) {
      forall ops, w' | LeadsQuietly(w, ops, w') ensures AtMostOneActive(w') {
        QuietKeepsRunners(w, ops, w');
        RunnersAtPathExclude(w');
      }
    } else {
      var p :| p in w.procs && Runner(w.procs[p]) && w.path != Some(PhaseOf(w, p).fd);
      var ops, w' := RunnerBreaks(w, p);
      assert LeadsQuietly(w, ops, w') && !AtMostOneActive(w');
    }
  }

  // --- A run that breaks exclusion ----------------------------------------

  lemma RunGoesOn(worlds: seq<World>, ops: seq<Op>, op: Op)
    requires IsRun(worlds, ops) && Enabled(worlds[|ops|], op)
    ensures IsRun(worlds + [Next(worlds[|ops|], op)], ops + [op])
  {
    var worlds', ops' := worlds + [Next(worlds[|ops|], op)], ops + [op];
    forall i | 0 <= i < |ops'| ensures Enabled(worlds'[i], ops'[i]) && worlds'[i + 1] == Next(worlds'[i], ops'[i]) {
      if i < |ops| {
        assert Enabled(worlds[i], ops[i]) && worlds[i + 1] == Next(worlds[i], ops[i]);
      }
    }
  }

  lemma {:induction false} RunFollows(worlds: seq<World>, ops: seq<Op>, more: seq<Op>, w': World)
    returns (worlds': seq<World>, ops': seq<Op>)
    requires IsRun(worlds, ops) && LeadsQuietly(worlds[|ops|], more, w')
    ensures IsRun(worlds', ops') && worlds'[|ops'|] == w'
    decreases |more|
  {
    if more == [] {
      return worlds, ops;
    }
    RunGoesOn(worlds, ops, more[0]);
    worlds', ops' := RunFollows(worlds + [Next(worlds[|ops|], more[0])], ops + [more[0]], more[1..], w');
  }

  // From nothing at all: a server starts, its lock file is unlinked, and a
  // second server starts next to it.
  lemma UnlinkedLockRun() returns (worlds: seq<World>, ops: seq<Op>)
    ensures IsRun(worlds, ops) && !AtMostOneActive(worlds[|ops|])
  {
    var w := World(None, map[]);
    var steps, w1 := UnlinkedPathAdmits(w, 0, 0);
    worlds, ops := RunFollows([w], [], steps, w1);
    RunInv(worlds, ops, |ops|);
    RunGoesOn(worlds, ops, Rebind(None));
    worlds, ops := worlds + [Next(w1, Rebind(None))], ops + [Rebind(None)];
    RunInv(worlds, ops, |ops|);
    var more, w2 := DisturbedPathAdmitsSecond(worlds[|ops|], 0);
    worlds, ops := RunFollows(worlds, ops, more, w2);
  }

  // So a rebinding away from a process that runs or starts is exactly what
  // ends exclusion.
  lemma RebindEndsExclusionIff(w: World, path: Option<Inode>)
    requires Inv(w) && StaysExclusive(w)
    ensures StaysExclusive(Next(w, Rebind(path))) <==>
            forall p | p in w.procs && Runner(w.procs[p]) :: path == Some(PhaseOf(w, p).fd)
  {
    StepKeepsInv(w, Rebind(path));
    StaysExclusiveIff(Next(w, Rebind(path)));
  }

  // --- Cleaning up --------------------------------------------------------

  // Whether stopping each layer succeeds, if it is tried.
  datatype Outcomes = Outcomes(maintenance: bool, subagent: bool, agent: bool, db: bool) {
    function At(l: Layer): bool
      requires l != Done
    {
      match l
      case Maintenance => maintenance
      case Subagent => subagent
      case Agent => agent
      case Db => db
    }
  }

  // Tear down from layer `l` on, stopping at the first failure.
  function TearDown(sv: Services, l: Layer, outs: Outcomes): (Services, bool)
    decreases 4 - Rank(l)
  {
    if l == Done then (sv, true)
    else if sv.At(l).Absent? || outs.At(l) then TearDown(Stop(sv, l, true), After(l), outs)
    else (sv, false)
  }

  // It succeeds exactly when every service that exists can be stopped, and
  // then nothing is left running. Otherwise the first layer that cannot be
  // stopped and all below it are left as they were.
  lemma TearDownOutcome(sv: Services, outs: Outcomes)
    ensures var (after, ok) := TearDown(sv, Maintenance, outs);
      && (ok <==> forall l | l != Done :: sv.At(l).Absent? || outs.At(l))
      && (ok ==> !after.Active())
      && forall l, m | l != Done && m != Done && !sv.At(l).Absent? && !outs.At(l) && Rank(l) <= Rank(m) ::
           after.At(m) == sv.At(m)
  {
    var after := TearDown(sv, Maintenance, outs).0;
    assert TearDown(sv, Maintenance, outs).1 ==>
      (sv.At(Maintenance).Absent? || outs.At(Maintenance)) && (sv.At(Subagent).Absent? || outs.At(Subagent))
      && (sv.At(Agent).Absent? || outs.At(Agent)) && (sv.At(Db).Absent? || outs.At(Db));
  }

  // The stops of an emergency cleanup, interleaved with nothing else, bring
  // the process to Released or Retained just as TearDown says.
  lemma {:induction false} CleanupBySteps(w: World, p: Pid, fd: Inode, l: Layer, outs: Outcomes)
    returns (ops: seq<Op>, w': World)
    requires p in w.procs && PhaseOf(w, p) == Emergency(fd, l) && l != Done
    ensures LeadsQuietly(w, ops, w')
    ensures var (sv, ok) := TearDown(w.procs[p].services, l, outs);
      w' == w.(procs := w.procs[p := Process(if ok then Released else Retained(fd), sv)])
    decreases 4 - Rank(l)
  {
    var op := StopLayer(p, outs.At(l));
    var w1 := Next(w, op);
    if After(l) == Done || !(w.procs[p].services.At(l).Absent? || outs.At(l)) {
      ops, w' := [], w1;
    } else {
      ops, w' := CleanupBySteps(w1, p, fd, After(l), outs);
    }
    LeadsOn(w, op, ops, w');
    ops := [op] + ops;
  }

  // --- What follows a failure ---------------------------------------------

  // A start that fails, a startup that fails between starts, handlers that do
  // not drain, or a regular stop that fails.
  predicate Fails(w: World, op: Op)
    requires Enabled(w, op)
  {
    match op
    case Start(_, _, ok) => !ok
    case FailStartup(_) => true
    case Shutdown(_, drained) => !drained
    case StopLayer(p, ok) => !ok && PhaseOf(w, p).TearingDown? && !w.procs[p].services.At(PhaseOf(w, p).layer).Absent?
    case _ => false
  }

  // What there is to clean up then: a service whose start failed counts, but a
  // subagent service that could not be built does not exist.
  function ToCleanUp(w: World, op: Op): Services
    requires Enabled(w, op) && Fails(w, op)
  {
    if op.Start? && op.layer != Subagent then w.procs[op.p].services.Set(op.layer, Live) else w.procs[op.p].services
  }

  // After each of them the emergency cleanup of all layers decides between
  // giving the lock up and keeping it.
  lemma FailureCleansUp(w: World, op: Op, outs: Outcomes) returns (ops: seq<Op>, w': World)
    requires Enabled(w, op) && Fails(w, op)
    ensures LeadsQuietly(w, [op] + ops, w')
    ensures var (sv, ok) := TearDown(ToCleanUp(w, op), Maintenance, outs);
      w' == With(w, op.p, Process(if ok then Released else Retained(PhaseOf(w, op.p).fd), sv))
  {
    var w1 := Next(w, op);
    assert w1.procs[op.p] == Process(Emergency(PhaseOf(w, op.p).fd, Maintenance), ToCleanUp(w, op));
    ops, w' := CleanupBySteps(w1, op.p, PhaseOf(w, op.p).fd, Maintenance, outs);
    LeadsOn(w, op, ops, w');
  }

  // A regular teardown, and the emergency cleanup where it failed.
  function TearDownTwice(sv: Services, l: Layer, regular: Outcomes, emergency: Outcomes): (Services, bool) {
    var (sv', ok) := TearDown(sv, l, regular);
    if ok then (sv', true) else TearDown(sv', Maintenance, emergency)
  }

  lemma TwiceUnfolds(sv: Services, l: Layer, regular: Outcomes, emergency: Outcomes)
    requires l != Done
    ensures TearDownTwice(sv, l, regular, emergency) ==
      if sv.At(l).Absent? || regular.At(l) then TearDownTwice(Stop(sv, l, true), After(l), regular, emergency)
      else TearDown(sv, Maintenance, emergency)
  {
  }

  lemma StopAdvances(w: World, p: Pid, fd: Inode, l: Layer, ok: bool)
    requires p in w.procs && PhaseOf(w, p) == TearingDown(fd, l) && l != Done
    requires w.procs[p].services.At(l).Absent? || ok
    ensures Next(w, StopLayer(p, ok)) == With(w, p, Process(
              if After(l) == Done then Released else TearingDown(fd, After(l)), Stop(w.procs[p].services, l, true)))
  {
  }

  lemma {:induction false} TeardownBySteps(
    w: World, p: Pid, fd: Inode, l: Layer, regular: Outcomes, emergency: Outcomes) returns (ops: seq<Op>, w': World)
    requires p in w.procs && PhaseOf(w, p) == TearingDown(fd, l) && l != Done
    ensures LeadsQuietly(w, ops, w')
    ensures var (sv, ok) := TearDownTwice(w.procs[p].services, l, regular, emergency);
      w' == With(w, p, Process(if ok then Released else Retained(fd), sv))
    decreases 4 - Rank(l)
  {
    var op := StopLayer(p, regular.At(l));
    TwiceUnfolds(w.procs[p].services, l, regular, emergency);
    if !(w.procs[p].services.At(l).Absent? || regular.At(l)) {
      ops, w' := FailureCleansUp(w, op, emergency);
    } else {
      StopAdvances(w, p, fd, l, regular.At(l));
      var w1 := Next(w, op);
      if After(l) == Done {
        ops, w' := [], w1;
      } else {
        ops, w' := TeardownBySteps(w1, p, fd, After(l), regular, emergency);
      }
      LeadsOn(w, op, ops, w');
    }
    ops := [op] + ops;
  }

  // A server that stops serving, drained or not, gets to Released or Retained
  // exactly as its teardown and its emergency cleanup come out.
  lemma ShutdownBySteps(w: World, p: Pid, fd: Inode, drained: bool, regular: Outcomes, emergency: Outcomes)
    returns (ops: seq<Op>, w': World)
    requires p in w.procs && PhaseOf(w, p) == Serving(fd)
    ensures LeadsQuietly(w, ops, w')
    ensures var sv := w.procs[p].services;
      var (sv', ok) := if drained then TearDownTwice(sv, Maintenance, regular, emergency) else TearDown(sv, Maintenance, emergency);
      w' == With(w, p, Process(if ok then Released else Retained(fd), sv'))
  {
    var op := Shutdown(p, drained);
    if drained {
      ops, w' := TeardownBySteps(Next(w, op), p, fd, Maintenance, regular, emergency);
      LeadsOn(w, op, ops, w');
    } else {
      ops, w' := FailureCleansUp(w, op, emergency);
    }
    ops := [op] + ops;
  }

  // A process that holds the lock can start everything and serve.
  lemma StartupBySteps(w: World, p: Pid, fd: Inode) returns (ops: seq<Op>, w': World)
    requires p in w.procs && w.path.Some? && w.procs[p] == Process(Starting(fd), NOTHING)
    ensures LeadsQuietly(w, ops, w')
    ensures w' == With(w, p, Process(Serving(fd), Services(Live, Live, Live, Live)))
  {
    var db := Process(Starting(fd), Services(Absent, Absent, Absent, Live));
    var agent := Process(Starting(fd), Services(Absent, Absent, Live, Live));
    var maintenance := Process(Starting(fd), Services(Live, Absent, Live, Live));
    var all := Process(Starting(fd), Services(Live, Live, Live, Live));
    w' := With(w, p, Process(Serving(fd), all.services));
    OneStep(w, p, all, Serve(p));
    LeadsOn(With(w, p, all), Serve(p), [], w');
    ops := [Serve(p)] + [];
    OneStep(w, p, maintenance, Start(p, Subagent, true));
    LeadsOn(With(w, p, maintenance), Start(p, Subagent, true), ops, w');
    ops := [Start(p, Subagent, true)] + ops;
    OneStep(w, p, agent, Start(p, Maintenance, true));
    LeadsOn(With(w, p, agent), Start(p, Maintenance, true), ops, w');
    ops := [Start(p, Maintenance, true)] + ops;
    OneStep(w, p, db, Start(p, Agent, true));
    LeadsOn(With(w, p, db), Start(p, Agent, true), ops, w');
    ops := [Start(p, Agent, true)] + ops;
    assert With(w, p, w.procs[p]) == w;
    OneStep(w, p, w.procs[p], Start(p, Db, true));
    LeadsOn(w, Start(p, Db, true), ops, w');
    ops := [Start(p, Db, true)] + ops;
  }

  // --- How a process got where it is --------------------------------------

  lemma RetainStep(w: World, op: Op, p: Pid)
    requires Enabled(w, op) && p in Next(w, op).procs && PhaseOf(Next(w, op), p).Retained?
    ensures p in w.procs
    ensures PhaseOf(w, p).Retained? || (op == StopLayer(p, false) && PhaseOf(w, p).Emergency?
                                        && !w.procs[p].services.At(PhaseOf(w, p).layer).Absent?)
  {
  }

  // In every run a process keeps its lock for good only after a stop of its
  // own emergency cleanup failed.
  lemma {:induction false} RetainedAfterEmergency(worlds: seq<World>, ops: seq<Op>, k: nat, p: Pid) returns (i: nat)
    requires IsRun(worlds, ops) && k < |worlds| && p in worlds[k].procs && PhaseOf(worlds[k], p).Retained?
    ensures i < k && ops[i] == StopLayer(p, false)
    ensures p in worlds[i].procs && PhaseOf(worlds[i], p).Emergency? && PhaseOf(worlds[i], p).layer != Done
    ensures !worlds[i].procs[p].services.At(PhaseOf(worlds[i], p).layer).Absent?
  {
    RetainStep(worlds[k - 1], ops[k - 1], p);
    if PhaseOf(worlds[k - 1], p).Retained? {
      i := RetainedAfterEmergency(worlds, ops, k - 1, p);
    } else {
      i := k - 1;
    }
  }

  lemma DescriptorStep(w: World, op: Op, p: Pid)
    requires Enabled(w, op) && p in Next(w, op).procs && HasFd(Next(w, op).procs[p])
    ensures p in w.procs
    ensures (HasFd(w.procs[p]) && PhaseOf(w, p).fd == PhaseOf(Next(w, op), p).fd)
            || (op.Open? && op.p == p && PhaseOf(w, p).Stated? && OpensAsSeen(w, op, PhaseOf(Next(w, op), p).fd))
  {
  }

  // The file opened is the one at the path, or a new one if there was none,
  // and it is the one the look before saw, if it saw one.
  predicate OpensAsSeen(w: World, op: Op, fd: Inode)
    requires op.Open? && op.p in w.procs && PhaseOf(w, op.p).Stated?
  {
    && fd == (if w.path.Some? then w.path.value else op.created)
    && (PhaseOf(w, op.p).pre.Some? ==> fd == PhaseOf(w, op.p).pre.value)
  }

  // In every run a descriptor is of the file seen before it was opened.
  lemma {:induction false} OpenedAsSeen(worlds: seq<World>, ops: seq<Op>, k: nat, p: Pid) returns (i: nat)
    requires IsRun(worlds, ops) && k < |worlds| && p in worlds[k].procs && HasFd(worlds[k].procs[p])
    ensures i < k && ops[i].Open? && ops[i].p == p && p in worlds[i].procs && PhaseOf(worlds[i], p).Stated?
    ensures OpensAsSeen(worlds[i], ops[i], PhaseOf(worlds[k], p).fd)
  {
    DescriptorStep(worlds[k - 1], ops[k - 1], p);
    if HasFd(worlds[k - 1].procs[p]) && PhaseOf(worlds[k - 1], p).fd == PhaseOf(worlds[k], p).fd {
      i := OpenedAsSeen(worlds, ops, k - 1, p);
    } else {
      i := k - 1;
    }
  }

  // The server's variables around its outer `finally`.
  class Server {
    var maintenance: Service
    var subagent: Service
    var agent: Service
    var db: Service
    var lockFd: Option<Inode>
    var retainedFd: Option<Inode>

    ghost function View(): Services
      reads this
    {
      Services(maintenance, subagent, agent, db)
    }

    constructor (fd: Inode)
      ensures View() == NOTHING && lockFd == Some(fd) && retainedFd == None
    {
      maintenance, subagent, agent, db := Absent, Absent, Absent, Absent;
      lockFd, retainedFd := Some(fd), None;
    }

    method EmergencyInstanceCleanup(outs: Outcomes) returns (ok: bool)
      modifies this
      ensures (View(), ok) == TearDown(old(View()), Maintenance, outs)
      ensures lockFd == old(lockFd) && retainedFd == old(retainedFd)
    {
      ok := true;
      if maintenance != Absent {
        if outs.maintenance { maintenance := Down; } else { ok := false; }
      }
      if !ok { return false; }
      if subagent != Absent {
        if outs.subagent { subagent := Down; } else { ok := false; }
      }
      if !ok { return false; }
      if agent != Absent {
        if outs.agent { agent := Down; } else { ok := false; }
      }
      if !ok { return false; }
      if db != Absent {
        if outs.db { db := Down; } else { ok := false; }
      }
    }

    // The regular teardown of a server that serves; it raises, and does not
    // complete, at the first stop that fails.
    method InnerFinally(drained: bool, outs: Outcomes) returns (completed: bool)
      requires agent.Live? && db.Live?
      modifies this
      ensures (View(), completed) == if drained then TearDown(old(View()), Maintenance, outs) else (old(View()), false)
      ensures lockFd == old(lockFd) && retainedFd == old(retainedFd)
    {
      if !drained { return false; }
      if maintenance != Absent {
        if !outs.maintenance { return false; }
        maintenance := Down;
      }
      if subagent != Absent {
        if !outs.subagent { return false; }
        subagent := Down;
      }
      if !outs.agent { return false; }
      agent := Down;
      if !outs.db { return false; }
      db := Down;
      completed := true;
    }

    // Both in turn: the lock is given up exactly where the protocol says.
    method ShutDown(drained: bool, regular: Outcomes, emergency: Outcomes)
      requires agent.Live? && db.Live? && lockFd.Some?
      modifies this
      ensures var (sv, ok) :=
          if drained then TearDownTwice(old(View()), Maintenance, regular, emergency)
          else TearDown(old(View()), Maintenance, emergency);
        && View() == sv && (lockFd == None <==> ok)
        && (!ok ==> lockFd == old(lockFd) && retainedFd == old(lockFd))
    {
      TearDownOutcome(View(), regular);
      var completed := InnerFinally(drained, regular);
      OuterFinally(completed, emergency);
    }

    // The lock is given up only when nothing is left running; otherwise the
    // descriptor is parked for the life of the process.
    method OuterFinally(innerCleanupCompleted: bool, outs: Outcomes)
      requires lockFd.Some? && (innerCleanupCompleted ==> !View().Active())
      modifies this
      ensures lockFd == None ==> !View().Active()
      ensures lockFd.Some? ==> lockFd == old(lockFd) && retainedFd == old(lockFd)
      ensures lockFd == None <==> innerCleanupCompleted || TearDown(old(View()), Maintenance, outs).1
      ensures innerCleanupCompleted ==> View() == old(View())
      ensures !innerCleanupCompleted ==> View() == TearDown(old(View()), Maintenance, outs).0
    {
      if innerCleanupCompleted {
        lockFd := None;
        return;
      }
      TearDownOutcome(View(), outs);
      var ok := EmergencyInstanceCleanup(outs);
      if ok {
        lockFd := None;
      } else {
        retainedFd := lockFd;
      }
    }
  }

}

/**
 * TurnCoordinator over the compare-and-set turn store: one ordered event log
 * per turn, tool results paired with tool calls, and one terminal.
 */
module TurnEvents {

  import opened Core

  // --- The durable turn ---------------------------------------------------

  // `terminal` is the status an event ends the turn with, if it does; `mine`
  // tells this coordinator's events from those of recovery or another writer.
  datatype Event = Event(kind: string, call: string, unmatched: set<string>, terminal: Option<string>, mine: bool)

  // `log[i]` has sequence number i + 1.
  datatype Turn = Turn(status: string, log: seq<Event>)

  datatype Outcome = Appended(sequence: nat) | Late | Invalid | Refused

  const STATUSES := {"completed", "interrupted", "failed"}

  const STARTED := Event("turn.started", "", {}, None, true)

  // Append under the turn's compare-and-set sequence. The transaction of an
  // invalid terminal status is rolled back.
  function Append(t: Turn, expected: nat, e: Event): (Turn, Outcome) {
    if t.status != "running" || |t.log| != expected then (t, Late)
    else if e.terminal == None then (t.(log := t.log + [e]), Appended(expected + 1))
    else if e.terminal.value !in STATUSES then (t, Invalid)
    else (Turn(e.terminal.value, t.log + [e]), Appended(expected + 1))
  }

  // --- The coordinator ----------------------------------------------------

  datatype Coordinator = Coordinator(sequence: nat, terminal: bool, active: set<string>)

  // What `emit` checks before it appends, and the active calls after.
  function Track(active: set<string>, kind: string, call: string): Option<set<string>> {
    if kind == "tool.call" then
      if call == "" || call in active then None else Some(active + {call})
    else if kind == "tool.result" then
      if call !in active then None else Some(active - {call})
    else if kind == "approval.wait" && call !in active then None
    else Some(active)
  }

  datatype State = State(c: Coordinator, t: Turn)

  function EmitStep(s: State, kind: string, call: string): (State, Outcome) {
    if s.c.terminal then (s, Refused)
    else match Track(s.c.active, kind, call)
    case None => (s, Refused)
    case Some(active) =>
      // The active set is already updated when the append fails.
      var (t, o) := Append(s.t, s.c.sequence, Event(kind, call, {}, None, true));
      (State(Coordinator(if o.Appended? then o.sequence else s.c.sequence, false, active), t), o)
  }

  function TerminalStep(s: State, status: string): (State, Outcome) {
    if s.c.terminal || (status == "completed" && s.c.active != {}) then (s, Refused)
    else
      var (t, o) := Append(s.t, s.c.sequence, Event("turn." + status, "", s.c.active, Some(status), true));
      (State(if o.Appended? then s.c.(sequence := o.sequence, terminal := true) else s.c, t), o)
  }

  // --- Runs ---------------------------------------------------------------

  // `Foreign` is an append by anyone else that passes the store's own check.
  datatype Op = Emit(kind: string, call: string) | Terminal(status: string) | Foreign(event: Event)

  function Step(s: State, op: Op): (State, Outcome) {
    match op
    case Emit(kind, call) => EmitStep(s, kind, call)
    case Terminal(status) => TerminalStep(s, status)
    case Foreign(e) =>
      var (t, o) := Append(s.t, |s.t.log|, e.(mine := false));
      (s.(t := t), o)
  }

  const START := State(Coordinator(1, false, {}), Turn("running", [STARTED]))

  ghost predicate IsRun(states: seq<State>, ops: seq<Op>) {
    && |states| == |ops| + 1 && states[0] == START
    && forall i | 0 <= i < |ops| :: states[i + 1] == Step(states[i], ops[i]).0
  }

  // Tool calls of this coordinator that have no result yet, in log order.
  function Unmatched(log: seq<Event>): set<string> {
    if log == [] then {}
    else
      var e, before := log[|log| - 1], Unmatched(log[..|log| - 1]);
      if !e.mine then before
      else if e.kind == "tool.call" then before + {e.call}
      else if e.kind == "tool.result" then before - {e.call}
      else before
  }

  // Event `i` of this coordinator fits what came before it.
  ghost predicate Fits(log: seq<Event>, i: nat)
    requires i < |log|
  {
    var e, open := log[i], Unmatched(log[..i]);
    e.mine ==>
      && (e.terminal == None && e.kind == "tool.call" ==> e.call != "" && e.call !in open)
      && (e.terminal == None && e.kind == "tool.result" ==> e.call in open)
      && (e.terminal == None && e.kind == "approval.wait" ==> e.call in open)
      && (e.terminal == Some("completed") ==> open == {})
      && (e.terminal.Some? ==> e.unmatched == open && e.terminal.value in STATUSES)
  }

  ghost predicate WellPaired(log: seq<Event>) {
    forall i | 0 <= i < |log| :: Fits(log, i)
  }

  // Nothing of this coordinator follows its terminal, so there is at most one.
  ghost predicate EndsOnce(log: seq<Event>) {
    forall i, j | 0 <= i < j < |log| && log[i].mine && log[i].terminal.Some? :: !log[j].mine
  }

  ghost predicate Alone(log: seq<Event>) {
    forall i | 0 <= i < |log| :: log[i].mine
  }

  // The coordinator is up to date: it has seen the whole log, and has written it.
  ghost predicate InStep(s: State) {
    && s.t.log != [] && s.c.sequence == |s.t.log| && Alone(s.t.log)
    && (s.c.terminal <==> s.t.log[|s.t.log| - 1].terminal.Some?)
    && (!s.c.terminal <==> s.t.status == "running")
    && (s.c.active == Unmatched(s.t.log))
    && (forall i | 0 <= i < |s.t.log| - 1 :: s.t.log[i].terminal == None)
  }

  // Somebody else has written: no append of this coordinator can succeed again.
  ghost predicate Behind(s: State) {
    s.c.sequence < |s.t.log|
  }

  ghost predicate Inv(s: State) {
    && s.t.log != [] && WellPaired(s.t.log) && EndsOnce(s.t.log)
    && (InStep(s) || Behind(s))
  }

  lemma TerminalKind(status: string)
    ensures "turn." + status != "tool.call" && "turn." + status != "tool.result"
  {
    assert ("turn." + status)[1] == 'u';
  }

  // Appending an event that fits keeps the log well paired.
  lemma PairedAppend(log: seq<Event>, e: Event)
    requires WellPaired(log) && Fits(log + [e], |log|)
    ensures WellPaired(log + [e])
  {
    forall i | 0 <= i < |log| ensures Fits(log + [e], i) {
      assert (log + [e])[..i] == log[..i];
      assert Fits(log, i);
    }
  }

  lemma AppendedUnmatched(log: seq<Event>, e: Event)
    ensures (log + [e])[..|log|] == log
    ensures Unmatched(log + [e]) ==
      if e.mine && e.kind == "tool.call" then Unmatched(log) + {e.call}
      else if e.mine && e.kind == "tool.result" then Unmatched(log) - {e.call}
      else Unmatched(log)
  {
    assert (log + [e])[..|log|] == log;
  }

  lemma EmitKeeps(s: State, kind: string, call: string)
    requires Inv(s)
    ensures Inv(EmitStep(s, kind, call).0)
  {
    var e := Event(kind, call, {}, None, true);
    if InStep(s) && EmitStep(s, kind, call).1.Appended? {
      AppendedUnmatched(s.t.log, e);
      PairedAppend(s.t.log, e);
    }
  }

  lemma TerminalKeeps(s: State, status: string)
    requires Inv(s)
    ensures Inv(TerminalStep(s, status).0)
  {
    var e := Event("turn." + status, "", s.c.active, Some(status), true);
    TerminalKind(status);
    if InStep(s) && TerminalStep(s, status).1.Appended? {
      AppendedUnmatched(s.t.log, e);
      PairedAppend(s.t.log, e);
    }
  }

  lemma ForeignKeeps(s: State, op: Op)
    requires Inv(s) && op.Foreign?
    ensures Inv(Step(s, op).0)
  {
    var e := op.event.(mine := false);
    AppendedUnmatched(s.t.log, e);
    PairedAppend(s.t.log, e);
  }

  lemma StepKeeps(s: State, op: Op)
    requires Inv(s)
    ensures Inv(Step(s, op).0)
  {
    match op
    case Emit(kind, call) => EmitKeeps(s, kind, call);
    case Terminal(status) => TerminalKeeps(s, status);
    case Foreign(_) => ForeignKeeps(s, op);
  }

  // The durable log of every run: each result answers an earlier open call of
  // the same coordinator, completion leaves none open, and nothing of its own
  // follows its terminal.
  lemma {:induction false} RunKeepsLog(states: seq<State>, ops: seq<Op>, k: nat)
    requires IsRun(states, ops) && k < |states|
    ensures Inv(states[k])
  {
    if k > 0 {
      RunKeepsLog(states, ops, k - 1);
      StepKeeps(states[k - 1], ops[k - 1]);
    } else {
      assert STARTED.kind == "turn.started";
      assert Unmatched([STARTED]) == {} by { assert [STARTED][..0] == []; }
    }
  }

  // No emit of this coordinator among the first `k` steps was late.
  ghost predicate NoLateEmit(states: seq<State>, ops: seq<Op>, k: nat)
    requires k <= |ops| < |states|
  {
    forall i | 0 <= i < k && ops[i].Emit? :: Step(states[i], ops[i]).1 != Late
  }

  lemma EmitTracks(s: State, kind: string, call: string)
    requires s.c.active == Unmatched(s.t.log) && EmitStep(s, kind, call).1 != Late
    ensures EmitStep(s, kind, call).0.c.active == Unmatched(EmitStep(s, kind, call).0.t.log)
  {
    AppendedUnmatched(s.t.log, Event(kind, call, {}, None, true));
  }

  lemma TerminalTracks(s: State, status: string)
    requires s.c.active == Unmatched(s.t.log)
    ensures TerminalStep(s, status).0.c.active == Unmatched(TerminalStep(s, status).0.t.log)
  {
    TerminalKind(status);
    AppendedUnmatched(s.t.log, Event("turn." + status, "", s.c.active, Some(status), true));
  }

  lemma ForeignTracks(s: State, op: Op)
    requires s.c.active == Unmatched(s.t.log) && op.Foreign?
    ensures Step(s, op).0.c.active == Unmatched(Step(s, op).0.t.log)
  {
    AppendedUnmatched(s.t.log, op.event.(mine := false));
  }

  // Until its first late emit the active set is what the log leaves open,
  // whoever else has written.
  lemma {:induction false} ActiveIsUnmatched(states: seq<State>, ops: seq<Op>, k: nat)
    requires IsRun(states, ops) && k < |states| && NoLateEmit(states, ops, k)
    ensures states[k].c.active == Unmatched(states[k].t.log)
  {
    if k == 0 {
      assert Unmatched([STARTED]) == {} by { assert [STARTED][..0] == []; }
    } else {
      ActiveIsUnmatched(states, ops, k - 1);
      match ops[k - 1]
      case Emit(kind, call) => EmitTracks(states[k - 1], kind, call);
      case Terminal(status) => TerminalTracks(states[k - 1], status);
      case Foreign(_) => ForeignTracks(states[k - 1], ops[k - 1]);
    }
  }

  // While the log is its own, the coordinator is up to date.
  lemma {:induction false} OwnLogIsInStep(states: seq<State>, ops: seq<Op>, k: nat)
    requires IsRun(states, ops) && k < |states| && Alone(states[k].t.log)
    ensures InStep(states[k])
  {
    if k > 0 {
      var s, s' := states[k - 1], states[k];
      assert s.t.log <= s'.t.log;
      assert Alone(s.t.log) by {
        forall i | 0 <= i < |s.t.log| ensures s.t.log[i].mine { assert s'.t.log[i].mine; }
      }
      OwnLogIsInStep(states, ops, k - 1);
      RunKeepsLog(states, ops, k - 1);
      StepKeepsInStep(s, ops[k - 1]);
    } else {
      assert Unmatched([STARTED]) == {} by { assert [STARTED][..0] == []; }
    }
  }

  lemma StepKeepsInStep(s: State, op: Op)
    requires Inv(s) && InStep(s) && Alone(Step(s, op).0.t.log)
    ensures InStep(Step(s, op).0)
  {
    StepKeeps(s, op);
    if op.Foreign? { ForeignShows(s, op); }
  }

  lemma ForeignShows(s: State, op: Op)
    requires op.Foreign?
    ensures Step(s, op).0 == s || !Alone(Step(s, op).0.t.log)
  {
    var log := Step(s, op).0.t.log;
    if |log| > |s.t.log| {
      assert !log[|s.t.log|].mine;
    }
  }

  // What an event needs of the calls the log leaves open: a call is new and
  // has a name, a result and an approval wait belong to an open call, and any
  // other kind is free.
  predicate Wanted(open: set<string>, kind: string, call: string) {
    && (kind == "tool.call" ==> call != "" && call !in open)
    && (kind == "tool.result" || kind == "approval.wait" ==> call in open)
  }

  // In every run an emit gets through exactly when nobody else has written, no
  // terminal came, and the log leaves open what the event needs; then the
  // event is the last of the log, and otherwise the log stays.
  lemma EmitsIff(states: seq<State>, ops: seq<Op>, k: nat)
    requires IsRun(states, ops) && k < |ops| && ops[k].Emit?
    ensures var t, o := states[k].t, Step(states[k], ops[k]).1;
      && (o.Appended? <==> Alone(t.log) && !states[k].c.terminal && Wanted(Unmatched(t.log), ops[k].kind, ops[k].call))
      && (states[k + 1].t ==
            if o.Appended? then t.(log := t.log + [Event(ops[k].kind, ops[k].call, {}, None, true)]) else t)
      && (o.Appended? ==> o.sequence == |t.log| + 1 == states[k + 1].c.sequence)
  {
    RunKeepsLog(states, ops, k);
    if Alone(states[k].t.log) { OwnLogIsInStep(states, ops, k); }
  }

  // In every run an emit that is not refused moves the active set, even if it
  // turns out to be late, and the sequence only if it gets through.
  lemma EmitMoves(states: seq<State>, ops: seq<Op>, k: nat)
    requires IsRun(states, ops) && k < |ops| && ops[k].Emit? && Step(states[k], ops[k]).1 != Refused
    ensures var c, c', o := states[k].c, states[k + 1].c, Step(states[k], ops[k]).1;
      && !c'.terminal && c'.sequence == (if o.Appended? then c.sequence + 1 else c.sequence)
      && (c'.active ==
            if ops[k].kind == "tool.call" then c.active + {ops[k].call}
            else if ops[k].kind == "tool.result" then c.active - {ops[k].call}
            else c.active)
  {
  }

  // A terminal moves the coordinator only if it gets through.
  lemma TerminalMoves(states: seq<State>, ops: seq<Op>, k: nat)
    requires IsRun(states, ops) && k < |ops| && ops[k].Terminal?
    ensures var c, c', o := states[k].c, states[k + 1].c, Step(states[k], ops[k]).1;
      && (c' == if o.Appended? then Coordinator(c.sequence + 1, true, c.active) else c)
      && (o == Refused <==> c.terminal || (ops[k].status == "completed" && c.active != {}))
  {
  }

  // Until its first late emit the coordinator itself refuses exactly what does
  // not fit the log, and leaves everything as it was; a fitting event that
  // does not get through is late.
  lemma RefusesIff(states: seq<State>, ops: seq<Op>, k: nat)
    requires IsRun(states, ops) && k < |ops| && ops[k].Emit? && NoLateEmit(states, ops, k)
    ensures var o := Step(states[k], ops[k]).1;
      && (o == Refused <==> states[k].c.terminal || !Wanted(Unmatched(states[k].t.log), ops[k].kind, ops[k].call))
      && (o == Refused ==> states[k + 1] == states[k])
      && (o == Refused || o == Late || o.Appended?)
  {
    ActiveIsUnmatched(states, ops, k);
  }

  // In every run a terminal gets through exactly when nobody else has written,
  // it is the first, its status is known, and completion leaves no call open;
  // then it ends the turn with that status and lists the open calls.
  lemma EndsIff(states: seq<State>, ops: seq<Op>, k: nat)
    requires IsRun(states, ops) && k < |ops| && ops[k].Terminal?
    ensures var t, o, status := states[k].t, Step(states[k], ops[k]).1, ops[k].status;
      && (o.Appended? <==>
            && Alone(t.log) && !states[k].c.terminal && status in {"completed", "interrupted", "failed"}
            && (status == "completed" ==> Unmatched(t.log) == {}))
      && (states[k + 1].t ==
            if o.Appended? then Turn(status, t.log + [Event("turn." + status, "", Unmatched(t.log), Some(status), true)]) else t)
  {
    RunKeepsLog(states, ops, k);
    if Alone(states[k].t.log) { OwnLogIsInStep(states, ops, k); }
  }

  // At most the last event of a log is a terminal, whoever wrote it, and the
  // status of the turn is its status, or running if there is none.
  ghost predicate EndedOnce(t: Turn) {
    && t.log != [] && (forall i | 0 <= i < |t.log| - 1 :: t.log[i].terminal == None)
    && (t.status == match t.log[|t.log| - 1].terminal case None => "running" case Some(status) => status)
    && (t.status == "running" ==> t.log[|t.log| - 1].terminal == None)
  }

  lemma AppendEndsOnce(t: Turn, expected: nat, e: Event)
    requires EndedOnce(t)
    ensures EndedOnce(Append(t, expected, e).0)
  {
  }

  // Over every run: nothing follows a terminal event of anybody.
  lemma {:induction false} RunEndsOnce(states: seq<State>, ops: seq<Op>, k: nat)
    requires IsRun(states, ops) && k < |states|
    ensures EndedOnce(states[k].t)
  {
    if k > 0 {
      RunEndsOnce(states, ops, k - 1);
      var s, op := states[k - 1], ops[k - 1];
      match op
      case Emit(kind, call) => AppendEndsOnce(s.t, s.c.sequence, Event(kind, call, {}, None, true));
      case Terminal(status) =>
        AppendEndsOnce(s.t, s.c.sequence, Event("turn." + status, "", s.c.active, Some(status), true));
      case Foreign(e) => AppendEndsOnce(s.t, |s.t.log|, e.(mine := false));
    }
  }

  // Once the store has refused one append as late, it refuses all later ones.
  lemma {:induction false} LateForever(states: seq<State>, ops: seq<Op>, i: nat, k: nat)
    requires IsRun(states, ops) && i <= k < |ops| && !ops[i].Foreign? && Step(states[i], ops[i]).1 == Late
    ensures !ops[k].Foreign? ==> !Step(states[k], ops[k]).1.Appended?
    ensures Behind(states[k])
    decreases k
  {
    RunKeepsLog(states, ops, i);
    if i < k {
      LateForever(states, ops, i, k - 1);
    }
  }

  // After its terminal is durable the coordinator appends nothing.
  lemma {:induction false} TerminalIsLast(states: seq<State>, ops: seq<Op>, i: nat, k: nat)
    requires IsRun(states, ops) && i < k < |ops| && ops[i].Terminal? && Step(states[i], ops[i]).1.Appended?
    ensures states[k].c.terminal && (!ops[k].Foreign? ==> Step(states[k], ops[k]).1 == Refused)
    decreases k
  {
    if i + 1 < k {
      TerminalIsLast(states, ops, i, k - 1);
    }
  }

  // --- As the source writes it --------------------------------------------

  class TurnRepository {
    var turn: Turn

    constructor ()
      ensures turn == START.t
    {
      turn := Turn("running", [STARTED]);
    }

    method AppendEvent(expected: nat, e: Event) returns (o: Outcome)
      modifies this
      ensures (turn, o) == Append(old(turn), expected, e)
    {
      if turn.status != "running" || |turn.log| != expected {
        return Late;
      }
      if e.terminal.Some? && e.terminal.value !in STATUSES {
        return Invalid;
      }
      turn := Turn(if e.terminal.Some? then e.terminal.value else turn.status, turn.log + [e]);
      o := Appended(expected + 1);
    }
  }

  class TurnCoordinator {
    const repository: TurnRepository
    var sequence: nat
    var terminal: bool
    var active: set<string>

    ghost function View(): State
      reads this, repository
    {
      State(Coordinator(sequence, terminal, active), repository.turn)
    }

    constructor (repository: TurnRepository)
      ensures this.repository == repository
      ensures View().c == START.c
    {
      this.repository := repository;
      sequence, terminal, active := 1, false, {};
    }

    method Emit(kind: string, call: string) returns (o: Outcome)
      modifies this, repository
      ensures (View(), o) == EmitStep(old(View()), kind, call)
    {
      if terminal {
        return Refused;
      }
      if kind == "tool.call" {
        if call == "" || call in active {
          return Refused;
        }
        active := active + {call};
      } else if kind == "tool.result" {
        if call !in active {
          return Refused;
        }
        active := active - {call};
      } else if kind == "approval.wait" && call !in active {
        return Refused;
      }
      o := repository.AppendEvent(sequence, Event(kind, call, {}, None, true));
      if o.Appended? {
        sequence := o.sequence;
      }
    }

    method Terminate(status: string) returns (o: Outcome)
      modifies this, repository
      ensures (View(), o) == TerminalStep(old(View()), status)
    {
      if terminal {
        return Refused;
      }
      if status == "completed" && active != {} {
        return Refused;
      }
      o := repository.AppendEvent(sequence, Event("turn." + status, "", active, Some(status), true));
      if o.Appended? {
        sequence := o.sequence;
        terminal := true;
      }
    }
  }

}

/**
 * ApprovalBroker as the source writes it: an object whose methods update the
 * record table, the pending futures and the futures in place. Each method is
 * one lock-held region and is proved to compute the function of the same name
 * in ApprovalState.dfy.
 */
module ApprovalBroker {

  import opened Core
  import opened ApprovalState
  import opened ApprovalRuns
  import opened ApprovalInvariants
  import Spec = ApprovalState

  class ApprovalBroker {
    var records: map<ApprovalId, Record>
    var pending: map<ApprovalId, nat>
    var futures: seq<Future>
    const maxPerSession: nat
    const maxPerTurn: nat

    ghost function State(): Spec.Broker
      reads this
    {
      Spec.Broker(records, pending, futures, maxPerSession, maxPerTurn)
    }

    ghost predicate Valid()
      reads this
    {
      State().WellFormed() && DistinctDigests(records)
    }

    constructor (maxPerSession: nat, maxPerTurn: nat)
      requires maxPerSession > 0 && maxPerTurn > 0
      ensures Valid() && State() == Spec.Broker(map[], map[], [], maxPerSession, maxPerTurn)
    {
      records, pending, futures := map[], map[], [];
      this.maxPerSession, this.maxPerTurn := maxPerSession, maxPerTurn;
    }

    // Scan the table for the records a call matches; several or none is no match.
    method FindToolApproval(toolCall: string, digest: Digest, principal: Option<string>, session: Option<string>)
      returns (r: Option<ApprovalId>)
      ensures r == Find(records, toolCall, digest, principal, session)
    {
      ghost var all := Matching(records, toolCall, digest, principal, session);
      var todo, matches := records.Keys, {};
      while todo != {}
        invariant todo <= records.Keys && matches == all - todo
        decreases |todo|
      {
        var id :| id in todo;
        MatchingLess(all, todo, id);
        if Matches(records[id], toolCall, digest, principal, session) {
          matches := matches + {id};
        }
        todo := todo - {id};
      }
      assert matches == all;
      r := TheElement(matches);
    }

    static lemma MatchingLess(all: set<ApprovalId>, todo: set<ApprovalId>, id: ApprovalId)
      requires id in todo
      ensures all - (todo - {id}) == if id in all then all - todo + {id} else all - todo
    {
    }

    // The element of a set that has exactly one.
    static method TheElement(s: set<ApprovalId>) returns (r: Option<ApprovalId>)
      ensures r == TheOnly(s)
    {
      if |s| == 1 {
        var id :| id in s;
        Singleton(s, id);
        return Some(id);
      }
      r := None;
    }

    static lemma Singleton<T>(s: set<T>, x: T)
      requires |s| == 1 && x in s
      ensures s == {x}
    {
      assert |s - {x}| == 0;
    }

    // `newId` is the first generated identity that is not in the table.
    method RegisterToolApproval(x: Binding, now: real, created: real, newId: ApprovalId)
      returns (r: Option<ApprovalId>)
      requires Valid() && newId !in records
      modifies this
      ensures Valid() && (State(), r) == Spec.Register(old(State()), x, now, created, newId)
    {
      ghost var same := WithDigest(records, Sha256(x));
      var todo := records.Keys;
      while todo != {}
        invariant todo <= records.Keys && same <= todo && State() == old(State())
        decreases |todo|
      {
        var id :| id in todo;
        if records[id].digest == Sha256(x) {
          forall other <- same ensures other == id { assert SameDigest(records, other, id); }
          assert same == {id};
          return Some(id);
        }
        todo := todo - {id};
      }
      assert forall id <- records :: records[id].digest != Sha256(x) by {
        forall id <- records ensures id !in same {}
      }
      if |ActiveInSession(records, now, x.principal, x.session)| >= maxPerSession {
        return None;
      }
      if |ActiveInTurn(records, now, x.principal, x.session, x.turn)| >= maxPerTurn {
        return None;
      }
      DigestAdded(records, records[newId := NewRecord(newId, x, created)], newId);
      records := records[newId := NewRecord(newId, x, created)];
      r := Some(newId);
    }

    // Assign to fields of a record in the table.
    method SetRecord(id: ApprovalId, r: Record)
      requires Valid() && id in records && r.digest == records[id].digest
      modifies this
      ensures Valid() && State() == old(State()).(records := old(records)[id := r])
    {
      DigestsStayDistinct(records, records[id := r]);
      records := records[id := r];
    }

    method WaitEnter(toolCall: string, digest: Digest, now: real) returns (e: Entered)
      requires Valid()
      modifies this
      ensures Valid() && (State(), e) == Spec.WaitEnter(old(State()), toolCall, digest, now)
    {
      var found := FindToolApproval(toolCall, digest, None, None);
      if found == None {
        return Answer(DENIED);
      }
      var id := found.value;
      var r := records[id];
      if r.used || now >= r.binding.expiresAt {
        return Answer(DENIED);
      }
      if r.decision.Some? {
        SetRecord(id, r.(used := true));
        return Answer(r.decision.value);
      }
      if id !in pending {
        pending := pending[id := |futures|];
        futures := futures + [Future(id, Unresolved)];
      }
      e := Await(pending[id]);
    }

    method WaitTimeout(toolCall: string, digest: Digest)
      requires Valid()
      modifies this
      ensures Valid() && State() == Spec.WaitTimeout(old(State()), toolCall, digest)
    {
      var found := FindToolApproval(toolCall, digest, None, None);
      if found.Some? {
        SetRecord(found.value, records[found.value].(used := true));
      }
    }

    method WaitFinish(toolCall: string, digest: Digest)
      requires Valid()
      modifies this
      ensures Valid() && State() == Spec.WaitFinish(old(State()), toolCall, digest)
    {
      var found := FindToolApproval(toolCall, digest, None, None);
      if found.Some? {
        pending := pending - {found.value};
        SetRecord(found.value, records[found.value].(used := true));
      }
    }

    method Resolve(c: Claim, d: Decision, now: real) returns (ok: bool)
      requires Valid()
      modifies this
      ensures Valid() && (State(), ok) == Spec.Resolve(old(State()), c, d, now)
    {
      var found := FindToolApproval(c.toolCall, c.digest, Some(c.principal), Some(c.session));
      if found == None {
        return false;
      }
      var id := found.value;
      var r := records[id];
      if r.used || r.decision.Some? || now >= r.binding.expiresAt {
        return false;
      }
      SetRecord(id, r.(decision := Some(d)));
      if id !in pending {
        return true;
      }
      var f := pending[id];
      if !futures[f].state.Unresolved? {
        return false;
      }
      futures := futures[f := futures[f].(state := Resolved(d))];
      return true;
    }

    method ConsumeForDispatch(c: Claim, d: Decision, now: real) returns (answer: Decision)
      requires Valid()
      modifies this
      ensures Valid() && (State(), answer) == Spec.Dispatch(old(State()), c, d, now)
    {
      var found := FindToolApproval(c.toolCall, c.digest, Some(c.principal), Some(c.session));
      if found == None {
        return DENIED;
      }
      var id := found.value;
      var r := records[id];
      if r.dispatched || now >= r.binding.expiresAt {
        return DENIED;
      }
      if r.decision.Some? && r.decision.value != d {
        SetRecord(id, r.(used := true));
        return DENIED;
      }
      if r.decision == None {
        r := r.(decision := Some(d));
      }
      SetRecord(id, r.(used := true, dispatched := true));
      answer := r.decision.value;
    }

    // `committed` is the answer of the caller's commit callback.
    method ConsumeTaskDecisionAndCommit(c: Claim, approved: bool, committed: bool, now: real) returns (ok: bool)
      requires Valid()
      modifies this
      ensures Valid() && (State(), ok) == Spec.TaskCommit(old(State()), c, approved, committed, now)
    {
      var found := FindToolApproval(c.toolCall, c.digest, Some(c.principal), Some(c.session));
      if found == None {
        return false;
      }
      var id := found.value;
      var r := records[id];
      if r.used || r.dispatched || r.decision.Some? || now >= r.binding.expiresAt {
        return false;
      }
      var d := Decision(approved, false);
      SetRecord(id, r.(decision := Some(d), used := true, dispatched := true));
      if !committed {
        return false;
      }
      if id in pending && futures[pending[id]].state.Unresolved? {
        futures := futures[pending[id] := futures[pending[id]].(state := Resolved(d))];
      }
      ok := true;
    }

    // Drop one record, waking its waiter if it has one.
    method Evict(id: ApprovalId)
      requires State().WellFormed() && id in records
      modifies this
      ensures State() == Dropped(old(State()), id)
    {
      records := records - {id};
      if id in pending {
        var f := pending[id];
        pending := pending - {id};
        if futures[f].state.Unresolved? {
          futures := futures[f := futures[f].(state := Resolved(DENIED))];
        }
      }
    }

    // Evict the stale records one by one.
    method SweepExpired(now: real, ttl: real) returns (count: nat)
      requires Valid()
      modifies this
      ensures Valid() && State() == Spec.Sweep(old(State()), now, ttl)
      ensures count == |old(records)| - |records|
    {
      ghost var before := State();
      var stale := Stale(records, now, ttl);
      var todo := stale;
      count := 0;
      NoneEvicted(before);
      assert stale - todo == {};
      while todo != {}
        invariant todo <= stale && count + |todo| == |stale|
        invariant State() == Spec.Evict(before, stale - todo)
        decreases |todo|
      {
        var id :| id in todo;
        EvictOneMore(before, stale - todo, id);
        assert stale - (todo - {id}) == stale - todo + {id};
        Evict(id);
        todo := todo - {id};
        count := count + 1;
      }
      assert stale - todo == stale;
      EvictedCount(before, stale);
    }

    static lemma NoneEvicted(b: Spec.Broker)
      ensures Spec.Evict(b, {}) == b
    {
      assert DenyFutures(b, {}) == b.futures;
    }

    static lemma EvictedCount(b: Spec.Broker, gone: set<ApprovalId>)
      requires gone <= b.records.Keys && b.WellFormed() && DistinctDigests(b.records)
      ensures Spec.Evict(b, gone).WellFormed() && DistinctDigests(Spec.Evict(b, gone).records)
      ensures |b.records| == |Spec.Evict(b, gone).records| + |gone|
    {
      var left := b.records - gone;
      DigestsStayDistinct(b.records, left);
      assert b.records.Keys == left.Keys + gone;
      assert |b.records.Keys| == |left.Keys| + |gone|;
    }

    static ghost function Dropped(b: Spec.Broker, id: ApprovalId): Spec.Broker
      requires b.WellFormed()
    {
      Notify(b, id, DENIED).(records := b.records - {id}, pending := b.pending - {id})
    }

    // Evicting a set and then one more record is evicting both.
    static lemma EvictOneMore(b: Spec.Broker, gone: set<ApprovalId>, id: ApprovalId)
      requires b.WellFormed() && id in b.records && id !in gone
      ensures Spec.Evict(b, gone).WellFormed() && id in Spec.Evict(b, gone).records
      ensures Spec.Evict(b, gone + {id}) == Dropped(Spec.Evict(b, gone), id)
    {
      var e, e' := Spec.Evict(b, gone), Spec.Evict(b, gone + {id});
      var d := Dropped(e, id);
      assert e'.records == d.records;
      assert e'.pending == d.pending;
      forall f | 0 <= f < |b.futures| ensures e'.futures[f] == d.futures[f] {
        if WokenBySweep(b, gone, f) {
          assert WokenBySweep(b, gone + {id}, f);
        } else if id in b.pending && b.pending[id] == f && b.futures[f].state.Unresolved? {
          assert WokenBySweep(b, gone + {id}, f);
        }
      }
      assert e'.futures == d.futures;
    }
  }

}

/**
 * The in-memory ledger of destructive-operation approvals: binding
 * normalisation, registration, approval and one-shot consumption.
 */
module OperationLedger {

  import opened Core

  // --- Bindings -----------------------------------------------------------

  type NonEmpty = s: string | s != "" witness "x"

  // A field of a binding. `Other` is a number, boolean or collection with its
  // truth value and its text; `Hash` is the text of a SHA-256 digest, taken to
  // be injective in the mapping hashed.
  datatype Value =
    | Null
    | Text(text: string)
    | Other(truthy: bool, shown: NonEmpty)
    | Hash(payload: map<string, Value>)

  type Fields = map<string, Value>

  predicate Truthy(v: Value) {
    match v
    case Null => false
    case Text(s) => s != ""
    case Other(truthy, _) => truthy
    case Hash(_) => true
  }

  // The field, or null when it is missing.
  function Get(b: Fields, key: string): Value {
    if key in b then b[key] else Null
  }

  function Or(v: Value, w: Value): Value {
    if Truthy(v) then v else w
  }

  // str(v or "")
  function Str(v: Value): Value {
    match v
    case Null => Text("")
    case Other(truthy, s) => if truthy then Text(s) else Text("")
    case _ => v
  }

  const REQUIRED := ["principal_id", "session_id", "task_id", "workspace_id", "operation"]

  function WithParties(b: Fields): Fields {
    var requester := Str(Or(Get(b, "requester"), Get(b, "session_id")));
    var session := Str(Or(Get(b, "session_id"), requester));
    var principal := Str(Or(Get(b, "principal_id"), session));
    b["requester" := requester]["session_id" := session]["principal_id" := principal]
  }

  predicate Complete(b: Fields) {
    forall i | 0 <= i < |REQUIRED| :: Truthy(Get(b, REQUIRED[i]))
  }

  function SetDefault(b: Fields, key: string, v: Value): Fields {
    if key in b then b else b[key := v]
  }

  function ArgumentsDigest(b: Fields): Value {
    Hash(map["operation" := Get(b, "operation"), "target" := Get(b, "target"),
             "changeset_id" := Get(b, "changeset_id"), "payload_hash" := Get(b, "payload_hash")])
  }

  function ProfileDigest(b: Fields): Value {
    Hash(map["network_policy" := if "network_policy" in b then b["network_policy"] else Text("none"),
             "credential_scope" := if "credential_scope" in b then b["credential_scope"] else Text(""),
             "operation" := Get(b, "operation")])
  }

  function WithDigests(b: Fields): Fields {
    var b1 := SetDefault(b, "arguments_digest", ArgumentsDigest(b));
    SetDefault(b1, "profile_digest", ProfileDigest(b1))
  }

  // No result when a required field is missing or empty.
  function Normalize(b: Fields): Option<Fields> {
    var n := WithParties(b) - {"expiry"};
    if Complete(n) then Some(WithDigests(n)) else None
  }

  // What callers may rely on in a normalised binding.
  ghost predicate Normal(n: Fields) {
    && "expiry" !in n && "arguments_digest" in n && "profile_digest" in n
    && Complete(n)
    && (forall k | k in ["requester", "session_id", "principal_id"] :: k in n && Truthy(n[k]) && Str(n[k]) == n[k])
  }

  lemma PartiesAreTexts(b: Fields)
    requires Complete(WithParties(b) - {"expiry"})
    ensures var n := WithParties(b) - {"expiry"};
      forall k | k in ["requester", "session_id", "principal_id"] :: k in n && Truthy(n[k]) && Str(n[k]) == n[k]
  {
    var n := WithParties(b) - {"expiry"};
    assert Truthy(Get(n, REQUIRED[0])) && Truthy(Get(n, REQUIRED[1]));
  }

  lemma NormalizeIsNormal(b: Fields)
    requires Normalize(b).Some?
    ensures Normal(Normalize(b).value)
  {
    PartiesAreTexts(b);
    var n := WithParties(b) - {"expiry"};
    assert forall k | k in n :: k in WithDigests(n) && WithDigests(n)[k] == n[k];
    forall i | 0 <= i < |REQUIRED| ensures Truthy(Get(WithDigests(n), REQUIRED[i])) {
      assert Truthy(Get(n, REQUIRED[i]));
      assert REQUIRED[i] in n;
    }
  }

  lemma NormalIsFixed(n: Fields)
    requires Normal(n)
    ensures Normalize(n) == Some(n)
  {
    assert "requester" in n && "session_id" in n && "principal_id" in n by {
      assert "requester" in ["requester", "session_id", "principal_id"];
      assert "session_id" in ["requester", "session_id", "principal_id"];
      assert "principal_id" in ["requester", "session_id", "principal_id"];
    }
    assert WithParties(n) == n;
    assert n - {"expiry"} == n;
  }

  // Normalising twice is normalising once.
  lemma NormalizeIdempotent(b: Fields)
    requires Normalize(b).Some?
    ensures Normalize(Normalize(b).value) == Normalize(b)
  {
    NormalizeIsNormal(b);
    NormalIsFixed(Normalize(b).value);
  }

  // Callers need not echo the expiry: bindings that differ in it at most
  // normalise alike.
  lemma NormalizeIgnoresExpiry(b: Fields, b': Fields)
    requires b - {"expiry"} == b' - {"expiry"}
    ensures Normalize(b) == Normalize(b')
  {
    SameField(b, b', "requester");
    SameField(b, b', "session_id");
    SameField(b, b', "principal_id");
    var n, n' := WithParties(b) - {"expiry"}, WithParties(b') - {"expiry"};
    forall k ensures k in n <==> k in n' {
      SameMember(b, b', k);
    }
    forall k | k in n ensures n[k] == n'[k] {
      SameMember(b, b', k);
    }
    assert n == n';
  }

  lemma SameMember(b: Fields, b': Fields, k: string)
    requires b - {"expiry"} == b' - {"expiry"}
    ensures k != "expiry" ==> (k in b <==> k in b') && (k in b ==> b[k] == b'[k])
  {
    assert k in b - {"expiry"} <==> k in b' - {"expiry"};
    if k in b - {"expiry"} {
      assert (b - {"expiry"})[k] == (b' - {"expiry"})[k];
    }
  }

  lemma SameField(b: Fields, b': Fields, k: string)
    requires b - {"expiry"} == b' - {"expiry"} && k != "expiry"
    ensures Get(b, k) == Get(b', k)
  {
    SameMember(b, b', k);
  }

  // Exactly which bindings are refused: a required field is missing or falsy,
  // counting the session and requester as standing in for one another and
  // either as standing in for the principal.
  lemma NormalizeAccepts(b: Fields)
    ensures Normalize(b).Some? <==>
      && (Truthy(Get(b, "session_id")) || Truthy(Get(b, "requester")))
      && Truthy(Get(b, "task_id")) && Truthy(Get(b, "workspace_id")) && Truthy(Get(b, "operation"))
  {
    var n := WithParties(b) - {"expiry"};
    assert Get(n, "task_id") == Get(b, "task_id") && Get(n, "workspace_id") == Get(b, "workspace_id")
           && Get(n, "operation") == Get(b, "operation");
    assert REQUIRED[0] == "principal_id" && REQUIRED[1] == "session_id" && REQUIRED[2] == "task_id"
           && REQUIRED[3] == "workspace_id" && REQUIRED[4] == "operation";
  }

  // Exactly what a normalised binding holds. The session and the requester
  // stand in for one another, and the session for a principal not given.
  lemma NormalizeParties(b: Fields)
    requires Normalize(b).Some?
    ensures var n := Normalize(b).value;
      var session := Str(if Truthy(Get(b, "session_id")) then Get(b, "session_id") else Get(b, "requester"));
      && Get(n, "session_id") == session
      && Get(n, "requester") == Str(if Truthy(Get(b, "requester")) then Get(b, "requester") else Get(b, "session_id"))
      && Get(n, "principal_id") == (if Truthy(Get(b, "principal_id")) then Str(Get(b, "principal_id")) else session)
  {
    NormalizeAccepts(b);
  }

  // The expiry is dropped, and every field but the parties and the two digests
  // stays as it was.
  lemma NormalizeKeeps(b: Fields, k: string)
    requires Normalize(b).Some?
    requires k !in ["requester", "session_id", "principal_id", "arguments_digest", "profile_digest"]
    ensures var n := Normalize(b).value;
      if k == "expiry" then k !in n else (k in n <==> k in b) && Get(n, k) == Get(b, k)
  {
    assert k != "requester" && k != "session_id" && k != "principal_id" by {
      var parties := ["requester", "session_id", "principal_id", "arguments_digest", "profile_digest"];
      assert parties[0] in parties && parties[1] in parties && parties[2] in parties;
    }
    assert k != "arguments_digest" && k != "profile_digest" by {
      var parties := ["requester", "session_id", "principal_id", "arguments_digest", "profile_digest"];
      assert parties[3] in parties && parties[4] in parties;
    }
  }

  // The digests are kept if given and else computed over the named fields.
  lemma NormalizeDigests(b: Fields)
    requires Normalize(b).Some?
    ensures var n := Normalize(b).value;
      && Get(n, "arguments_digest") == (if "arguments_digest" in b then b["arguments_digest"] else
           Hash(map["operation" := Get(b, "operation"), "target" := Get(b, "target"),
                    "changeset_id" := Get(b, "changeset_id"), "payload_hash" := Get(b, "payload_hash")]))
      && Get(n, "profile_digest") == (if "profile_digest" in b then b["profile_digest"] else
           Hash(map["network_policy" := if "network_policy" in b then b["network_policy"] else Text("none"),
                    "credential_scope" := if "credential_scope" in b then b["credential_scope"] else Text(""),
                    "operation" := Get(b, "operation")]))
  {
    var n := WithParties(b) - {"expiry"};
    assert Get(n, "operation") == Get(b, "operation") && Get(n, "target") == Get(b, "target");
    assert Get(n, "changeset_id") == Get(b, "changeset_id") && Get(n, "payload_hash") == Get(b, "payload_hash");
  }

  // --- The ledger ---------------------------------------------------------

  datatype Entry = Entry(binding: Fields, digest: Value, expiry: real, approved: bool, used: bool)

  type Table = map<string, Entry>

  datatype Op =
    | Register(id: string, binding: Fields, expiry: real)
    | Approve(id: string, requester: string, principal: Option<string>, now: real)
    | Consume(id: string, binding: Fields, expiryReadable: bool, now: real)
    | Cancel(id: string)
    | Sweep(now: real)

  // `Raised` is a ValueError: the binding does not normalise, or its expiry is
  // no number; neither touches the ledger.
  datatype Answer = Yes | No | Raised

  function NewEntry(n: Fields, expiry: real): Entry {
    Entry(n, Hash(n), expiry, false, false)
  }

  // principal_id or requester
  function Approver(requester: string, principal: Option<string>): string {
    if principal.Some? && principal.value != "" then principal.value else requester
  }

  function StaleIn(t: Table, now: real): set<string> {
    set id | id in t && (t[id].used || now >= t[id].expiry)
  }

  function Step(t: Table, op: Op): (Table, Answer) {
    match op
    case Register(id, b, expiry) =>
      (match Normalize(b)
       case None => (t, Raised)
       case Some(n) => (t[id := NewEntry(n, expiry)], Yes))
    case Approve(id, requester, principal, now) =>
      if id !in t || t[id].used || now >= t[id].expiry
         || Get(t[id].binding, "session_id") != Text(requester)
         || Get(t[id].binding, "principal_id") != Text(Approver(requester, principal))
      then (t, No)
      else (t[id := t[id].(approved := true)], Yes)
    case Consume(id, b, readable, now) =>
      if !readable then (t, Raised) else
      (match Normalize(b)
       case None => (t, Raised)
       case Some(n) =>
         if id !in t || t[id].used then (t, No)
         else
           (t[id := t[id].(used := true)],
            if t[id].approved && now < t[id].expiry && t[id].digest == Hash(n) then Yes else No))
    case Cancel(id) => (if id in t then t[id := t[id].(used := true)] else t, Yes)
    case Sweep(now) => (t - StaleIn(t, now), Yes)
  }

  // --- Exactly what each call answers and leaves --------------------------

  // A registration is refused exactly when its binding does not normalise, and
  // otherwise replaces whatever the identity had.
  lemma RegisterAnswersIff(t: Table, id: string, b: Fields, expiry: real)
    ensures var (t', r) := Step(t, Register(id, b, expiry));
      if Normalize(b) == None then r == Raised && t' == t
      else r == Yes && t' == t[id := Entry(Normalize(b).value, Hash(Normalize(b).value), expiry, false, false)]
  {
  }

  // An approval succeeds exactly in time, in the name of the session and the
  // principal of an unused entry; who gives no principal speaks in the name of the requester.
  lemma ApproveAnswersIff(t: Table, id: string, requester: string, principal: Option<string>, now: real)
    ensures var (t', r) := Step(t, Approve(id, requester, principal, now));
      && (r == Yes <==>
            && id in t && !t[id].used && now < t[id].expiry && Get(t[id].binding, "session_id") == Text(requester)
            && (Get(t[id].binding, "principal_id") ==
                  match principal case Some(p) => Text(if p == "" then requester else p) case None => Text(requester)))
      && (r == Yes || r == No)
      && (t' == if r == Yes then t[id := t[id].(approved := true)] else t)
  {
  }

  // A consumption raises exactly when it cannot be read, spends any unused
  // entry otherwise, and succeeds exactly on an approved one in time with the
  // same normalised binding.
  lemma ConsumeAnswersIff(t: Table, id: string, b: Fields, readable: bool, now: real)
    ensures var (t', r) := Step(t, Consume(id, b, readable, now));
      && (r == Raised <==> !readable || Normalize(b) == None)
      && (r == Yes <==>
            && readable && Normalize(b).Some? && id in t && !t[id].used
            && t[id].approved && now < t[id].expiry && t[id].digest == Hash(Normalize(b).value))
      && (t' == if r != Raised && id in t then t[id := t[id].(used := true)] else t)
  {
    if id in t && t[id].used { assert t[id := t[id].(used := true)] == t; }
  }

  lemma CancelLeaves(t: Table, id: string)
    ensures Step(t, Cancel(id)).0 == if id in t then t[id := t[id].(used := true)] else t
  {
  }

  // Exactly which entries a sweep leaves, all unchanged.
  lemma SweepLeavesIff(t: Table, now: real, id: string)
    ensures var t' := Step(t, Sweep(now)).0;
      (id in t' <==> id in t && !t[id].used && now < t[id].expiry) && (id in t' ==> t'[id] == t[id])
  {
  }

  ghost predicate IsRun(tables: seq<Table>, ops: seq<Op>) {
    && |tables| == |ops| + 1 && tables[0] == map[]
    && forall i | 0 <= i < |ops| :: tables[i + 1] == Step(tables[i], ops[i]).0
  }

  // Step `op` makes a new registration of `id`.
  predicate Registers(op: Op, id: string) {
    op.Register? && op.id == id && Normalize(op.binding).Some?
  }

  predicate Succeeds(t: Table, op: Op, id: string) {
    op.Consume? && op.id == id && Step(t, op).1 == Yes
  }

  // An attempt that normalises, whatever it presents.
  predicate Attempts(op: Op, id: string) {
    op.Consume? && op.id == id && op.expiryReadable && Normalize(op.binding).Some?
  }

  // No registration of `id` in steps lo..hi.
  ghost predicate NoneBetween(ops: seq<Op>, id: string, lo: nat, hi: nat)
    requires hi <= |ops|
  {
    forall i | lo <= i < hi :: !Registers(ops[i], id)
  }

  // The registration of `id` is spent: swept away or used.
  ghost predicate Spent(t: Table, id: string) {
    id !in t || t[id].used
  }

  lemma {:induction false} SpentStays(tables: seq<Table>, ops: seq<Op>, i: nat, j: nat, id: string)
    requires IsRun(tables, ops) && i <= j < |tables| && Spent(tables[i], id) && NoneBetween(ops, id, i, j)
    ensures Spent(tables[j], id)
    decreases j
  {
    if i < j {
      SpentStays(tables, ops, i, j - 1, id);
      assert !Registers(ops[j - 1], id);
    }
  }

  // Each registration is attempted at most once with any hope: after the first
  // normalizable attempt every later one fails until a new registration.
  lemma EveryAttemptIsOneShot(tables: seq<Table>, ops: seq<Op>, i: nat, j: nat, id: string)
    requires IsRun(tables, ops) && i < j < |ops|
    requires Attempts(ops[i], id) && NoneBetween(ops, id, i, j)
    ensures !Succeeds(tables[j], ops[j], id)
  {
    SpentStays(tables, ops, i + 1, j, id);
  }

  // --- What a success rests on --------------------------------------------

  // Step `m` registered what table entry `id` holds, and nothing did since.
  ghost predicate Origin(tables: seq<Table>, ops: seq<Op>, m: nat, k: nat, id: string)
    requires k <= |ops| < |tables|
  {
    && m < k && Registers(ops[m], id) && NoneBetween(ops, id, m + 1, k)
    && id in tables[k]
    && tables[k][id].binding == Normalize(ops[m].binding).value
    && tables[k][id].digest == Hash(tables[k][id].binding)
    && tables[k][id].expiry == ops[m].expiry
  }

  // Step `a` approved the registration made at step `m`, in time and in the
  // name of its session and principal.
  ghost predicate ApprovedAt(ops: seq<Op>, m: nat, a: nat, id: string)
    requires m < a < |ops| && Registers(ops[m], id)
  {
    var n := Normalize(ops[m].binding).value;
    Approves(ops[a], id, NewEntry(n, ops[m].expiry))
  }

  lemma EntryMade(t: Table, op: Op, id: string)
    requires Registers(op, id)
    ensures Step(t, op).0 == t[id := NewEntry(Normalize(op.binding).value, op.expiry)]
  {
  }

  // What a step other than a registration of `id` does to its entry.
  lemma EntryKept(t: Table, op: Op, id: string)
    requires !Registers(op, id) && id in Step(t, op).0
    ensures id in t
    ensures Step(t, op).0[id] == t[id].(approved := Step(t, op).0[id].approved, used := Step(t, op).0[id].used)
    ensures Step(t, op).0[id].approved ==> t[id].approved || Approves(op, id, t[id])
  {
  }

  predicate Approves(op: Op, id: string, e: Entry) {
    && op.Approve? && op.id == id && op.now < e.expiry
    && Get(e.binding, "session_id") == Text(op.requester)
    && Get(e.binding, "principal_id") == Text(Approver(op.requester, op.principal))
  }

  lemma {:induction false} EntryHistory(tables: seq<Table>, ops: seq<Op>, k: nat, id: string) returns (m: nat, a: nat)
    requires IsRun(tables, ops) && k < |tables| && id in tables[k]
    ensures Origin(tables, ops, m, k, id)
    ensures tables[k][id].approved ==> m < a < k && ApprovedAt(ops, m, a, id)
  {
    var op := ops[k - 1];
    if Registers(op, id) {
      EntryMade(tables[k - 1], op, id);
      m, a := k - 1, 0;
    } else {
      EntryKept(tables[k - 1], op, id);
      m, a := EntryHistory(tables, ops, k - 1, id);
      a := HistoryGoesOn(tables, ops, k, id, m, a);
    }
  }

  // What the next step adds to the history of an entry it did not register.
  lemma HistoryGoesOn(tables: seq<Table>, ops: seq<Op>, k: nat, id: string, m: nat, a: nat) returns (a': nat)
    requires 0 < k <= |ops| < |tables| && !Registers(ops[k - 1], id)
    requires id in tables[k - 1] && id in tables[k] && Origin(tables, ops, m, k - 1, id)
    requires tables[k][id] == tables[k - 1][id].(approved := tables[k][id].approved, used := tables[k][id].used)
    requires tables[k][id].approved ==> tables[k - 1][id].approved || Approves(ops[k - 1], id, tables[k - 1][id])
    requires tables[k - 1][id].approved ==> m < a < k - 1 && ApprovedAt(ops, m, a, id)
    ensures Origin(tables, ops, m, k, id)
    ensures tables[k][id].approved ==> m < a' < k && ApprovedAt(ops, m, a', id)
  {
    a' := if Approves(ops[k - 1], id, tables[k - 1][id]) then k - 1 else a;
  }

  // A successful consumption names the one registration it consumes: it was
  // approved by its own session and principal before it expired, the consumer
  // presents an equal binding up to normalisation and is in time too.
  lemma ConsumedOnlyIfApproved(tables: seq<Table>, ops: seq<Op>, j: nat, id: string) returns (m: nat, a: nat)
    requires IsRun(tables, ops) && j < |ops| && Succeeds(tables[j], ops[j], id)
    ensures m < a < j && Registers(ops[m], id) && NoneBetween(ops, id, m + 1, j)
    ensures ApprovedAt(ops, m, a, id)
    ensures Normalize(ops[j].binding) == Normalize(ops[m].binding) && ops[j].now < ops[m].expiry
  {
    m, a := EntryHistory(tables, ops, j, id);
  }

  // Only an unspent entry is consumed, and it is spent then.
  lemma SuccessSpends(t: Table, op: Op, id: string)
    requires Succeeds(t, op, id)
    ensures !Spent(t, id) && Spent(Step(t, op).0, id)
  {
  }

  // Two successes consume two registrations.
  lemma ConsumedAtMostOnce(tables: seq<Table>, ops: seq<Op>, i: nat, j: nat, id: string)
    requires IsRun(tables, ops) && i < j < |ops|
    requires Succeeds(tables[i], ops[i], id) && Succeeds(tables[j], ops[j], id)
    ensures exists m :: i < m < j && Registers(ops[m], id)
  {
    if forall m | i < m < j :: !Registers(ops[m], id) {
      assert NoneBetween(ops, id, i + 1, j);
      SuccessSpends(tables[i], ops[i], id);
      SpentStays(tables, ops, i + 1, j, id);
      SuccessSpends(tables[j], ops[j], id);
    }
  }

  // A cancelled registration is never consumed.
  lemma CancelIsFinal(tables: seq<Table>, ops: seq<Op>, i: nat, j: nat, id: string)
    requires IsRun(tables, ops) && i < j < |ops|
    requires ops[i] == Cancel(id) && NoneBetween(ops, id, i, j)
    ensures !Succeeds(tables[j], ops[j], id)
  {
    SpentStays(tables, ops, i + 1, j, id);
  }

  // --- What the ledger owes an approval -----------------------------------

  // Step `op` neither replaces nor spends an entry of `id` that expires then.
  predicate Spares(op: Op, id: string, expiry: real) {
    match op
    case Register(i, _, _) => i != id
    case Approve(_, _, _, _) => true
    case Consume(i, _, _, _) => i != id
    case Cancel(i) => i != id
    case Sweep(now) => now < expiry
  }

  ghost predicate SparedBetween(ops: seq<Op>, id: string, expiry: real, lo: nat, hi: nat)
    requires hi <= |ops|
  {
    forall i | lo <= i < hi :: Spares(ops[i], id, expiry)
  }

  lemma SparedEntry(t: Table, op: Op, id: string)
    requires id in t && !t[id].used && Spares(op, id, t[id].expiry)
    ensures id in Step(t, op).0 && !Step(t, op).0[id].used
    ensures Step(t, op).0[id] == t[id].(approved := t[id].approved || Approves(op, id, t[id]))
  {
  }

  lemma {:induction false} SparedStays(tables: seq<Table>, ops: seq<Op>, m: nat, k: nat, id: string)
    requires IsRun(tables, ops) && m < k < |tables| && Registers(ops[m], id)
    requires SparedBetween(ops, id, ops[m].expiry, m + 1, k)
    ensures id in tables[k] && !tables[k][id].used
    ensures tables[k][id] == NewEntry(Normalize(ops[m].binding).value, ops[m].expiry).(approved := tables[k][id].approved)
    ensures forall a | m < a < k :: ApprovedAt(ops, m, a, id) ==> tables[k][id].approved
    decreases k
  {
    EntryMade(tables[m], ops[m], id);
    if m + 1 < k {
      SparedStays(tables, ops, m, k - 1, id);
      assert Spares(ops[k - 1], id, ops[m].expiry);
      SparedEntry(tables[k - 1], ops[k - 1], id);
    }
  }

  // A registration approved in its own name is consumed by the first attempt
  // that presents an equal binding in time.
  lemma ApprovedIsConsumed(tables: seq<Table>, ops: seq<Op>, m: nat, a: nat, j: nat, id: string)
    requires IsRun(tables, ops) && m < a < j < |ops| && Registers(ops[m], id)
    requires SparedBetween(ops, id, ops[m].expiry, m + 1, j) && ApprovedAt(ops, m, a, id)
    requires ops[j].Consume? && ops[j].id == id && ops[j].expiryReadable && ops[j].now < ops[m].expiry
    requires Normalize(ops[j].binding) == Normalize(ops[m].binding)
    ensures Succeeds(tables[j], ops[j], id)
  {
    SparedStays(tables, ops, m, j, id);
  }

  // The ledger as the source keeps it, a table updated in place.
  class Ledger {
    var table: Table

    constructor ()
      ensures table == map[]
    {
      table := map[];
    }

    method RegisterOperation(id: string, binding: Fields, expiry: real) returns (r: Answer)
      modifies this
      ensures (table, r) == Step(old(table), Register(id, binding, expiry))
    {
      var normalized := Normalize(binding);
      if normalized == None {
        return Raised;
      }
      table := table[id := Entry(normalized.value, Hash(normalized.value), expiry, false, false)];
      r := Yes;
    }

    method ApproveOperation(id: string, requester: string, principal: Option<string>, now: real) returns (r: Answer)
      modifies this
      ensures (table, r) == Step(old(table), Approve(id, requester, principal, now))
    {
      var approver := if principal.Some? && principal.value != "" then principal.value else requester;
      if id !in table {
        return No;
      }
      var e := table[id];
      if e.used || now >= e.expiry || Get(e.binding, "session_id") != Text(requester)
         || Get(e.binding, "principal_id") != Text(approver)
      {
        return No;
      }
      table := table[id := e.(approved := true)];
      r := Yes;
    }

    method ConsumeOperation(id: string, binding: Fields, expiryReadable: bool, now: real) returns (r: Answer)
      modifies this
      ensures (table, r) == Step(old(table), Consume(id, binding, expiryReadable, now))
    {
      if !expiryReadable {
        return Raised;
      }
      var normalized := Normalize(binding);
      if normalized == None {
        return Raised;
      }
      if id !in table || table[id].used {
        return No;
      }
      var e := table[id];
      table := table[id := e.(used := true)];
      r := if e.approved && now < e.expiry && e.digest == Hash(normalized.value) then Yes else No;
    }

    method CancelOperation(id: string)
      modifies this
      ensures table == Step(old(table), Cancel(id)).0
    {
      if id in table {
        table := table[id := table[id].(used := true)];
      }
    }

    method SweepOperations(now: real) returns (count: nat)
      modifies this
      ensures table == Step(old(table), Sweep(now)).0
      ensures count == |old(table)| - |table|
    {
      var stale := StaleIn(table, now);
      ghost var before := table;
      var todo := stale;
      count := 0;
      assert stale - todo == {};
      while todo != {}
        invariant todo <= stale && count + |todo| == |stale|
        invariant table == before - (stale - todo)
        decreases |todo|
      {
        var id :| id in todo;
        RemoveOneMore(before, stale, todo, id);
        table := table - {id};
        todo := todo - {id};
        count := count + 1;
      }
      assert stale - todo == stale;
      SweptCount(before, now);
    }
  }

  lemma RemoveOneMore(t: Table, stale: set<string>, todo: set<string>, id: string)
    requires id in todo && todo <= stale
    ensures t - (stale - (todo - {id})) == t - (stale - todo) - {id}
  {
  }

  lemma SweptCount(t: Table, now: real)
    ensures Step(t, Sweep(now)).0 == t - StaleIn(t, now)
    ensures |t| == |t - StaleIn(t, now)| + |StaleIn(t, now)|
  {
    var left := t - StaleIn(t, now);
    assert t.Keys == left.Keys + StaleIn(t, now);
    assert |t.Keys| == |left.Keys| + |StaleIn(t, now)|;
  }

}

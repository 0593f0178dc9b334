/**
 * Context compression: what every level keeps, how long the result is, and
 * the circuit breaker on the model-backed level.
 */
module ContextCompressor {

  import opened Core

  // `structured` is the durable-fact or protected-layer label in the metadata;
  // `extra` stands for the fields compression copies without looking.
  datatype Message = Message(role: string, content: string, toolCalls: seq<string>, structured: bool, extra: string)

  predicate IsSystem(m: Message) { m.role == "system" || m.structured }

  // Part of a tool exchange.
  predicate IsTool(m: Message) { m.toolCalls != [] || m.role == "tool" }

  predicate IsProtected(m: Message) { IsTool(m) || m.structured }

  predicate IsOther(m: Message) { !IsSystem(m) }

  predicate IsPlain(m: Message) { !IsProtected(m) }

  function Filter(p: Message -> bool, ms: seq<Message>): seq<Message> {
    if ms == [] then []
    else (if p(ms[0]) then [ms[0]] else []) + Filter(p, ms[1..])
  }

  // --- What the compressor is given ---------------------------------------

  // The token counter, which may raise on a text, the text of a local summary,
  // the truncation notice, and the size from which a message is truncated.
  datatype Tools = Tools(
    count: string -> Option<nat>, describe: seq<Message> -> string, notice: (nat, nat) -> string, microMax: nat)

  datatype Level = MicroCompact | ContextCollapse | AutoCompact
  datatype Result = Result(level: Level, messages: seq<Message>, replaced: nat)

  // How a call ends: with a result, or with an exception of the circuit
  // breaker or of the token counter.
  datatype Outcome = Done(result: Result) | CircuitOpen | CounterRaised

  predicate Counted(t: Tools, ms: seq<Message>) {
    forall i | 0 <= i < |ms| :: t.count(ms[i].content).Some?
  }

  function Tokens(t: Tools, ms: seq<Message>): nat
    requires Counted(t, ms)
  {
    if ms == [] then 0 else t.count(ms[0].content).value + Tokens(t, ms[1..])
  }

  // --- Groups -------------------------------------------------------------

  // System messages, middle and recent: the last four of the others are recent.
  function Others(ms: seq<Message>): seq<Message> {
    Filter(IsOther, ms)
  }

  function Middle(ms: seq<Message>): seq<Message> {
    var others := Others(ms);
    if |others| <= 4 then [] else others[..|others| - 4]
  }

  function Recent(ms: seq<Message>): seq<Message> {
    var others := Others(ms);
    if |others| <= 4 then others else others[|others| - 4..]
  }

  function Systems(ms: seq<Message>): seq<Message> { Filter(IsSystem, ms) }
  function Protected(ms: seq<Message>): seq<Message> { Filter(IsProtected, Middle(ms)) }
  function Collapsible(ms: seq<Message>): seq<Message> { Filter(IsPlain, Middle(ms)) }

  function Truncate(t: Tools, m: Message, limit: nat): Message {
    if |m.content| > limit then m.(content := m.content[..limit] + t.notice(|m.content|, limit)) else m
  }

  function Micro(t: Tools, m: Message): Message {
    Truncate(t, m, t.microMax)
  }

  function MicroAll(t: Tools, ms: seq<Message>): seq<Message> {
    if ms == [] then [] else [Micro(t, ms[0])] + MicroAll(t, ms[1..])
  }

  // How many messages truncation changed.
  function Changed(t: Tools, ms: seq<Message>): nat {
    if ms == [] then 0 else (if Micro(t, ms[0]).content != ms[0].content then 1 else 0) + Changed(t, ms[1..])
  }

  function Summary(text: string): Message {
    Message("assistant", text, [], false, "conversation-summary")
  }

  // The local summary of what is left after setting tool messages apart once
  // more; no result when counting its tokens raises.
  function Collapse(t: Tools, ms: seq<Message>): Option<seq<Message>> {
    var kept, free := Filter(IsProtected, ms), Filter(IsPlain, ms);
    if ms == [] then Some([])
    else if free == [] then Some(kept)
    else if t.count(t.describe(free)) == None then None
    else Some(kept + [Summary(t.describe(free))])
  }

  // --- One call -----------------------------------------------------------

  const FAILURE_THRESHOLD := 3

  // `model` is the summary the router returns, or nothing when it fails.
  datatype Call = Call(messages: seq<Message>, threshold: nat, model: Option<string>)

  function Assemble(ms: seq<Message>, middle: seq<Message>): seq<Message> {
    Systems(ms) + Protected(ms) + middle + Recent(ms)
  }

  function MicroMessages(t: Tools, ms: seq<Message>): seq<Message> {
    Assemble(ms, MicroAll(t, Collapsible(ms)))
  }

  // Counting the input and the truncated messages does not raise.
  predicate Countable(t: Tools, c: Call) {
    Counted(t, c.messages) && Counted(t, MicroMessages(t, c.messages))
  }

  // Truncation alone is not enough.
  predicate GoesOn(t: Tools, c: Call) {
    Countable(t, c) && Tokens(t, MicroMessages(t, c.messages)) > c.threshold && Middle(c.messages) != []
  }

  // The call reaches the model-backed level.
  predicate TriesModel(t: Tools, c: Call) {
    && GoesOn(t, c) && Collapsible(c.messages) != []
    && 2 * Tokens(t, MicroMessages(t, c.messages)) > 3 * c.threshold
  }

  // The summary of the model, if it gives one and its tokens can be counted.
  function ModelSummary(t: Tools, c: Call): Option<string> {
    if c.model.Some? && t.count(c.model.value).Some? then c.model else None
  }

  // The last resort: of the middle only the first message stays, truncated.
  function LastResort(t: Tools, ms: seq<Message>): seq<Message> {
    var middle := Protected(ms) + MicroAll(t, Collapsible(ms));
    if middle == [] then [] else [Truncate(t, middle[0], LastLimit(t))]
  }

  function LastLimit(t: Tools): nat {
    if t.microMax / 5 > 1000 then t.microMax / 5 else 1000
  }

  function Fallback(t: Tools, ms: seq<Message>): Outcome {
    var messages := Systems(ms) + LastResort(t, ms) + Recent(ms);
    if Counted(t, messages) then Done(Result(MicroCompact, messages, |LastResort(t, ms)|)) else CounterRaised
  }

  // The deterministic level and its fallback.
  function Deterministic(t: Tools, ms: seq<Message>): Outcome {
    var compacted := MicroAll(t, Collapsible(ms));
    match Collapse(t, compacted)
    case Some(x) => Done(Result(ContextCollapse, Assemble(ms, x), |compacted|))
    case None => Fallback(t, ms)
  }

  function Compress(t: Tools, failures: nat, c: Call): (nat, Outcome) {
    var ms := c.messages;
    if failures >= FAILURE_THRESHOLD then (failures, CircuitOpen)
    else if !Countable(t, c) then (failures, CounterRaised)
    else if !GoesOn(t, c) then
      (failures, Done(Result(MicroCompact, MicroMessages(t, ms), Changed(t, Collapsible(ms)))))
    else if !TriesModel(t, c) then (failures, Deterministic(t, ms))
    else
      match ModelSummary(t, c)
      case Some(text) =>
        (0, Done(Result(AutoCompact, Assemble(ms, [Summary(text)]), |MicroAll(t, Collapsible(ms))|)))
      case None =>
        if failures + 1 >= FAILURE_THRESHOLD then (failures + 1, CircuitOpen)
        else (failures + 1, Deterministic(t, ms))
  }

  // --- Filtering ----------------------------------------------------------

  lemma {:induction false} FilterAppend(p: Message -> bool, a: seq<Message>, b: seq<Message>)
    ensures Filter(p, a + b) == Filter(p, a) + Filter(p, b)
  {
    if a == [] {
      assert a + b == b;
    } else {
      assert (a + b)[0] == a[0] && (a + b)[1..] == a[1..] + b;
      FilterAppend(p, a[1..], b);
      var head := if p(a[0]) then [a[0]] else [];
      assert head + (Filter(p, a[1..]) + Filter(p, b)) == head + Filter(p, a[1..]) + Filter(p, b);
    }
  }

  lemma FilterOne(p: Message -> bool, m: Message)
    ensures Filter(p, [m]) == if p(m) then [m] else []
  {
    assert [m][1..] == [];
  }

  lemma {:induction false} FilterSize(p: Message -> bool, q: Message -> bool, ms: seq<Message>)
    requires forall m :: q(m) <==> !p(m)
    ensures |Filter(p, ms)| + |Filter(q, ms)| == |ms|
  {
    if ms != [] { FilterSize(p, q, ms[1..]); }
  }

  // Filtering by `q` what was filtered by `p`.
  lemma {:induction false} FilterTwice(p: Message -> bool, q: Message -> bool, r: Message -> bool, ms: seq<Message>)
    requires forall m :: r(m) <==> p(m) && q(m)
    ensures Filter(q, Filter(p, ms)) == Filter(r, ms)
  {
    if ms != [] {
      FilterTwice(p, q, r, ms[1..]);
      var head := if p(ms[0]) then [ms[0]] else [];
      FilterAppend(q, head, Filter(p, ms[1..]));
    }
  }

  lemma {:induction false} FilterAll(p: Message -> bool, ms: seq<Message>)
    requires forall i | 0 <= i < |ms| :: p(ms[i])
    ensures Filter(p, ms) == ms
  {
    if ms != [] { FilterAll(p, ms[1..]); }
  }

  lemma {:induction false} FilterNone(p: Message -> bool, ms: seq<Message>)
    requires forall i | 0 <= i < |ms| :: !p(ms[i])
    ensures Filter(p, ms) == []
  {
    if ms != [] { FilterNone(p, ms[1..]); }
  }

  lemma {:induction false} FilterHolds(p: Message -> bool, ms: seq<Message>, i: nat)
    requires i < |Filter(p, ms)|
    ensures p(Filter(p, ms)[i])
  {
    if ms != [] {
      if p(ms[0]) {
        if i > 0 { FilterHolds(p, ms[1..], i - 1); }
      } else {
        FilterHolds(p, ms[1..], i);
      }
    }
  }

  lemma {:induction false} MicroAllAt(t: Tools, ms: seq<Message>)
    ensures |MicroAll(t, ms)| == |ms|
    ensures forall i | 0 <= i < |ms| :: MicroAll(t, ms)[i] == Micro(t, ms[i])
  {
    if ms != [] { MicroAllAt(t, ms[1..]); }
  }

  // --- What every level keeps ---------------------------------------------

  // A tool call or result outside the system group.
  predicate IsExchange(m: Message) { IsTool(m) && !IsSystem(m) }

  // Neither group; only such messages are truncated or summarised.
  predicate IsFree(m: Message) { !IsTool(m) && !IsSystem(m) }

  ghost predicate AllFree(ms: seq<Message>) {
    forall i | 0 <= i < |ms| :: IsFree(ms[i])
  }

  ghost predicate NoSystem(ms: seq<Message>) {
    forall i | 0 <= i < |ms| :: !IsSystem(ms[i])
  }

  lemma GroupsAreOthers(ms: seq<Message>)
    ensures NoSystem(Others(ms)) && NoSystem(Middle(ms)) && NoSystem(Recent(ms))
    ensures Middle(ms) + Recent(ms) == Others(ms)
    ensures |Recent(ms)| == if |Others(ms)| <= 4 then |Others(ms)| else 4
  {
    var others := Others(ms);
    forall i | 0 <= i < |others| ensures !IsSystem(others[i]) {
      FilterHolds(IsOther, ms, i);
    }
    if |others| > 4 {
      var n := |others| - 4;
      assert others == others[..n] + others[n..];
    } else {
      assert [] + others == others;
    }
  }

  lemma {:induction false} SubsetHolds(p: Message -> bool, ms: seq<Message>)
    requires NoSystem(ms)
    ensures NoSystem(Filter(p, ms))
  {
    if ms != [] { SubsetHolds(p, ms[1..]); }
  }

  lemma CollapsibleIsFree(t: Tools, ms: seq<Message>)
    ensures AllFree(Collapsible(ms)) && AllFree(MicroAll(t, Collapsible(ms)))
    ensures |MicroAll(t, Collapsible(ms))| == |Collapsible(ms)|
  {
    GroupsAreOthers(ms);
    SubsetHolds(IsPlain, Middle(ms));
    forall i | 0 <= i < |Collapsible(ms)| ensures IsFree(Collapsible(ms)[i]) {
      FilterHolds(IsPlain, Middle(ms), i);
    }
    MicroAllAt(t, Collapsible(ms));
  }

  lemma FilterAssembled(p: Message -> bool, ms: seq<Message>, x: seq<Message>)
    ensures Filter(p, Assemble(ms, x)) ==
            Filter(p, Systems(ms)) + Filter(p, Protected(ms)) + Filter(p, x) + Filter(p, Recent(ms))
  {
    FilterAppend(p, Systems(ms) + Protected(ms) + x, Recent(ms));
    FilterAppend(p, Systems(ms) + Protected(ms), x);
    FilterAppend(p, Systems(ms), Protected(ms));
  }

  lemma SystemsKept(ms: seq<Message>, x: seq<Message>)
    requires AllFree(x)
    ensures Filter(IsSystem, Assemble(ms, x)) == Filter(IsSystem, ms)
  {
    FilterAssembled(IsSystem, ms, x);
    GroupsAreOthers(ms);
    SubsetHolds(IsProtected, Middle(ms));
    FilterTwice(IsSystem, IsSystem, IsSystem, ms);
    FilterNone(IsSystem, Protected(ms));
    FilterNone(IsSystem, x);
    FilterNone(IsSystem, Recent(ms));
  }

  lemma ExchangesKept(ms: seq<Message>, x: seq<Message>)
    requires AllFree(x)
    ensures Filter(IsExchange, Assemble(ms, x)) == Filter(IsExchange, ms)
  {
    var kept, recent := Filter(IsExchange, Protected(ms)), Filter(IsExchange, Recent(ms));
    FilterAssembled(IsExchange, ms, x);
    assert Filter(IsExchange, Systems(ms)) == [] by { SystemsAreNoExchanges(ms); }
    assert Filter(IsExchange, x) == [] by { FilterNone(IsExchange, x); }
    assert [] + kept + [] + recent == kept + recent;
    ExchangesGrouped(ms);
  }

  lemma SystemsAreNoExchanges(ms: seq<Message>)
    ensures Filter(IsExchange, Systems(ms)) == []
  {
    forall i | 0 <= i < |Systems(ms)| ensures !IsExchange(Systems(ms)[i]) { FilterHolds(IsSystem, ms, i); }
    FilterNone(IsExchange, Systems(ms));
  }

  lemma ExchangesGrouped(ms: seq<Message>)
    ensures Filter(IsExchange, Protected(ms)) + Filter(IsExchange, Recent(ms)) == Filter(IsExchange, ms)
  {
    GroupsAreOthers(ms);
    ProtectedAreExchanges(Middle(ms));
    FilterAppend(IsExchange, Middle(ms), Recent(ms));
    FilterTwice(IsOther, IsExchange, IsExchange, ms);
  }

  lemma {:induction false} ProtectedAreExchanges(ms: seq<Message>)
    requires NoSystem(ms)
    ensures Filter(IsExchange, Filter(IsProtected, ms)) == Filter(IsExchange, ms)
  {
    if ms != [] {
      ProtectedAreExchanges(ms[1..]);
      assert IsProtected(ms[0]) <==> IsExchange(ms[0]);
      FilterAppend(IsExchange, if IsProtected(ms[0]) then [ms[0]] else [], Filter(IsProtected, ms[1..]));
    }
  }

  lemma GroupSizes(ms: seq<Message>)
    ensures |ms| == |Systems(ms)| + |Protected(ms)| + |Collapsible(ms)| + |Recent(ms)|
  {
    FilterSize(IsSystem, IsOther, ms);
    FilterSize(IsProtected, IsPlain, Middle(ms));
    GroupsAreOthers(ms);
  }

  // On what a call passes to it, setting tool messages apart once more finds
  // none: the collapse is one summary of everything, if its tokens count.
  lemma CollapseIsSummary(t: Tools, ms: seq<Message>)
    ensures var compacted := MicroAll(t, Collapsible(ms));
      Collapse(t, compacted) ==
        if compacted == [] then Some([])
        else if t.count(t.describe(compacted)) == None then None
        else Some([Summary(t.describe(compacted))])
  {
    var compacted := MicroAll(t, Collapsible(ms));
    CollapsibleIsFree(t, ms);
    FilterNone(IsProtected, compacted);
    FilterAll(IsPlain, compacted);
    var none: seq<Message> := [];
    assert none + [Summary(t.describe(compacted))] == [Summary(t.describe(compacted))];
  }

  // --- The fallback -------------------------------------------------------

  // The call ends in the last resort.
  predicate FallsBack(t: Tools, failures: nat, c: Call) {
    && failures < FAILURE_THRESHOLD && GoesOn(t, c)
    && (TriesModel(t, c) ==> ModelSummary(t, c) == None && failures + 1 < FAILURE_THRESHOLD)
    && Collapse(t, MicroAll(t, Collapsible(c.messages))) == None
  }

  // It takes a token counter that raises on the text of the local summary, so
  // with a total counter the last resort is unreachable and nothing but the
  // circuit breaker raises.
  lemma TotalCounterNeverFallsBack(t: Tools, failures: nat, c: Call)
    requires forall text :: t.count(text).Some?
    ensures !FallsBack(t, failures, c) && Compress(t, failures, c).1 != CounterRaised
  {
    CollapseIsSummary(t, c.messages);
  }

  lemma MicroAllEmpty(t: Tools, ms: seq<Message>)
    ensures MicroAll(t, ms) == [] <==> ms == []
  {
  }

  // Every other result is assembled from the kept groups around free messages:
  // the truncated ones, one for one, or a single summary of all of them.
  lemma ResultShape(t: Tools, failures: nat, c: Call) returns (x: seq<Message>)
    requires Compress(t, failures, c).1.Done? && !FallsBack(t, failures, c)
    ensures var r := Compress(t, failures, c).1.result;
      && r.messages == Assemble(c.messages, x) && AllFree(x)
      && if r.level == MicroCompact then x == MicroAll(t, Collapsible(c.messages)) && |x| == |Collapsible(c.messages)|
         else |x| == (if Collapsible(c.messages) == [] then 0 else 1) && r.replaced == |Collapsible(c.messages)|
  {
    CollapsibleIsFree(t, c.messages);
    CollapseIsSummary(t, c.messages);
    MicroAllEmpty(t, Collapsible(c.messages));
    var compacted := MicroAll(t, Collapsible(c.messages));
    match Compress(t, failures, c).1.result.level
    case MicroCompact => x := compacted;
    case AutoCompact => x := [Summary(c.model.value)];
    case ContextCollapse => x := Collapse(t, compacted).value;
  }

  // Exactly which result a call gives. With at most four messages outside the
  // system group, or within the threshold, truncation is enough. Beyond one
  // and a half times the threshold the summary of the model replaces the
  // middle, if it has one that counts; otherwise a local summary does; and if
  // that does not count, the last resort.
  lemma ResultIs(t: Tools, failures: nat, c: Call)
    requires Compress(t, failures, c).1.Done?
    ensures Countable(t, c)
    ensures var ms, r := c.messages, Compress(t, failures, c).1.result;
      var tokens, limit := Tokens(t, MicroMessages(t, ms)) as real, c.threshold as real;
      var free := MicroAll(t, Collapsible(ms));
      if tokens <= limit || |Others(ms)| <= 4 then
        r == Result(MicroCompact, MicroMessages(t, ms), |Filter(m => Micro(t, m).content != m.content, Collapsible(ms))|)
      else if tokens > 1.5 * limit && Collapsible(ms) != [] && c.model.Some? && t.count(c.model.value).Some? then
        r == Result(AutoCompact, Assemble(ms, [Summary(c.model.value)]), |Collapsible(ms)|)
      else if Collapsible(ms) == [] then r == Result(ContextCollapse, Assemble(ms, []), 0)
      else if t.count(t.describe(free)).Some? then
        r == Result(ContextCollapse, Assemble(ms, [Summary(t.describe(free))]), |Collapsible(ms)|)
      else FallsBack(t, failures, c) && r == Result(MicroCompact, Systems(ms) + LastResort(t, ms) + Recent(ms), 1)
  {
    MiddleIff(c.messages);
    if GoesOn(t, c) {
      ResultBeyond(t, failures, c);
    } else {
      ResultWithin(t, failures, c);
    }
  }

  lemma ResultWithin(t: Tools, failures: nat, c: Call)
    requires Compress(t, failures, c).1.Done? && !GoesOn(t, c)
    ensures Countable(t, c)
    ensures Compress(t, failures, c).1.result ==
      Result(MicroCompact, MicroMessages(t, c.messages),
             |Filter(m => Micro(t, m).content != m.content, Collapsible(c.messages))|)
  {
    ChangedCounts(t, Collapsible(c.messages));
  }

  lemma ResultBeyond(t: Tools, failures: nat, c: Call)
    requires Compress(t, failures, c).1.Done? && GoesOn(t, c)
    ensures var ms, r := c.messages, Compress(t, failures, c).1.result;
      var free := MicroAll(t, Collapsible(ms));
      if TriesModel(t, c) && c.model.Some? && t.count(c.model.value).Some? then
        r == Result(AutoCompact, Assemble(ms, [Summary(c.model.value)]), |Collapsible(ms)|)
      else if Collapsible(ms) == [] then r == Result(ContextCollapse, Assemble(ms, []), 0)
      else if t.count(t.describe(free)).Some? then
        r == Result(ContextCollapse, Assemble(ms, [Summary(t.describe(free))]), |Collapsible(ms)|)
      else FallsBack(t, failures, c) && r == Result(MicroCompact, Systems(ms) + LastResort(t, ms) + Recent(ms), 1)
  {
    DeterministicIs(t, c.messages);
    CollapsibleIsFree(t, c.messages);
  }

  // The deterministic level on a middle that is not empty.
  lemma DeterministicIs(t: Tools, ms: seq<Message>)
    requires Middle(ms) != []
    ensures var free := MicroAll(t, Collapsible(ms));
      if Collapsible(ms) == [] then Deterministic(t, ms) == Done(Result(ContextCollapse, Assemble(ms, []), 0))
      else if t.count(t.describe(free)).Some? then
        Deterministic(t, ms) == Done(Result(ContextCollapse, Assemble(ms, [Summary(t.describe(free))]), |Collapsible(ms)|))
      else
        && Collapse(t, free) == None && Deterministic(t, ms) == Fallback(t, ms)
        && (Fallback(t, ms).Done? ==>
              Fallback(t, ms).result == Result(MicroCompact, Systems(ms) + LastResort(t, ms) + Recent(ms), 1))
  {
    CollapseIsSummary(t, ms);
    CollapsibleIsFree(t, ms);
    MicroAllEmpty(t, Collapsible(ms));
    FilterSize(IsProtected, IsPlain, Middle(ms));
  }

  lemma MiddleIff(ms: seq<Message>)
    ensures Middle(ms) == [] <==> |Others(ms)| <= 4
  {
  }

  lemma {:induction false} ChangedCounts(t: Tools, ms: seq<Message>)
    ensures Changed(t, ms) == |Filter(m => Micro(t, m).content != m.content, ms)|
  {
    if ms != [] { ChangedCounts(t, ms[1..]); }
  }

  // The last resort keeps of the middle its first message, a tool message if
  // there is one, truncated to a thousand characters or a fifth of the usual
  // limit, whichever is more.
  lemma LastResortIs(t: Tools, ms: seq<Message>)
    requires Middle(ms) != []
    ensures var limit := if t.microMax >= 5005 then t.microMax / 5 else 1000;
      LastResort(t, ms) == [Truncate(t, if Protected(ms) != [] then Protected(ms)[0] else Micro(t, Collapsible(ms)[0]), limit)]
  {
    FilterSize(IsProtected, IsPlain, Middle(ms));
    MicroAllAt(t, Collapsible(ms));
  }

  // What truncation leaves of a message: a short one as it is, of a long one
  // the beginning up to the limit and the notice, and nothing else changes.
  lemma TruncateKeeps(t: Tools, m: Message, limit: nat)
    ensures var r := Truncate(t, m, limit);
      && r.(content := m.content) == m
      && (|m.content| <= limit ==> r == m)
      && (|m.content| > limit ==>
            limit <= |r.content| && r.content[..limit] == m.content[..limit]
            && r.content[limit..] == t.notice(|m.content|, limit))
  {
  }

  lemma {:induction false} FilterHasIff(p: Message -> bool, ms: seq<Message>, m: Message)
    ensures m in Filter(p, ms) <==> m in ms && p(m)
  {
    if ms != [] {
      FilterHasIff(p, ms[1..], m);
      assert ms == [ms[0]] + ms[1..];
    }
  }

  // In the words of the source: no system message, structured fact, tool call
  // or tool result is lost but in the last resort.
  lemma KeptMessages(t: Tools, failures: nat, c: Call, m: Message)
    requires Compress(t, failures, c).1.Done? && !FallsBack(t, failures, c) && m in c.messages
    requires m.role == "system" || m.structured || m.toolCalls != [] || m.role == "tool"
    ensures m in Compress(t, failures, c).1.result.messages
  {
    var out := Compress(t, failures, c).1.result.messages;
    EveryLevelKeeps(t, failures, c);
    FilterHasIff(IsSystem, c.messages, m);
    FilterHasIff(IsExchange, c.messages, m);
    FilterHasIff(IsSystem, out, m);
    FilterHasIff(IsExchange, out, m);
  }

  // The tokens of such a result count whenever those of its summary do, so
  // building the result never raises.
  lemma ResultCounts(t: Tools, c: Call, x: seq<Message>)
    requires Countable(t, c) && Counted(t, x)
    ensures Counted(t, Assemble(c.messages, x))
  {
    var ms := c.messages;
    CountedApart(t, Systems(ms) + Protected(ms) + MicroAll(t, Collapsible(ms)), Recent(ms));
    CountedApart(t, Systems(ms) + Protected(ms), MicroAll(t, Collapsible(ms)));
    CountedApart(t, Systems(ms) + Protected(ms), x);
    CountedApart(t, Systems(ms) + Protected(ms) + x, Recent(ms));
  }

  lemma CountedApart(t: Tools, a: seq<Message>, b: seq<Message>)
    ensures Counted(t, a + b) <==> Counted(t, a) && Counted(t, b)
  {
    if Counted(t, a + b) {
      forall i | 0 <= i < |a| ensures t.count(a[i].content).Some? { assert (a + b)[i] == a[i]; }
      forall i | 0 <= i < |b| ensures t.count(b[i].content).Some? { assert (a + b)[|a| + i] == b[i]; }
    }
  }

  lemma LevelKeeps(t: Tools, failures: nat, c: Call)
    requires Compress(t, failures, c).1.Done? && !FallsBack(t, failures, c)
    ensures var out, recent := Compress(t, failures, c).1.result.messages, Recent(c.messages);
      && Filter(IsSystem, out) == Filter(IsSystem, c.messages)
      && Filter(IsExchange, out) == Filter(IsExchange, c.messages)
      && |recent| <= |out| && out[|out| - |recent|..] == recent
  {
    var x := ResultShape(t, failures, c);
    SystemsKept(c.messages, x);
    ExchangesKept(c.messages, x);
  }

  // The result is as long as the input, less the collapsed messages, plus one
  // summary if there were any; the last resort leaves one message of the middle.
  lemma ResultLength(t: Tools, failures: nat, c: Call)
    requires Compress(t, failures, c).1.Done?
    ensures var r := Compress(t, failures, c).1.result;
      var collapsed := if r.level == MicroCompact then 0 else |Collapsible(c.messages)|;
      |r.messages| ==
        if FallsBack(t, failures, c) then |c.messages| - |Middle(c.messages)| + 1
        else |c.messages| - collapsed + if collapsed > 0 then 1 else 0
  {
    GroupSizes(c.messages);
    if FallsBack(t, failures, c) {
      FilterSize(IsProtected, IsPlain, Middle(c.messages));
      CollapsibleIsFree(t, c.messages);
    } else {
      var x := ResultShape(t, failures, c);
    }
  }

  lemma FallbackFilters(p: Message -> bool, t: Tools, ms: seq<Message>)
    ensures Filter(p, Systems(ms) + LastResort(t, ms) + Recent(ms)) ==
            Filter(p, Systems(ms)) + Filter(p, LastResort(t, ms)) + Filter(p, Recent(ms))
  {
    FilterAppend(p, Systems(ms) + LastResort(t, ms), Recent(ms));
    FilterAppend(p, Systems(ms), LastResort(t, ms));
  }

  // The kind of what the last resort leaves of the middle.
  lemma LastResortKind(t: Tools, ms: seq<Message>)
    ensures Filter(IsSystem, LastResort(t, ms)) == []
    ensures Filter(IsExchange, LastResort(t, ms)) ==
            if Protected(ms) == [] then [] else [Truncate(t, Protected(ms)[0], LastLimit(t))]
  {
    var middle := Protected(ms) + MicroAll(t, Collapsible(ms));
    CollapsibleIsFree(t, ms);
    GroupsAreOthers(ms);
    SubsetHolds(IsProtected, Middle(ms));
    if middle != [] {
      var m := middle[0];
      if Protected(ms) != [] {
        FilterHolds(IsProtected, Middle(ms), 0);
        assert m == Protected(ms)[0] && IsExchange(m);
      } else {
        assert m == MicroAll(t, Collapsible(ms))[0] && IsFree(m);
      }
      var last := Truncate(t, m, LastLimit(t));
      FilterOne(IsSystem, last);
      FilterOne(IsExchange, last);
    }
  }

  // Every result keeps all system and structured-fact messages and the last
  // four others, unchanged and in order, and it keeps all tool calls and
  // results exactly unless it is a last resort with more than one of them in
  // the middle, or with one that is too long.
  lemma EveryLevelKeeps(t: Tools, failures: nat, c: Call)
    requires Compress(t, failures, c).1.Done?
    ensures var out, recent := Compress(t, failures, c).1.result.messages, Recent(c.messages);
      && Filter(IsSystem, out) == Filter(IsSystem, c.messages)
      && |recent| <= |out| && out[|out| - |recent|..] == recent
      && (Filter(IsExchange, out) == Filter(IsExchange, c.messages) <==>
            !FallsBack(t, failures, c) || Protected(c.messages) == []
            || (|Protected(c.messages)| == 1 && Truncate(t, Protected(c.messages)[0], LastLimit(t)) == Protected(c.messages)[0]))
  {
    if FallsBack(t, failures, c) {
      FallbackKeepsSystems(t, c.messages);
      FallbackExchanges(t, c.messages);
    } else {
      LevelKeeps(t, failures, c);
    }
  }

  // --- A result that loses a tool message ---------------------------------

  // Tool messages, one other message, and the four recent ones.
  ghost predicate Plainly(tools: seq<Message>, user: Message, recent: seq<Message>) {
    && (forall i | 0 <= i < |tools| :: IsExchange(tools[i]))
    && IsFree(user) && |recent| == 4 && AllFree(recent)
  }

  lemma PlainGroups(tools: seq<Message>, user: Message, recent: seq<Message>)
    requires Plainly(tools, user, recent)
    ensures var ms := tools + [user] + recent;
      Systems(ms) == [] && Middle(ms) == tools + [user] && Recent(ms) == recent
  {
    var ms := tools + [user] + recent;
    FilterNone(IsSystem, ms);
    FilterAll(IsOther, ms);
    assert ms[..|ms| - 4] == tools + [user] && ms[|ms| - 4..] == recent;
  }

  lemma PlainMiddle(tools: seq<Message>, user: Message, recent: seq<Message>)
    requires Plainly(tools, user, recent)
    ensures var ms := tools + [user] + recent; Protected(ms) == tools && Collapsible(ms) == [user]
  {
    PlainGroups(tools, user, recent);
    FilterAppend(IsProtected, tools, [user]);
    FilterAppend(IsPlain, tools, [user]);
    FilterAll(IsProtected, tools);
    FilterNone(IsProtected, [user]);
    FilterNone(IsPlain, tools);
    FilterAll(IsPlain, [user]);
  }

  lemma PlainMicro(t: Tools, tools: seq<Message>, user: Message, recent: seq<Message>)
    requires Plainly(tools, user, recent) && |user.content| <= t.microMax
    ensures var ms := tools + [user] + recent; MicroMessages(t, ms) == ms && MicroAll(t, Collapsible(ms)) == [user]
  {
    PlainGroups(tools, user, recent);
    PlainMiddle(tools, user, recent);
    MicroAllAt(t, [user]);
    assert MicroAll(t, [user]) == [user];
    assert [] + tools == tools;
  }

  lemma PlainLast(t: Tools, tools: seq<Message>, user: Message, recent: seq<Message>)
    requires Plainly(tools, user, recent) && tools != [] && |tools[0].content| <= 1000
    ensures var ms := tools + [user] + recent;
      Systems(ms) + LastResort(t, ms) + Recent(ms) == [tools[0]] + recent
  {
    PlainGroups(tools, user, recent);
    PlainMiddle(tools, user, recent);
    assert [] + [tools[0]] == [tools[0]];
  }

  lemma PlainExchanges(tools: seq<Message>, rest: seq<Message>)
    requires (forall i | 0 <= i < |tools| :: IsExchange(tools[i])) && AllFree(rest)
    ensures Filter(IsExchange, tools + rest) == tools
  {
    FilterAppend(IsExchange, tools, rest);
    FilterAll(IsExchange, tools);
    FilterNone(IsExchange, rest);
  }

  // A counter that takes every text for one token and raises on the summary.
  function PickyTools(): Tools {
    Tools((text: string) => if text == "summary" then None else Some(1),
          (ms: seq<Message>) => "summary", (size: nat, limit: nat) => "", 10000)
  }

  lemma {:induction false} OneTokenEach(ms: seq<Message>)
    requires forall i | 0 <= i < |ms| :: ms[i].content == "text"
    ensures Counted(PickyTools(), ms) && Tokens(PickyTools(), ms) == |ms|
  {
    if ms != [] { OneTokenEach(ms[1..]); }
  }

  lemma FallsBackResult(t: Tools, failures: nat, c: Call)
    requires FallsBack(t, failures, c)
    ensures Compress(t, failures, c).1 == Fallback(t, c.messages)
  {
  }

  ghost predicate AllSay(ms: seq<Message>, text: string) {
    forall i | 0 <= i < |ms| :: ms[i].content == text
  }

  lemma PickyFallsBack(tools: seq<Message>, user: Message, recent: seq<Message>)
    requires Plainly(tools, user, recent) && |tools| == 2 && AllSay(tools + [user] + recent, "text")
    ensures FallsBack(PickyTools(), 0, Call(tools + [user] + recent, 6, None))
  {
    var t, ms := PickyTools(), tools + [user] + recent;
    assert ms[2] == user;
    PlainGroups(tools, user, recent);
    PlainMicro(t, tools, user, recent);
    OneTokenEach(ms);
    CollapseIsSummary(t, ms);
  }

  // The last resort does lose tool messages: of any two in the middle, with
  // such a counter, the second goes.
  lemma LastResortLosesATool(tools: seq<Message>, user: Message, recent: seq<Message>)
    requires Plainly(tools, user, recent) && |tools| == 2 && AllSay(tools + [user] + recent, "text")
    ensures var t, c := PickyTools(), Call(tools + [user] + recent, 6, None);
      && Compress(t, 0, c).1.Done?
      && Filter(IsExchange, c.messages) == tools
      && Filter(IsExchange, Compress(t, 0, c).1.result.messages) == [tools[0]]
  {
    PickyFallsBack(tools, user, recent);
    FallsBackResult(PickyTools(), 0, Call(tools + [user] + recent, 6, None));
    PickyResult(tools, user, recent);
    Associative(tools, [user], recent);
    PlainExchanges(tools, [user] + recent);
    PlainExchanges([tools[0]], recent);
  }

  lemma PickyResult(tools: seq<Message>, user: Message, recent: seq<Message>)
    requires Plainly(tools, user, recent) && |tools| == 2 && AllSay(tools + [user] + recent, "text")
    ensures var r := Fallback(PickyTools(), tools + [user] + recent); r.Done? && r.result.messages == [tools[0]] + recent
  {
    var ms, out := tools + [user] + recent, [tools[0]] + recent;
    forall i | 0 <= i < |out| ensures out[i].content == "text" {
      assert out[i] == ms[if i == 0 then 0 else i + 2];
    }
    OneTokenEach(out);
    PlainLast(PickyTools(), tools, user, recent);
  }

  // With a total token counter every result keeps all of them.
  lemma TotalCounterKeeps(t: Tools, failures: nat, c: Call)
    requires (forall text :: t.count(text).Some?) && Compress(t, failures, c).1.Done?
    ensures Filter(IsExchange, Compress(t, failures, c).1.result.messages) == Filter(IsExchange, c.messages)
  {
    TotalCounterNeverFallsBack(t, failures, c);
    EveryLevelKeeps(t, failures, c);
  }

  lemma FallbackKeepsSystems(t: Tools, ms: seq<Message>)
    ensures Filter(IsSystem, Systems(ms) + LastResort(t, ms) + Recent(ms)) == Filter(IsSystem, ms)
  {
    FallbackFilters(IsSystem, t, ms);
    LastResortKind(t, ms);
    GroupsAreOthers(ms);
    FilterTwice(IsSystem, IsSystem, IsSystem, ms);
    FilterNone(IsSystem, Recent(ms));
  }

  lemma FallbackExchanges(t: Tools, ms: seq<Message>)
    ensures Filter(IsExchange, Systems(ms) + LastResort(t, ms) + Recent(ms)) == Filter(IsExchange, ms) <==>
            Protected(ms) == [] || (|Protected(ms)| == 1 && Truncate(t, Protected(ms)[0], LastLimit(t)) == Protected(ms)[0])
  {
    var last, rest := Filter(IsExchange, LastResort(t, ms)), Filter(IsExchange, Recent(ms));
    FallbackFilters(IsExchange, t, ms);
    SystemsAreNoExchanges(ms);
    ExchangesGrouped(ms);
    ProtectedExchanges(ms);
    LastResortKind(t, ms);
    SameFront(last, Protected(ms), rest);
    assert [] + last == last;
  }

  lemma ProtectedExchanges(ms: seq<Message>)
    ensures Filter(IsExchange, Protected(ms)) == Protected(ms)
  {
    GroupsAreOthers(ms);
    SubsetHolds(IsProtected, Middle(ms));
    forall i | 0 <= i < |Protected(ms)| ensures IsExchange(Protected(ms)[i]) { FilterHolds(IsProtected, Middle(ms), i); }
    FilterAll(IsExchange, Protected(ms));
  }

  lemma SameFront(a: seq<Message>, b: seq<Message>, rest: seq<Message>)
    ensures a + rest == b + rest <==> a == b
  {
    if a + rest == b + rest {
      assert |a| == |b|;
      assert a == (a + rest)[..|a|] && b == (b + rest)[..|b|];
    }
  }

  // --- The circuit breaker ------------------------------------------------

  // The counter after the first `n` calls of a run.
  function Counter(t: Tools, calls: seq<Call>, n: nat): nat
    requires n <= |calls|
  {
    if n == 0 then 0 else Compress(t, Counter(t, calls, n - 1), calls[n - 1]).0
  }

  // What a call that finds the circuit closed does with the model.
  datatype Attempt = Skipped | Succeeded | Failed

  function AttemptOf(t: Tools, c: Call): Attempt {
    if !TriesModel(t, c) then Skipped else if ModelSummary(t, c).Some? then Succeeded else Failed
  }

  function Attempts(t: Tools, calls: seq<Call>): seq<Attempt> {
    seq(|calls|, i requires 0 <= i < |calls| => AttemptOf(t, calls[i]))
  }

  // Failures since the last success among the first `n` attempts; calls that
  // do not get there count for nothing.
  function Streak(attempts: seq<Attempt>, n: nat): nat
    requires n <= |attempts|
  {
    if n == 0 then 0
    else match attempts[n - 1]
      case Skipped => Streak(attempts, n - 1)
      case Succeeded => 0
      case Failed => Streak(attempts, n - 1) + 1
  }

  // At some point the streak reached the threshold.
  ghost predicate Tripped(attempts: seq<Attempt>, n: nat)
    requires n <= |attempts|
  {
    exists k: nat :: k <= n && Streak(attempts, k) >= 3
  }

  lemma TrippedStep(attempts: seq<Attempt>, n: nat)
    requires 0 < n <= |attempts|
    ensures Tripped(attempts, n) <==> Tripped(attempts, n - 1) || Streak(attempts, n) >= 3
  {
  }

  lemma CounterStep(t: Tools, failures: nat, c: Call)
    ensures Compress(t, failures, c).0 ==
      if failures >= FAILURE_THRESHOLD then failures
      else match AttemptOf(t, c) case Skipped => failures case Succeeded => 0 case Failed => failures + 1
  {
  }

  // The circuit opens with the third failure in a row and no sooner, and once
  // open it never closes.
  lemma {:induction false} CircuitOpensIff(t: Tools, calls: seq<Call>, n: nat)
    requires n <= |calls|
    ensures Counter(t, calls, n) <= FAILURE_THRESHOLD
    ensures Counter(t, calls, n) == FAILURE_THRESHOLD <==> Tripped(Attempts(t, calls), n)
    ensures !Tripped(Attempts(t, calls), n) ==> Counter(t, calls, n) == Streak(Attempts(t, calls), n)
  {
    if n > 0 {
      var attempts := Attempts(t, calls);
      assert attempts[n - 1] == AttemptOf(t, calls[n - 1]);
      CircuitOpensIff(t, calls, n - 1);
      CounterStep(t, Counter(t, calls, n - 1), calls[n - 1]);
      CircuitStep(attempts, n, Counter(t, calls, n - 1), Counter(t, calls, n));
    }
  }

  lemma CircuitStep(attempts: seq<Attempt>, n: nat, before: nat, after: nat)
    requires 0 < n <= |attempts| && before <= FAILURE_THRESHOLD
    requires before == FAILURE_THRESHOLD <==> Tripped(attempts, n - 1)
    requires !Tripped(attempts, n - 1) ==> before == Streak(attempts, n - 1)
    requires after ==
      if before >= FAILURE_THRESHOLD then before
      else match attempts[n - 1] case Skipped => before case Succeeded => 0 case Failed => before + 1
    ensures after <= FAILURE_THRESHOLD
    ensures after == FAILURE_THRESHOLD <==> Tripped(attempts, n)
    ensures !Tripped(attempts, n) ==> after == Streak(attempts, n)
  {
    TrippedStep(attempts, n);
  }

  // Over every run: a call raises for the open circuit exactly when three
  // failures in a row have happened by its end.
  lemma RaisesIffTripped(t: Tools, calls: seq<Call>, n: nat)
    requires n < |calls|
    ensures Compress(t, Counter(t, calls, n), calls[n]).1 == CircuitOpen <==> Tripped(Attempts(t, calls), n + 1)
  {
    CircuitOpensIff(t, calls, n + 1);
    OpenIffCounter(t, Counter(t, calls, n), calls[n]);
  }

  lemma OpenIffCounter(t: Tools, failures: nat, c: Call)
    ensures Compress(t, failures, c).1 == CircuitOpen <==> Compress(t, failures, c).0 >= FAILURE_THRESHOLD
  {
  }

  // --- As the source writes it --------------------------------------------

  class Compressor {
    const tools: Tools
    var failures: nat

    constructor (tools: Tools)
      ensures this.tools == tools && failures == 0
    {
      this.tools := tools;
      failures := 0;
    }

    method PartitionToolPairs(ms: seq<Message>) returns (kept: seq<Message>, free: seq<Message>)
      ensures kept == Filter(IsProtected, ms) && free == Filter(IsPlain, ms)
    {
      kept, free := [], [];
      for n := 0 to |ms|
        invariant kept == Filter(IsProtected, ms[..n])
      {
        FilterOneMore(IsProtected, ms, n);
        if ms[n].toolCalls != [] || ms[n].role == "tool" || ms[n].structured {
          kept := kept + [ms[n]];
        }
      }
      for n := 0 to |ms|
        invariant free == Filter(IsPlain, ms[..n])
      {
        FilterOneMore(IsPlain, ms, n);
        if !IsProtected(ms[n]) {
          free := free + [ms[n]];
        }
      }
      assert ms[..|ms|] == ms;
    }

    // Collapse messages into one local summary.
    method CollapseAll(ms: seq<Message>) returns (r: Option<seq<Message>>)
      ensures r == Collapse(tools, ms)
    {
      if ms == [] {
        return Some([]);
      }
      var kept, free := PartitionToolPairs(ms);
      if free == [] {
        return Some(kept);
      }
      var text := tools.describe(free);
      if tools.count(text) == None {
        return None;
      }
      r := Some(kept + [Summary(text)]);
    }

    method CompressCall(c: Call) returns (r: Outcome)
      modifies this
      ensures (failures, r) == Compress(tools, old(failures), c)
    {
      if failures >= FAILURE_THRESHOLD {
        return CircuitOpen;
      }
      if !Counted(tools, c.messages) {
        return CounterRaised;
      }
      var system, middle, recent := Systems(c.messages), Middle(c.messages), Recent(c.messages);
      var kept, free := PartitionToolPairs(middle);
      var compacted := MicroAll(tools, free);
      var micro := system + kept + compacted + recent;
      if !Counted(tools, micro) {
        return CounterRaised;
      }
      var tokens := Tokens(tools, micro);
      if tokens <= c.threshold || middle == [] {
        return Done(Result(MicroCompact, micro, Changed(tools, free)));
      }
      MicroAllAt(tools, free);
      if 2 * tokens > 3 * c.threshold && compacted != [] {
        if c.model.Some? && tools.count(c.model.value).Some? {
          failures := 0;
          return Done(Result(AutoCompact, system + kept + [Summary(c.model.value)] + recent, |compacted|));
        }
        failures := failures + 1;
        if failures >= FAILURE_THRESHOLD {
          return CircuitOpen;
        }
      }
      r := Level1(c, system, kept, compacted, recent);
    }

    // The deterministic level, and what is left when it raises.
    method Level1(c: Call, system: seq<Message>, kept: seq<Message>, compacted: seq<Message>, recent: seq<Message>)
      returns (r: Outcome)
      requires system == Systems(c.messages) && kept == Protected(c.messages) && recent == Recent(c.messages)
      requires compacted == MicroAll(tools, Collapsible(c.messages))
      ensures r == Deterministic(tools, c.messages)
    {
      var collapsed := CollapseAll(compacted);
      if collapsed.Some? {
        return Done(Result(ContextCollapse, system + kept + collapsed.value + recent, |compacted|));
      }
      var middle := kept + compacted;
      var first := if middle == [] then [] else [Truncate(tools, middle[0], LastLimit(tools))];
      if !Counted(tools, system + first + recent) {
        return CounterRaised;
      }
      r := Done(Result(MicroCompact, system + first + recent, |first|));
    }
  }

  lemma FilterOneMore(p: Message -> bool, ms: seq<Message>, n: nat)
    requires n < |ms|
    ensures Filter(p, ms[..n + 1]) == Filter(p, ms[..n]) + if p(ms[n]) then [ms[n]] else []
  {
    assert ms[..n + 1] == ms[..n] + [ms[n]];
    FilterAppend(p, ms[..n], [ms[n]]);
  }

}

/**
 * Exactly which configurations of the keyed limiter bound every key in every
 * window: the runs that break the bound in all the others.
 */
module RateExact {

  import opened RateLimiter
  import opened RateRuns

  // --- Building runs ------------------------------------------------------

  datatype Trace = Trace(tables: seq<Table>, calls: seq<Call>, oks: seq<bool>)

  // The key the runs of this file are about.
  const KEY := "a"

  // A run that ends at `clock` with table `t` and let `count` calls on KEY pass
  // in the window from zero to `end`.
  ghost predicate Reaches(c: Config, r: Trace, t: Table, clock: real, end: real, count: nat) {
    && IsRun(c, r.tables, r.calls, r.oks)
    && r.tables[|r.calls|] == t
    && (forall i | 0 <= i < |r.calls| :: r.calls[i].now <= clock)
    && PassedKey(r.calls, r.oks, |r.calls|, KEY, 0.0, end) == count
  }

  lemma {:induction false} PassedPrefix(r: Trace, call: Call, ok: bool, n: nat, end: real)
    requires n <= |r.calls| == |r.oks|
    ensures PassedKey(r.calls + [call], r.oks + [ok], n, KEY, 0.0, end) == PassedKey(r.calls, r.oks, n, KEY, 0.0, end)
  {
    if n > 0 { PassedPrefix(r, call, ok, n - 1, end); }
  }

  lemma PassedLast(r: Trace, call: Call, ok: bool, end: real)
    requires |r.calls| == |r.oks| && 0.0 <= call.now <= end
    ensures PassedKey(r.calls + [call], r.oks + [ok], |r.calls| + 1, KEY, 0.0, end)
         == PassedKey(r.calls, r.oks, |r.calls|, KEY, 0.0, end) + if ok && Name(call.key) == KEY then 1 else 0
  {
    PassedPrefix(r, call, ok, |r.calls|, end);
  }

  // One more call.
  lemma Extend(c: Config, r: Trace, t: Table, clock: real, end: real, count: nat, call: Call, t': Table, ok: bool)
    returns (r': Trace)
    requires Reaches(c, r, t, clock, end, count) && clock <= call.now <= end && 0.0 <= call.now
    requires Allows(c, t, call.key, call.now, t', ok)
    ensures Reaches(c, r', t', call.now, end, if ok && Name(call.key) == KEY then count + 1 else count)
  {
    r' := Trace(r.tables + [t'], r.calls + [call], r.oks + [ok]);
    PassedLast(r, call, ok, end);
    RunExtends(c, r, t, clock, call, t', ok);
  }

  lemma RunExtends(c: Config, r: Trace, t: Table, clock: real, call: Call, t': Table, ok: bool)
    requires IsRun(c, r.tables, r.calls, r.oks) && r.tables[|r.calls|] == t
    requires (forall i | 0 <= i < |r.calls| :: r.calls[i].now <= clock) && clock <= call.now
    requires Allows(c, t, call.key, call.now, t', ok)
    ensures IsRun(c, r.tables + [t'], r.calls + [call], r.oks + [ok])
    ensures forall i | 0 <= i < |r.calls + [call]| :: (r.calls + [call])[i].now <= call.now
  {
    var tables, calls, oks := r.tables + [t'], r.calls + [call], r.oks + [ok];
    forall i | 0 <= i < |calls| ensures Allows(c, tables[i], calls[i].key, calls[i].now, tables[i + 1], oks[i]) {
      if i < |r.calls| {
        assert Allows(c, r.tables[i], r.calls[i].key, r.calls[i].now, r.tables[i + 1], r.oks[i]);
      }
    }
  }

  lemma Start(c: Config, end: real) returns (r: Trace)
    requires c.Ok()
    ensures Reaches(c, r, map[], 0.0, end, 0)
  {
    r := Trace([map[]], [], []);
  }

  // --- Spending a bucket --------------------------------------------------

  function Holding(tokens: nat, now: real): Entry {
    Entry(Bucket(tokens as real, now), now)
  }

  lemma TakeOne(l: Limit, tokens: nat, now: real)
    requires l.Ok() && 0 < tokens && tokens as real <= l.burst
    ensures Take(l, Bucket(tokens as real, now), now) == (Bucket((tokens - 1) as real, now), true)
  {
    EarnedFacts(l, now, now, now);
  }

  // All tokens of KEY go in one instant.
  lemma {:induction false} Spend(c: Config, r: Trace, t: Table, now: real, end: real, count: nat, tokens: nat)
    returns (r': Trace)
    requires Reaches(c, r, t, now, end, count) && 0.0 <= now <= end
    requires KEY in t && t[KEY] == Holding(tokens, now) && tokens as real <= c.limit.burst
    ensures Reaches(c, r', t[KEY := Holding(0, now)], now, end, count + tokens)
    decreases tokens
  {
    if tokens == 0 {
      assert t[KEY := Holding(0, now)] == t;
      return r;
    }
    var t1 := t[KEY := Holding(tokens - 1, now)];
    TakeOne(c.limit, tokens, now);
    var r1 := Extend(c, r, t, now, end, count, Call(KEY, now), t1, true);
    r' := Spend(c, r1, t1, now, end, count + 1, tokens - 1);
    assert t1[KEY := Holding(0, now)] == t[KEY := Holding(0, now)];
  }

  // A visit: KEY is admitted into what is left of the table and spends a
  // whole burst.
  lemma Visit(c: Config, r: Trace, t: Table, clock: real, now: real, end: real, count: nat, burst: nat, left: Table)
    returns (r': Trace)
    requires Reaches(c, r, t, clock, end, count) && clock <= now <= end && 0.0 <= now
    requires c.limit.burst == burst as real && burst > 0 && KEY !in left
    requires Allows(c, t, KEY, now, left[KEY := Holding(burst - 1, now)], true)
    ensures Reaches(c, r', left[KEY := Holding(0, now)], now, end, count + burst)
  {
    var t1 := left[KEY := Holding(burst - 1, now)];
    var r1 := Extend(c, r, t, clock, end, count, Call(KEY, now), t1, true);
    r' := Spend(c, r1, t1, now, end, count + 1, burst - 1);
    assert t1[KEY := Holding(0, now)] == left[KEY := Holding(0, now)];
  }

  // --- Other keys ---------------------------------------------------------

  function Other(n: nat): string {
    seq(n + 1, _ => 'b')
  }

  lemma OthersDiffer(n: nat, m: nat)
    ensures Other(n) != KEY && Name(Other(n)) == Other(n) && (Other(n) == Other(m) ==> n == m)
  {
    assert |Other(n)| == n + 1 && |Other(m)| == m + 1 && Other(n)[0] == 'b';
  }

  // Every entry was last seen at zero, and the names from `n` on are unused.
  ghost predicate Early(t: Table, n: nat) {
    && (forall k <- t :: t[k].lastSeen == 0.0)
    && (forall m: nat | n <= m :: Other(m) !in t)
  }

  lemma OtherEnters(c: Config, t: Table, n: nat) returns (t': Table, ok: bool)
    requires c.Ok() && Early(t, n) && |t| < c.maxKeys
    ensures Allows(c, t, Other(n), 0.0, t', ok)
    ensures Early(t', n + 1) && |t'| == |t| + 1 && (KEY in t ==> KEY in t')
  {
    OthersDiffer(n, n);
    assert Other(n) !in t;
    ok := Serve(c, t, Other(n), 0.0).1;
    t' := Serve(c, t, Other(n), 0.0).0;
    InsertSize(t, Other(n), t'[Other(n)]);
    forall m: nat | n + 1 <= m ensures Other(m) !in t' {
      OthersDiffer(m, n);
      assert Other(m) !in t;
    }
  }

  // Other keys fill the table.
  lemma {:induction false} FillUp(c: Config, r: Trace, t: Table, n: nat, end: real, count: nat)
    returns (r': Trace, t': Table, n': nat)
    requires c.Ok() && Reaches(c, r, t, 0.0, end, count) && 0.0 <= end
    requires Early(t, n) && KEY in t && |t| <= c.maxKeys
    ensures Reaches(c, r', t', 0.0, end, count)
    ensures Early(t', n') && KEY in t' && |t'| == c.maxKeys
    decreases c.maxKeys - |t|
  {
    if |t| == c.maxKeys {
      return r, t, n;
    }
    var t1, ok := OtherEnters(c, t, n);
    OthersDiffer(n, n);
    var r1 := Extend(c, r, t, 0.0, end, count, Call(Other(n), 0.0), t1, ok);
    r', t', n' := FillUp(c, r1, t1, n + 1, end, count);
  }

  lemma NewKeyTakes(c: Config, now: real, burst: nat)
    requires c.Ok() && c.limit.burst == burst as real && burst > 0
    ensures Take(c.limit, Full(c.limit, now), now) == (Bucket((burst - 1) as real, now), true)
  {
    TakeOne(c.limit, burst, now);
  }

  // KEY spends a burst at zero, and the table fills up.
  lemma Crowd(c: Config, end: real, burst: nat) returns (r: Trace, t: Table, n: nat)
    requires c.Ok() && c.limit.burst == burst as real && burst > 0 && 0.0 <= end
    ensures Reaches(c, r, t, 0.0, end, burst) && Early(t, n) && KEY in t && |t| == c.maxKeys
  {
    var r0 := Start(c, end);
    NewKeyTakes(c, 0.0, burst);
    var r1 := Visit(c, r0, map[], 0.0, 0.0, end, 0, burst, map[]);
    var t1: Table := map[][KEY := Holding(0, 0.0)];
    forall m: nat ensures Other(m) !in t1 { OthersDiffer(m, m); }
    assert t1.Keys == {KEY};
    r, t, n := FillUp(c, r1, t1, 0, end, burst);
  }

  // --- Pruned too early ---------------------------------------------------

  // After `gap` idle time another key takes the whole table.
  lemma PrunedAway(c: Config, t: Table, n: nat, gap: real) returns (t': Table, ok: bool)
    requires c.Ok() && Early(t, n) && |t| == c.maxKeys && gap > c.idleTTL
    ensures Allows(c, t, Other(n), gap, t', ok)
    ensures t'.Keys == {Other(n)} && t'[Other(n)].lastSeen == gap
  {
    OthersDiffer(n, n);
    assert Other(n) !in t;
    assert Pruned(c, t, gap) == map[];
    ok := Serve(c, map[], Other(n), gap).1;
    t' := Serve(c, map[], Other(n), gap).0;
  }

  // When KEY can come back.
  function Return(c: Config, gap: real): real {
    if c.maxKeys == 1 then 2.0 * gap else gap
  }

  lemma ComesBack(c: Config, t: Table, k: string, gap: real, burst: nat) returns (left: Table)
    requires c.Ok() && c.limit.burst == burst as real && burst > 0 && gap > c.idleTTL
    requires k != KEY && t.Keys == {k} && t[k].lastSeen == gap
    ensures KEY !in left
    ensures Allows(c, t, KEY, Return(c, gap), left[KEY := Holding(burst - 1, Return(c, gap))], true)
  {
    var now := Return(c, gap);
    left := Room(c, t, now);
    NewKeyTakes(c, now, burst);
    assert |t| == |t.Keys| == 1;
    if c.maxKeys == 1 {
      assert left == map[];
    }
  }

  // A whole second burst passes by the time KEY is back.
  lemma TwoBursts(c: Config, gap: real, burst: nat) returns (r: Trace, t: Table)
    requires c.Ok() && c.limit.burst == burst as real && burst > 0 && gap > c.idleTTL
    ensures Reaches(c, r, t, Return(c, gap), Return(c, gap), 2 * burst)
  {
    var end := Return(c, gap);
    var r0, t0, n := Crowd(c, end, burst);
    var t1, ok := PrunedAway(c, t0, n, gap);
    OthersDiffer(n, n);
    var r1 := Extend(c, r0, t0, 0.0, end, burst, Call(Other(n), gap), t1, ok);
    var left := ComesBack(c, t1, Other(n), gap, burst);
    r := Visit(c, r1, t1, gap, end, end, burst, burst, left);
    t := left[KEY := Holding(0, end)];
  }

  // Some idle time is too long for the limiter and too short for the bucket.
  lemma EarlyGap(c: Config) returns (gap: real)
    requires c.Ok() && !LongTTL(c)
    ensures gap > c.idleTTL && Earned(c.limit, 0.0, Return(c, gap)) < c.limit.burst
  {
    var factor := (if c.maxKeys == 1 then 2.0 else 1.0) * c.limit.rate;
    assert c.idleTTL * factor == Earned(c.limit, 0.0, Absence(c));
    gap := Between(c.idleTTL, c.limit.burst, factor);
    assert gap * factor == Earned(c.limit, 0.0, Return(c, gap));
  }

  lemma Between(a: real, b: real, factor: real) returns (x: real)
    requires factor > 0.0 && a * factor < b
    ensures a < x && x * factor < b
  {
    x := (a + b / factor) / 2.0;
    assert b / factor * factor == b;
    assert x * factor == (a * factor + b) / 2.0;
  }

  // --- Evicted ------------------------------------------------------------

  // Any entry of a table of entries of one age may be the victim.
  lemma Evicts(c: Config, t: Table, n: nat, victim: string, k: string)
    requires c.Ok() && !c.rejectNewKeys && Early(t, n) && |t| == c.maxKeys
    requires victim in t && k != "" && k !in t
    ensures Allows(c, t, k, 0.0, Serve(c, t - {victim}, k, 0.0).0, Serve(c, t - {victim}, k, 0.0).1)
  {
    assert Room(c, t, 0.0) == t;
    assert Oldest(t, victim);
    var (t', ok) := Serve(c, t - {victim}, k, 0.0);
    assert Oldest(t, victim) && (t', ok) == Serve(c, t - {victim}, k, 0.0);
  }

  // Without any time passing another key pushes KEY out, and KEY comes back
  // with a full bucket.
  lemma EvictionResets(c: Config, burst: nat) returns (r: Trace, t: Table)
    requires c.Ok() && !c.rejectNewKeys && c.limit.burst == burst as real && burst > 0
    ensures Reaches(c, r, t, 0.0, 0.0, 2 * burst)
  {
    var r0, t0, n := Crowd(c, 0.0, burst);
    OthersDiffer(n, n);
    assert Other(n) !in t0;
    Evicts(c, t0, n, KEY, Other(n));
    var (t1, ok) := Serve(c, t0 - {KEY}, Other(n), 0.0);
    var r1 := Extend(c, r0, t0, 0.0, 0.0, burst, Call(Other(n), 0.0), t1, ok);
    RemovalSize(t0, KEY);
    InsertSize(t0 - {KEY}, Other(n), t1[Other(n)]);
    forall m: nat | n + 1 <= m ensures Other(m) !in t1 {
      OthersDiffer(m, n);
      assert Other(m) !in t0;
    }
    Evicts(c, t1, n + 1, Other(n), KEY);
    NewKeyTakes(c, 0.0, burst);
    r := Visit(c, r1, t1, 0.0, 0.0, 0.0, burst, burst, t1 - {Other(n)});
    t := (t1 - {Other(n)})[KEY := Holding(0, 0.0)];
  }

  // --- The exact condition ------------------------------------------------

  // In every run no key passes more often in a window than its bucket allows.
  ghost predicate BoundsEveryKey(c: Config) {
    forall tables, calls, oks, n: nat, k, s: real, t: real
      | IsRun(c, tables, calls, oks) && n <= |calls| && s <= t
      :: PassedKey(calls, oks, n, k, s, t) as real <= c.limit.burst + Earned(c.limit, s, t)
  }

  lemma BreaksBound(c: Config, r: Trace, t: Table, end: real, count: nat)
    requires Reaches(c, r, t, end, end, count) && 0.0 <= end
    requires count as real > c.limit.burst + Earned(c.limit, 0.0, end)
    ensures !BoundsEveryKey(c)
  {
    assert PassedKey(r.calls, r.oks, |r.calls|, KEY, 0.0, end) == count;
  }

  // A limiter bounds every key exactly when it rejects new keys and a pruned
  // bucket has had the time to fill up before it can be made anew.
  lemma BoundsEveryKeyIff(ratePerMinute: int, burst: int, maxKeys: int, idleTTL: real, reject: bool)
    ensures var c := ConfigOf(ratePerMinute, burst, maxKeys, idleTTL, reject);
      BoundsEveryKey(c) <==> reject && LongTTL(c)
  {
    var c := ConfigOf(ratePerMinute, burst, maxKeys, idleTTL, reject);
    var size: nat := OrDefault(burst, 10);
    if reject && LongTTL(c) {
      RunsAreBounded(c);
    } else if reject {
      var gap := EarlyGap(c);
      var r, t := TwoBursts(c, gap, size);
      BreaksBound(c, r, t, Return(c, gap), 2 * size);
    } else {
      var r, t := EvictionResets(c, size);
      BreaksBound(c, r, t, 0.0, 2 * size);
    }
  }

  lemma RunsAreBounded(c: Config)
    requires c.rejectNewKeys && LongTTL(c)
    ensures BoundsEveryKey(c)
  {
    forall tables, calls, oks, n: nat, k, s: real, t: real
      | IsRun(c, tables, calls, oks) && n <= |calls| && s <= t
      ensures PassedKey(calls, oks, n, k, s, t) as real <= c.limit.burst + Earned(c.limit, s, t)
    {
      KeyWindowBound(c, tables, calls, oks, n, k, s, t);
    }
  }

}

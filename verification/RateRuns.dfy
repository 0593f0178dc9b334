/**
 * What the rate limiter guarantees over whole runs: the window bound of one
 * bucket, and that the bounded, pruning table answers like one that never
 * forgets a key.
 */
module RateRuns {

  import opened Core
  import opened RateLimiter

  ghost predicate Sorted(times: seq<real>) {
    forall i, j | 0 <= i < j < |times| :: times[i] <= times[j]
  }

  // --- One bucket ---------------------------------------------------------

  ghost predicate IsBucketRun(l: Limit, buckets: seq<Bucket>, times: seq<real>, oks: seq<bool>) {
    && l.Ok() && |buckets| == |times| + 1 && |oks| == |times|
    && Sorted([buckets[0].lastFill] + times) && buckets[0] == Full(l, buckets[0].lastFill)
    && forall i | 0 <= i < |times| :: (buckets[i + 1], oks[i]) == Take(l, buckets[i], times[i])
  }

  // Successful calls among the first `n`, not before `s` and not after `t`.
  ghost function Passed(times: seq<real>, oks: seq<bool>, n: nat, s: real, t: real): nat
    requires n <= |times| == |oks|
  {
    if n == 0 then 0
    else Passed(times, oks, n - 1, s, t) + if oks[n - 1] && s <= times[n - 1] <= t then 1 else 0
  }

  // What a bucket still owes a window that starts at `s` and saw `count`
  // successes so far.
  ghost predicate Covered(l: Limit, b: Bucket, s: real, count: nat) {
    if b.lastFill < s then count == 0
    else count as real + b.tokens <= l.burst + Earned(l, s, b.lastFill)
  }

  lemma CoveredStep(l: Limit, b: Bucket, now: real, s: real, count: nat)
    requires l.Ok() && BucketOk(l, b) && b.lastFill <= now && Covered(l, b, s, count)
    ensures var (b', ok) := Take(l, b, now);
      Covered(l, b', s, if ok && s <= now then count + 1 else count)
  {
    if s <= now {
      if b.lastFill < s {
        EarnedFacts(l, s, now, now);
      } else {
        EarnedFacts(l, s, b.lastFill, now);
      }
    }
  }

  lemma CoveredBound(l: Limit, b: Bucket, s: real, t: real, count: nat)
    requires l.Ok() && BucketOk(l, b) && b.lastFill <= t && s <= t && Covered(l, b, s, count)
    ensures count as real <= l.burst + Earned(l, s, t)
  {
    EarnedFacts(l, s, t, t);
    if b.lastFill >= s {
      EarnedFacts(l, s, b.lastFill, t);
      EarnedFacts(l, b.lastFill, t, t);
    }
  }

  // Tokens stay within [0, burst] in every run.
  lemma {:induction false} RunKeepsBucket(l: Limit, buckets: seq<Bucket>, times: seq<real>, oks: seq<bool>, n: nat)
    requires IsBucketRun(l, buckets, times, oks) && n <= |times|
    ensures BucketOk(l, buckets[n])
    ensures buckets[n].lastFill == if n == 0 then buckets[0].lastFill else times[n - 1]
    ensures n < |times| ==> buckets[n].lastFill <= times[n]
  {
    var all := [buckets[0].lastFill] + times;
    if n < |times| {
      assert all[n] <= all[n + 1];
    }
    if n > 0 {
      RunKeepsBucket(l, buckets, times, oks, n - 1);
      TakeKeepsBucket(l, buckets[n - 1], times[n - 1]);
    }
  }

  lemma {:induction false} RunCovered(
    l: Limit, buckets: seq<Bucket>, times: seq<real>, oks: seq<bool>, n: nat, s: real, t: real)
    requires IsBucketRun(l, buckets, times, oks) && n <= |times| && (n > 0 ==> times[n - 1] <= t)
    ensures Covered(l, buckets[n], s, Passed(times, oks, n, s, t))
  {
    RunKeepsBucket(l, buckets, times, oks, n);
    if n == 0 {
      if buckets[0].lastFill >= s { EarnedFacts(l, s, buckets[0].lastFill, buckets[0].lastFill); }
    } else {
      assert n > 1 ==> times[n - 2] <= times[n - 1] by {
        var all := [buckets[0].lastFill] + times;
        assert n > 1 ==> all[n - 1] <= all[n];
      }
      RunKeepsBucket(l, buckets, times, oks, n - 1);
      RunCovered(l, buckets, times, oks, n - 1, s, t);
      CoveredStep(l, buckets[n - 1], times[n - 1], s, Passed(times, oks, n - 1, s, t));
    }
  }

  // In every window of every run at most burst + rate * length calls succeed.
  lemma {:induction false} WindowBound(
    l: Limit, buckets: seq<Bucket>, times: seq<real>, oks: seq<bool>, n: nat, s: real, t: real)
    requires IsBucketRun(l, buckets, times, oks) && n <= |times| && s <= t
    ensures Passed(times, oks, n, s, t) as real <= l.burst + Earned(l, s, t)
  {
    if n == 0 {
      EarnedFacts(l, s, t, t);
    } else if times[n - 1] > t {
      WindowBound(l, buckets, times, oks, n - 1, s, t);
    } else {
      RunCovered(l, buckets, times, oks, n, s, t);
      RunKeepsBucket(l, buckets, times, oks, n);
      CoveredBound(l, buckets[n], s, t, Passed(times, oks, n, s, t));
    }
  }

  // --- Exactly which calls pass -------------------------------------------

  // Successful calls among j..n-1.
  ghost function PassesFrom(oks: seq<bool>, j: nat, n: nat): nat
    requires j <= n <= |oks|
    decreases n
  {
    if j == n then 0 else PassesFrom(oks, j, n - 1) + if oks[n - 1] then 1 else 0
  }

  // What the window that starts with call `j` leaves for call `n`.
  ghost function Slack(l: Limit, times: seq<real>, oks: seq<bool>, j: nat, n: nat): real
    requires j <= n < |times| == |oks|
  {
    l.burst + Earned(l, times[j], times[n]) - PassesFrom(oks, j, n) as real
  }

  lemma SlackStep(l: Limit, times: seq<real>, oks: seq<bool>, j: nat, n: nat)
    requires l.Ok() && j < n < |times| == |oks| && times[j] <= times[n - 1] <= times[n]
    ensures Slack(l, times, oks, j, n) ==
            Slack(l, times, oks, j, n - 1) + Earned(l, times[n - 1], times[n]) - if oks[n - 1] then 1.0 else 0.0
  {
    EarnedFacts(l, times[j], times[n - 1], times[n]);
  }

  // The bucket before call `n` is what is left of the refill before call n - 1.
  lemma BucketStep(l: Limit, buckets: seq<Bucket>, times: seq<real>, oks: seq<bool>, n: nat)
    requires IsBucketRun(l, buckets, times, oks) && 0 < n < |times|
    ensures times[n - 1] <= times[n] && (forall j | 0 <= j < n :: times[j] <= times[n - 1])
    ensures Refill(l, buckets[n], times[n]) ==
      (var t := Refill(l, buckets[n - 1], times[n - 1]) - (if oks[n - 1] then 1.0 else 0.0) + Earned(l, times[n - 1], times[n]);
       if t > l.burst then l.burst else t)
  {
    var all := [buckets[0].lastFill] + times;
    assert all[n] <= all[n + 1];
    forall j | 0 <= j < n ensures times[j] <= times[n - 1] { assert j < n - 1 ==> all[j + 1] <= all[n]; }
    assert (buckets[n], oks[n - 1]) == Take(l, buckets[n - 1], times[n - 1]);
  }

  // No window leaves less than the tokens there are.
  lemma {:induction false} LevelWithin(l: Limit, buckets: seq<Bucket>, times: seq<real>, oks: seq<bool>, j: nat, n: nat)
    requires IsBucketRun(l, buckets, times, oks) && j <= n < |times|
    ensures Refill(l, buckets[n], times[n]) <= Slack(l, times, oks, j, n)
    decreases n
  {
    if j == n {
      EarnedFacts(l, times[n], times[n], times[n]);
    } else {
      LevelWithin(l, buckets, times, oks, j, n - 1);
      BucketStep(l, buckets, times, oks, n);
      SlackStep(l, times, oks, j, n);
    }
  }

  // Some window leaves exactly the tokens there are.
  lemma {:induction false} LevelReached(l: Limit, buckets: seq<Bucket>, times: seq<real>, oks: seq<bool>, n: nat)
    returns (j: nat)
    requires IsBucketRun(l, buckets, times, oks) && n < |times|
    ensures j <= n && Refill(l, buckets[n], times[n]) == Slack(l, times, oks, j, n)
  {
    EarnedFacts(l, times[n], times[n], times[n]);
    if n == 0 {
      var all := [buckets[0].lastFill] + times;
      assert all[0] <= all[1];
      EarnedFacts(l, buckets[0].lastFill, times[0], times[0]);
      j := 0;
    } else {
      BucketStep(l, buckets, times, oks, n);
      if Refill(l, buckets[n], times[n]) == l.burst {
        j := n;
      } else {
        j := LevelReached(l, buckets, times, oks, n - 1);
        SlackStep(l, times, oks, j, n);
      }
    }
  }

  // Call `n` on top of the passes since call `j` stays within their window.
  ghost predicate Affords(l: Limit, times: seq<real>, oks: seq<bool>, j: nat, n: nat)
    requires j <= n < |times| == |oks|
  {
    PassesFrom(oks, j, n) as real + 1.0 <= l.burst + Earned(l, times[j], times[n])
  }

  lemma AffordsIff(l: Limit, times: seq<real>, oks: seq<bool>, j: nat, n: nat)
    requires j <= n < |times| == |oks|
    ensures Affords(l, times, oks, j, n) <==> Slack(l, times, oks, j, n) >= 1.0
  {
  }

  lemma PassesAtLevel(l: Limit, buckets: seq<Bucket>, times: seq<real>, oks: seq<bool>, n: nat)
    requires IsBucketRun(l, buckets, times, oks) && n < |times|
    ensures oks[n] <==> Refill(l, buckets[n], times[n]) >= 1.0
  {
    assert (buckets[n + 1], oks[n]) == Take(l, buckets[n], times[n]);
  }

  // The converse of the window bound: in every run a call passes exactly when
  // it breaks the bound of no window that ends with it. So elapsed time counts
  // down to the smallest gap, and nobody is refused without need.
  lemma PassesIff(l: Limit, buckets: seq<Bucket>, times: seq<real>, oks: seq<bool>, n: nat)
    requires IsBucketRun(l, buckets, times, oks) && n < |times|
    ensures oks[n] <==> forall j | 0 <= j <= n :: Affords(l, times, oks, j, n)
  {
    PassesAtLevel(l, buckets, times, oks, n);
    if oks[n] {
      forall j | 0 <= j <= n ensures Affords(l, times, oks, j, n) {
        LevelWithin(l, buckets, times, oks, j, n);
        AffordsIff(l, times, oks, j, n);
      }
    } else {
      var j := LevelReached(l, buckets, times, oks, n);
      AffordsIff(l, times, oks, j, n);
    }
  }

  // The clock reading before call `n`.
  function Previous(buckets: seq<Bucket>, times: seq<real>, n: nat): real
    requires n < |times| < |buckets|
  {
    if n == 0 then buckets[0].lastFill else times[n - 1]
  }

  // A caller that leaves time for one token between its calls is never
  // refused, in any run.
  lemma PacedCallerPasses(l: Limit, buckets: seq<Bucket>, times: seq<real>, oks: seq<bool>, n: nat)
    requires IsBucketRun(l, buckets, times, oks) && n < |times|
    ensures Earned(l, Previous(buckets, times, n), times[n]) >= 1.0 ==> oks[n]
  {
    RunKeepsBucket(l, buckets, times, oks, n);
    assert (buckets[n + 1], oks[n]) == Take(l, buckets[n], times[n]);
  }

  // --- The bounded table --------------------------------------------------

  datatype Call = Call(key: string, now: real)

  ghost predicate Chronological(calls: seq<Call>) {
    forall i, j | 0 <= i < j < |calls| :: calls[i].now <= calls[j].now
  }

  ghost predicate IsRun(c: Config, tables: seq<Table>, calls: seq<Call>, oks: seq<bool>) {
    && c.Ok() && |tables| == |calls| + 1 && |oks| == |calls|
    && tables[0] == map[] && Chronological(calls)
    && forall i | 0 <= i < |calls| :: Allows(c, tables[i], calls[i].key, calls[i].now, tables[i + 1], oks[i])
  }

  // --- What a call does to the table --------------------------------------

  // Settings that are not positive fall back to 60 a minute, a burst of ten,
  // 4096 keys and ten minutes.
  lemma ConfigDefaults(ratePerMinute: int, burst: int, maxKeys: int, idleTTL: real, reject: bool)
    ensures var c := ConfigOf(ratePerMinute, burst, maxKeys, idleTTL, reject);
      && c.limit.rate * 60.0 == (if ratePerMinute > 0 then ratePerMinute else 60) as real
      && c.limit.burst == (if burst > 0 then burst else 10) as real
      && c.maxKeys == (if maxKeys > 0 then maxKeys else 4096)
      && c.idleTTL == (if idleTTL > 0.0 then idleTTL else 600.0) && c.rejectNewKeys == reject
  {
  }

  // A call without a key is one on the key "unknown".
  lemma EmptyKeyIsUnknown(c: Config, t: Table, now: real, t': Table, ok: bool)
    ensures Allows(c, t, "", now, t', ok) <==> Allows(c, t, "unknown", now, t', ok)
  {
  }

  // The keys seen within the idle time.
  ghost function Recent(c: Config, t: Table, now: real): set<string> {
    set k | k in t && now <= t[k].lastSeen + c.idleTTL
  }

  // A call takes from the bucket of its key, a full one if it has none.
  ghost predicate Served(c: Config, t: Table, key: string, now: real, t': Table, ok: bool) {
    && key in t' && t'[key].lastSeen == now
    && (t'[key].bucket, ok) == Take(c.limit, if key in t then t[key].bucket else Bucket(c.limit.burst, now), now)
  }

  // The call is served from `base`, what is left of the table.
  lemma ServeLeaves(c: Config, t: Table, base: Table, key: string, now: real)
    requires forall j <- base :: j in t && base[j] == t[j]
    requires key in t ==> key in base
    ensures var (t', ok) := Serve(c, base, key, now);
      t'.Keys == base.Keys + {key} && Served(c, t, key, now, t', ok) && forall j | j in t' && j != key :: j in t && t'[j] == t[j]
  {
  }

  lemma RoomIsRecent(c: Config, t: Table, now: real)
    ensures |t| >= c.maxKeys ==> Room(c, t, now).Keys == Recent(c, t, now) && |Room(c, t, now)| == |Recent(c, t, now)|
    ensures |t| < c.maxKeys ==> Room(c, t, now) == t
    ensures forall j <- Room(c, t, now) :: j in t && Room(c, t, now)[j] == t[j]
  {
    var room := Room(c, t, now);
    if |t| >= c.maxKeys {
      assert room.Keys == Recent(c, t, now);
      assert |room| == |room.Keys|;
    }
  }

  // Exactly which keys a call leaves, each as it was: nothing is dropped while
  // there is room or the key is known; otherwise all idle keys go, and if that
  // makes no room the call is refused or the key longest not seen goes too.
  ghost predicate Leaves(c: Config, t: Table, key: string, now: real, t': Table, ok: bool) {
    var recent := Recent(c, t, now);
    && (forall j | j in t' && j != key :: j in t && t'[j] == t[j])
    && if key in t || |t| < c.maxKeys then t'.Keys == t.Keys + {key} && Served(c, t, key, now, t', ok)
       else if |recent| < c.maxKeys then t'.Keys == recent + {key} && Served(c, t, key, now, t', ok)
       else if c.rejectNewKeys then t'.Keys == recent && !ok
       else exists victim :: LongestUnseen(t, recent, victim)
              && t'.Keys == recent - {victim} + {key} && Served(c, t, key, now, t', ok)
  }

  ghost predicate LongestUnseen(t: Table, keys: set<string>, k: string)
    requires keys <= t.Keys
  {
    k in keys && forall j <- keys :: t[k].lastSeen <= t[j].lastSeen
  }

  lemma CallLeaves(c: Config, t: Table, key: string, now: real, t': Table, ok: bool)
    requires c.Ok() && key != "" && Allows(c, t, key, now, t', ok)
    ensures Leaves(c, t, key, now, t', ok)
  {
    var room := Room(c, t, now);
    RoomIsRecent(c, t, now);
    if key in t {
      ServeLeaves(c, t, t, key, now);
    } else if |room| < c.maxKeys {
      ServeLeaves(c, t, room, key, now);
    } else if !c.rejectNewKeys {
      EvictionLeaves(c, t, key, now, t', ok);
    }
  }

  lemma EvictionLeaves(c: Config, t: Table, key: string, now: real, t': Table, ok: bool)
    requires c.Ok() && key != "" && Allows(c, t, key, now, t', ok)
    requires key !in t && |Room(c, t, now)| >= c.maxKeys && !c.rejectNewKeys
    ensures Leaves(c, t, key, now, t', ok)
  {
    var room := Room(c, t, now);
    RoomIsRecent(c, t, now);
    RoomIsSmaller(c, t, now);
    var victim :| Oldest(room, victim) && (t', ok) == Serve(c, room - {victim}, key, now);
    ServeLeaves(c, t, room - {victim}, key, now);
    assert (room - {victim}).Keys == Recent(c, t, now) - {victim};
    assert LongestUnseen(t, Recent(c, t, now), victim);
  }

  // The table never holds more than maxKeys entries, in either mode.
  lemma {:induction false} TableIsBounded(c: Config, tables: seq<Table>, calls: seq<Call>, oks: seq<bool>, n: nat)
    requires IsRun(c, tables, calls, oks) && n < |tables|
    ensures |tables[n]| <= c.maxKeys
  {
    if n > 0 {
      TableIsBounded(c, tables, calls, oks, n - 1);
      var t, k, now := tables[n - 1], Name(calls[n - 1].key), calls[n - 1].now;
      var room := Room(c, t, now);
      RoomIsSmaller(c, t, now);
      if k in t {
        InsertSize(t, k, tables[n][k]);
      } else if |room| < c.maxKeys {
        InsertSize(room, k, tables[n][k]);
      } else if !c.rejectNewKeys {
        var victim :| Oldest(room, victim) && (tables[n], oks[n - 1]) == Serve(c, room - {victim}, k, now);
        RemovalSize(room, victim);
        InsertSize(room - {victim}, k, tables[n][k]);
      }
    }
  }

  // --- The table that never forgets ---------------------------------------

  type Memory = map<string, Bucket>

  function ServeUnbounded(l: Limit, u: Memory, k: string, now: real): (Memory, bool) {
    var (b', ok) := Take(l, if k in u then u[k] else Full(l, now), now);
    (u[k := b'], ok)
  }

  // What it holds after the first `n` calls; rejected calls do not reach it.
  ghost function Unbounded(c: Config, tables: seq<Table>, calls: seq<Call>, n: nat): Memory
    requires n <= |calls| < |tables|
  {
    if n == 0 then map[]
    else
      var u, call := Unbounded(c, tables, calls, n - 1), calls[n - 1];
      if Rejects(c, tables[n - 1], call.key, call.now) then u
      else ServeUnbounded(c.limit, u, Name(call.key), call.now).0
  }

  // The bucket would be full at every reading from `clock` on.
  ghost predicate Rested(l: Limit, b: Bucket, clock: real) {
    b.tokens + Earned(l, b.lastFill, clock) >= l.burst
  }

  ghost predicate MemoryOk(l: Limit, u: Memory, clock: real) {
    forall k <- u :: BucketOk(l, u[k]) && u[k].lastFill <= clock
  }

  // With room for one key, a key that was pushed out comes back only after the
  // key that took its place has been idle too.
  ghost predicate Displaced(c: Config, t: Table, b: Bucket) {
    c.maxKeys == 1 && t != map[] && forall h <- t :: t[h].lastSeen - b.lastFill > c.idleTTL
  }

  // The bounded table agrees with the memory on its own keys, and every key it
  // dropped has rested or will have by the time it can come back.
  ghost predicate Agree(c: Config, t: Table, u: Memory, clock: real) {
    && MemoryOk(c.limit, u, clock)
    && (forall k <- t :: k in u && u[k] == t[k].bucket && t[k].lastSeen == u[k].lastFill)
    && (forall k <- u :: k in t || Rested(c.limit, u[k], clock) || Displaced(c, t, u[k]))
  }

  // The shortest time between two visits of a key that was pruned in between.
  function Absence(c: Config): real {
    if c.maxKeys == 1 then 2.0 * c.idleTTL else c.idleTTL
  }

  // A pruned bucket has had the time to fill up.
  ghost predicate LongTTL(c: Config) {
    Earned(c.limit, 0.0, Absence(c)) >= c.limit.burst
  }

  lemma AbsentIsRested(c: Config, b: Bucket, now: real)
    requires c.Ok() && LongTTL(c) && BucketOk(c.limit, b) && now - b.lastFill > Absence(c)
    ensures Rested(c.limit, b, now)
  {
    var gap := now - b.lastFill - Absence(c);
    assert gap * c.limit.rate >= 0.0;
    assert Earned(c.limit, b.lastFill, now) == Absence(c) * c.limit.rate + gap * c.limit.rate;
  }

  lemma RestedStays(l: Limit, b: Bucket, clock: real, now: real)
    requires l.Ok() && b.lastFill <= clock <= now && Rested(l, b, clock)
    ensures Rested(l, b, now)
  {
    EarnedFacts(l, b.lastFill, clock, now);
    EarnedFacts(l, clock, now, now);
  }

  // A rested bucket and a new one answer alike and become alike.
  lemma RestedIsFull(l: Limit, b: Bucket, now: real)
    requires l.Ok() && b.lastFill <= now && Rested(l, b, now)
    ensures Take(l, b, now) == Take(l, Full(l, now), now)
  {
    EarnedFacts(l, now, now, now);
  }

  lemma AgreeLater(c: Config, t: Table, u: Memory, clock: real, now: real)
    requires c.Ok() && Agree(c, t, u, clock) && clock <= now
    ensures Agree(c, t, u, now)
  {
    forall k | k in u && Rested(c.limit, u[k], clock) ensures Rested(c.limit, u[k], now) {
      RestedStays(c.limit, u[k], clock, now);
    }
  }

  lemma AgreeRoom(c: Config, t: Table, u: Memory, now: real)
    requires c.Ok() && LongTTL(c) && c.maxKeys > 1 && Agree(c, t, u, now)
    ensures Agree(c, Room(c, t, now), u, now)
  {
    forall k | k in u && k in t && k !in Room(c, t, now) ensures Rested(c.limit, u[k], now) {
      AbsentIsRested(c, u[k], now);
    }
  }

  lemma AgreeServe(c: Config, t: Table, u: Memory, k: string, now: real)
    requires c.Ok() && Agree(c, t, u, now) && (k in t || k !in u || Rested(c.limit, u[k], now))
    ensures var (t', ok) := Serve(c, t, k, now); var (u', ok') := ServeUnbounded(c.limit, u, k, now);
      ok == ok' && Agree(c, t', u', now)
  {
    if k in u {
      TakeKeepsBucket(c.limit, u[k], now);
      if k !in t { RestedIsFull(c.limit, u[k], now); }
    } else {
      TakeKeepsBucket(c.limit, Full(c.limit, now), now);
    }
  }

  // With room for one key: a new key takes the place of the idle one.
  lemma AgreeDisplace(c: Config, t: Table, u: Memory, k: string, now: real)
    requires c.Ok() && LongTTL(c) && c.maxKeys == 1 && Agree(c, t, u, now) && k !in t
    requires forall h <- t :: Idle(c, t[h], now)
    ensures var (t', ok) := Serve(c, map[], k, now); var (u', ok') := ServeUnbounded(c.limit, u, k, now);
      ok == ok' && Agree(c, t', u', now)
  {
    if k in u {
      if !Rested(c.limit, u[k], now) {
        var h :| h in t;
        AbsentIsRested(c, u[k], now);
      }
      TakeKeepsBucket(c.limit, u[k], now);
      RestedIsFull(c.limit, u[k], now);
    } else {
      TakeKeepsBucket(c.limit, Full(c.limit, now), now);
    }
  }

  // The refinement step of a call for a key that has no bucket.
  lemma AgreeNewKey(c: Config, t: Table, u: Memory, k: string, now: real)
    requires c.Ok() && LongTTL(c) && Agree(c, t, u, now) && |t| <= c.maxKeys && k !in t
    ensures var room := Room(c, t, now); var (t', ok) := Serve(c, room, k, now);
      var (u', ok') := ServeUnbounded(c.limit, u, k, now);
      if |room| < c.maxKeys then ok == ok' && Agree(c, t', u', now) else Agree(c, room, u, now)
  {
    var room := Room(c, t, now);
    if c.maxKeys > 1 {
      AgreeRoom(c, t, u, now);
      AgreeServe(c, room, u, k, now);
    } else if |room| < c.maxKeys {
      assert room == map[];
      forall h <- t ensures Idle(c, t[h], now) { assert h !in room; }
      AgreeDisplace(c, t, u, k, now);
    } else {
      SameSize(room, t);
    }
  }

  lemma SameSize(a: Table, b: Table)
    requires |b| <= |a| && forall k <- a :: k in b && a[k] == b[k]
    ensures a == b
  {
    if exists k :: k in b && k !in a {
      var k :| k in b && k !in a;
      assert a.Keys <= b.Keys - {k};
      SubsetSize(a.Keys, b.Keys - {k});
    }
  }

  lemma AgreeStep(c: Config, t: Table, u: Memory, clock: real, call: Call, t': Table, ok: bool)
    requires c.Ok() && c.rejectNewKeys && LongTTL(c) && Agree(c, t, u, clock) && clock <= call.now
    requires |t| <= c.maxKeys && Allows(c, t, call.key, call.now, t', ok)
    ensures var (u', ok') := ServeUnbounded(c.limit, u, Name(call.key), call.now);
      if Rejects(c, t, call.key, call.now) then !ok && Agree(c, t', u, call.now)
      else ok == ok' && Agree(c, t', u', call.now)
  {
    AgreeLater(c, t, u, clock, call.now);
    if Name(call.key) in t {
      AgreeServe(c, t, u, Name(call.key), call.now);
    } else {
      AgreeNewKey(c, t, u, Name(call.key), call.now);
    }
  }

  // The clock after the first `n` calls.
  function Clock(calls: seq<Call>, n: nat): real
    requires n <= |calls|
  {
    if n > 0 then calls[n - 1].now else if |calls| > 0 then calls[0].now else 0.0
  }

  lemma {:induction false} RunAgrees(c: Config, tables: seq<Table>, calls: seq<Call>, oks: seq<bool>, n: nat)
    requires IsRun(c, tables, calls, oks) && c.rejectNewKeys && LongTTL(c) && n <= |calls|
    ensures Agree(c, tables[n], Unbounded(c, tables, calls, n), Clock(calls, n))
  {
    if n > 0 {
      RunAgrees(c, tables, calls, oks, n - 1);
      TableIsBounded(c, tables, calls, oks, n - 1);
      AgreeStep(c, tables[n - 1], Unbounded(c, tables, calls, n - 1), Clock(calls, n - 1), calls[n - 1],
                tables[n], oks[n - 1]);
    }
  }

  // In reject-new-keys mode, when idle buckets have time to fill, the pruning
  // table answers every admitted call as the table that never drops a bucket,
  // and turns away the rest.
  lemma BoundedRefinesUnbounded(c: Config, tables: seq<Table>, calls: seq<Call>, oks: seq<bool>, i: nat)
    requires IsRun(c, tables, calls, oks) && c.rejectNewKeys && LongTTL(c) && i < |calls|
    ensures oks[i] ==
      (!Rejects(c, tables[i], calls[i].key, calls[i].now)
       && ServeUnbounded(c.limit, Unbounded(c, tables, calls, i), Name(calls[i].key), calls[i].now).1)
  {
    RunAgrees(c, tables, calls, oks, i);
    TableIsBounded(c, tables, calls, oks, i);
    AgreeStep(c, tables[i], Unbounded(c, tables, calls, i), Clock(calls, i), calls[i], tables[i + 1], oks[i]);
  }

  // --- The window bound of a key ------------------------------------------

  // Successful calls on key `k` among the first `n` in the window [s, t].
  ghost function PassedKey(calls: seq<Call>, oks: seq<bool>, n: nat, k: string, s: real, t: real): nat
    requires n <= |calls| == |oks|
  {
    if n == 0 then 0
    else PassedKey(calls, oks, n - 1, k, s, t)
         + if oks[n - 1] && Name(calls[n - 1].key) == k && s <= calls[n - 1].now <= t then 1 else 0
  }

  ghost predicate KeyCovered(l: Limit, u: Memory, k: string, s: real, count: nat) {
    if k in u then Covered(l, u[k], s, count) else count == 0
  }

  lemma {:induction false} RunKeyCovered(
    c: Config, tables: seq<Table>, calls: seq<Call>, oks: seq<bool>, n: nat, k: string, s: real, t: real)
    requires IsRun(c, tables, calls, oks) && c.rejectNewKeys && LongTTL(c) && n <= |calls|
    requires n > 0 ==> calls[n - 1].now <= t
    ensures KeyCovered(c.limit, Unbounded(c, tables, calls, n), k, s, PassedKey(calls, oks, n, k, s, t))
  {
    if n > 0 {
      var u, call := Unbounded(c, tables, calls, n - 1), calls[n - 1];
      var count := PassedKey(calls, oks, n - 1, k, s, t);
      RunKeyCovered(c, tables, calls, oks, n - 1, k, s, t);
      RunAgrees(c, tables, calls, oks, n - 1);
      BoundedRefinesUnbounded(c, tables, calls, oks, n - 1);
      if Name(call.key) == k && !Rejects(c, tables[n - 1], call.key, call.now) {
        var b := if k in u then u[k] else Full(c.limit, call.now);
        if k !in u && s <= call.now { EarnedFacts(c.limit, s, call.now, call.now); }
        CoveredStep(c.limit, b, call.now, s, count);
      }
    }
  }

  // Every key keeps its window bound across pruning and re-admission.
  lemma {:induction false} KeyWindowBound(
    c: Config, tables: seq<Table>, calls: seq<Call>, oks: seq<bool>, n: nat, k: string, s: real, t: real)
    requires IsRun(c, tables, calls, oks) && c.rejectNewKeys && LongTTL(c) && n <= |calls| && s <= t
    ensures PassedKey(calls, oks, n, k, s, t) as real <= c.limit.burst + Earned(c.limit, s, t)
  {
    EarnedFacts(c.limit, s, t, t);
    if n > 0 && calls[n - 1].now > t {
      KeyWindowBound(c, tables, calls, oks, n - 1, k, s, t);
    } else if n > 0 {
      RunKeyCovered(c, tables, calls, oks, n, k, s, t);
      RunAgrees(c, tables, calls, oks, n);
      var u := Unbounded(c, tables, calls, n);
      if k in u {
        CoveredBound(c.limit, u[k], s, t, PassedKey(calls, oks, n, k, s, t));
      }
    }
  }

}

/**
 * Token buckets and the bounded table of buckets per key. Times are seconds on
 * a clock that does not run backwards; each call reads it once.
 */
module RateLimiter {

  // --- One bucket ---------------------------------------------------------

  // `rate` is in tokens per second.
  datatype Limit = Limit(rate: real, burst: real) {
    predicate Ok() { rate > 0.0 && burst >= 1.0 }
  }

  datatype Bucket = Bucket(tokens: real, lastFill: real)

  function OrDefault(n: int, default: int): int {
    if n <= 0 then default else n
  }

  // Both settings fall back to a default when not positive.
  function LimitOf(ratePerMinute: int, burst: int): (l: Limit)
    ensures l.Ok()
  {
    Limit(OrDefault(ratePerMinute, 60) as real / 60.0, OrDefault(burst, 10) as real)
  }

  function Full(l: Limit, now: real): Bucket {
    Bucket(l.burst, now)
  }

  // Tokens earned between two clock readings.
  function Earned(l: Limit, from: real, to: real): real {
    (to - from) * l.rate
  }

  function Refill(l: Limit, b: Bucket, now: real): real {
    var t := b.tokens + Earned(l, b.lastFill, now);
    if t > l.burst then l.burst else t
  }

  function Take(l: Limit, b: Bucket, now: real): (Bucket, bool) {
    var t := Refill(l, b, now);
    if t < 1.0 then (Bucket(t, now), false) else (Bucket(t - 1.0, now), true)
  }

  ghost predicate BucketOk(l: Limit, b: Bucket) {
    0.0 <= b.tokens <= l.burst
  }

  lemma EarnedFacts(l: Limit, a: real, b: real, c: real)
    requires l.rate > 0.0 && a <= b <= c
    ensures 0.0 <= Earned(l, a, b) && Earned(l, a, b) + Earned(l, b, c) == Earned(l, a, c)
    ensures Earned(l, b, b) == 0.0
  {
    assert (b - a) * l.rate >= 0.0;
    assert (b - a) * l.rate + (c - b) * l.rate == (c - a) * l.rate;
  }

  lemma TakeKeepsBucket(l: Limit, b: Bucket, now: real)
    requires l.Ok() && BucketOk(l, b) && b.lastFill <= now
    ensures BucketOk(l, Take(l, b, now).0) && Take(l, b, now).0.lastFill == now
    ensures b.tokens <= Refill(l, b, now) || Refill(l, b, now) == l.burst
  {
    EarnedFacts(l, b.lastFill, now, now);
  }

  // --- The table ----------------------------------------------------------

  datatype Entry = Entry(bucket: Bucket, lastSeen: real)
  type Table = map<string, Entry>

  datatype Config = Config(limit: Limit, maxKeys: nat, idleTTL: real, rejectNewKeys: bool) {
    predicate Ok() { limit.Ok() && maxKeys > 0 && idleTTL > 0.0 }
  }

  function ConfigOf(ratePerMinute: int, burst: int, maxKeys: int, idleTTL: real, reject: bool): (c: Config)
    ensures c.Ok()
  {
    Config(LimitOf(ratePerMinute, burst), OrDefault(maxKeys, 4096),
           if idleTTL <= 0.0 then 600.0 else idleTTL, reject)
  }

  function Name(key: string): string {
    if key == "" then "unknown" else key
  }

  predicate Idle(c: Config, e: Entry, now: real) {
    now - e.lastSeen > c.idleTTL
  }

  function IdleKeys(c: Config, t: Table, now: real): set<string> {
    set k | k in t && Idle(c, t[k], now)
  }

  function Pruned(c: Config, t: Table, now: real): Table {
    t - IdleKeys(c, t, now)
  }

  predicate Oldest(t: Table, k: string) {
    k in t && forall j <- t :: t[k].lastSeen <= t[j].lastSeen
  }

  // The table a call that finds no bucket for its key works with.
  function Room(c: Config, t: Table, now: real): Table {
    if |t| >= c.maxKeys then Pruned(c, t, now) else t
  }

  function Serve(c: Config, t: Table, k: string, now: real): (Table, bool) {
    var b := if k in t then t[k].bucket else Full(c.limit, now);
    var (b', ok) := Take(c.limit, b, now);
    (t[k := Entry(b', now)], ok)
  }

  // The call is turned away without a bucket.
  predicate Rejects(c: Config, t: Table, key: string, now: real) {
    c.rejectNewKeys && Name(key) !in t && |Room(c, t, now)| >= c.maxKeys
  }

  // What a call may do. Which of several equally old buckets makes room is
  // left open, as map iteration order leaves it open.
  ghost predicate Allows(c: Config, t: Table, key: string, now: real, t': Table, ok: bool) {
    var k, room := Name(key), Room(c, t, now);
    if k in t then (t', ok) == Serve(c, t, k, now)
    else if |room| < c.maxKeys then (t', ok) == Serve(c, room, k, now)
    else if c.rejectNewKeys then t' == room && !ok
    else exists victim :: Oldest(room, victim) && (t', ok) == Serve(c, room - {victim}, k, now)
  }

  // --- As the source writes it --------------------------------------------

  class TokenBucket {
    const limit: Limit
    var bucket: Bucket

    constructor (ratePerMinute: int, burst: int, now: real)
      ensures limit == LimitOf(ratePerMinute, burst) && bucket == Full(limit, now)
    {
      limit := LimitOf(ratePerMinute, burst);
      bucket := Full(LimitOf(ratePerMinute, burst), now);
    }

    method Allow(now: real) returns (ok: bool)
      modifies this
      ensures (bucket, ok) == Take(limit, old(bucket), now)
    {
      var elapsed := now - bucket.lastFill;
      var tokens := bucket.tokens + elapsed * limit.rate;
      assert elapsed * limit.rate == Earned(limit, bucket.lastFill, now);
      if tokens > limit.burst {
        tokens := limit.burst;
      }
      bucket := Bucket(tokens, now);
      if bucket.tokens < 1.0 {
        return false;
      }
      bucket := Bucket(bucket.tokens - 1.0, bucket.lastFill);
      return true;
    }
  }

  class KeyedBuckets {
    const config: Config
    var buckets: Table

    ghost predicate Valid()
      reads this
    {
      config.Ok() && |buckets| <= config.maxKeys
    }

    constructor (ratePerMinute: int, burst: int, maxKeys: int, idleTTL: real, rejectNewKeys: bool)
      ensures Valid() && buckets == map[] && config == ConfigOf(ratePerMinute, burst, maxKeys, idleTTL, rejectNewKeys)
    {
      config := ConfigOf(ratePerMinute, burst, maxKeys, idleTTL, rejectNewKeys);
      buckets := map[];
    }

    method Prune(now: real)
      modifies this
      ensures buckets == Pruned(config, old(buckets), now)
    {
      ghost var before := buckets;
      var todo := buckets.Keys;
      while todo != {}
        invariant todo <= before.Keys
        invariant buckets == before - (IdleKeys(config, before, now) - todo)
        decreases |todo|
      {
        var k :| k in todo;
        if now - buckets[k].lastSeen > config.idleTTL {
          buckets := buckets - {k};
        }
        todo := todo - {k};
      }
    }

    method FindOldest() returns (oldest: string)
      requires buckets != map[]
      ensures Oldest(buckets, oldest)
    {
      oldest :| oldest in buckets;
      var todo := buckets.Keys;
      while todo != {}
        invariant todo <= buckets.Keys && oldest in buckets
        invariant forall k <- buckets :: k in todo || buckets[oldest].lastSeen <= buckets[k].lastSeen
        decreases |todo|
      {
        var k :| k in todo;
        if buckets[k].lastSeen < buckets[oldest].lastSeen {
          oldest := k;
        }
        todo := todo - {k};
      }
    }

    method Allow(key: string, now: real) returns (ok: bool)
      requires Valid()
      modifies this
      ensures Valid() && Allows(config, old(buckets), key, now, buckets, ok)
    {
      var k := if key == "" then "unknown" else key;
      if k !in buckets {
        if |buckets| >= config.maxKeys {
          Prune(now);
        }
        RoomIsSmaller(config, old(buckets), now);
        if |buckets| >= config.maxKeys {
          if config.rejectNewKeys {
            return false;
          }
          var oldest := FindOldest();
          RemovalSize(buckets, oldest);
          buckets := buckets - {oldest};
        }
      }
      var b := if k in buckets then buckets[k].bucket else Full(config.limit, now);
      var (b', taken) := Take(config.limit, b, now);
      InsertSize(buckets, k, Entry(b', now));
      buckets := buckets[k := Entry(b', now)];
      ok := taken;
    }
  }

  lemma RoomIsSmaller(c: Config, t: Table, now: real)
    ensures |Room(c, t, now)| <= |t| && Room(c, t, now).Keys <= t.Keys
  {
    var r := Room(c, t, now);
    assert t.Keys == r.Keys + (t.Keys - r.Keys);
    assert |t.Keys| == |r.Keys| + |t.Keys - r.Keys|;
  }

  lemma RemovalSize(t: Table, k: string)
    requires k in t
    ensures |t - {k}| == |t| - 1
  {
    assert t.Keys == (t - {k}).Keys + {k};
    assert |t.Keys| == |(t - {k}).Keys| + 1;
  }

  lemma InsertSize(t: Table, k: string, e: Entry)
    ensures |t[k := e]| == if k in t then |t| else |t| + 1
  {
    assert t[k := e].Keys == t.Keys + {k};
  }

}

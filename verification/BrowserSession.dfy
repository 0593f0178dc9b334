/**
 * The signed browser session cookie: what it carries, exactly when it is
 * accepted, and what revocation and a restart do to it over a run.
 */
module BrowserSession {

  import opened Core
  import opened Base64Url

  const TTL := 900
  const INT64_MAX := 0x7FFF_FFFF_FFFF_FFFF
  const UINT64 := 0x1_0000_0000_0000_0000

  // --- Numbers ------------------------------------------------------------

  function FormatInt(n: int): string {
    if n < 0 then "-" + Decimal(-n) else Decimal(n)
  }

  // Decimal with an optional sign, within 64 bits.
  function ParseInt(s: string): Option<int> {
    var negative := s != "" && s[0] == '-';
    var digits := if s != "" && (s[0] == '-' || s[0] == '+') then s[1..] else s;
    match ParseDecimal(digits)
    case None => None
    case Some(n) =>
      if negative then if n <= INT64_MAX + 1 then Some(-(n as int)) else None
      else if n <= INT64_MAX then Some(n) else None
  }

  function ParseUint(s: string): Option<nat> {
    match ParseDecimal(s)
    case None => None
    case Some(n) => if n < UINT64 then Some(n) else None
  }

  lemma IntRoundTrip(n: int)
    requires -INT64_MAX - 1 <= n <= INT64_MAX
    ensures ParseInt(FormatInt(n)) == Some(n) && '.' !in FormatInt(n)
  {
    var m := if n < 0 then -n else n;
    DecimalRoundTrip(m);
    assert FormatInt(n)[if n < 0 then 1 else 0..] == Decimal(m);
  }

  lemma UintRoundTrip(n: nat)
    requires n < UINT64
    ensures ParseUint(Decimal(n)) == Some(n) && '.' !in Decimal(n)
  {
    DecimalRoundTrip(n);
  }

  // A sign or none, `k` zeros, and the decimal of the absolute value.
  ghost predicate Reads(s: string, sign: string, k: nat, n: int) {
    && (sign == "" || sign == "+" || sign == "-") && (sign == "-" ==> n <= 0) && (sign != "-" ==> n >= 0)
    && s == sign + (Zeros(k) + Decimal(if n < 0 then -n else n))
  }

  function Within(m: Option<nat>, negative: bool): Option<int> {
    match m
    case None => None
    case Some(n) =>
      if negative then if n <= INT64_MAX + 1 then Some(-(n as int)) else None
      else if n <= INT64_MAX then Some(n) else None
  }

  lemma ParsesUnsigned(s: string)
    requires s == "" || (s[0] != '-' && s[0] != '+')
    ensures ParseInt(s) == Within(ParseDecimal(s), false)
  {
  }

  lemma ParsesSigned(c: char, digits: string)
    requires c == '-' || c == '+'
    ensures ParseInt([c] + digits) == Within(ParseDecimal(digits), c == '-')
  {
    assert ([c] + digits)[0] == c && ([c] + digits)[1..] == digits;
  }

  lemma ParsedDigits(digits: string, m: nat) returns (k: nat)
    requires ParseDecimal(digits) == Some(m)
    ensures digits == Zeros(k) + Decimal(m)
  {
    ParsesIff(digits, m);
    k :| digits == Zeros(k) + Decimal(m);
  }

  lemma ParsedReads(s: string, n: int) returns (sign: string, k: nat)
    requires ParseInt(s) == Some(n)
    ensures Reads(s, sign, k, n) && -INT64_MAX - 1 <= n <= INT64_MAX
  {
    var m: nat := if n < 0 then -n else n;
    if s != "" && (s[0] == '-' || s[0] == '+') {
      sign := [s[0]];
      assert s == sign + s[1..];
      ParsesSigned(s[0], s[1..]);
      k := ParsedDigits(s[1..], m);
    } else {
      sign := "";
      ParsesUnsigned(s);
      k := ParsedDigits(s, m);
      assert s == sign + s;
    }
  }

  lemma ZerosParse(k: nat, m: nat)
    ensures var s := Zeros(k) + Decimal(m); ParseDecimal(s) == Some(m) && s != "" && IsDigit(s[0])
  {
    ParsesIff(Zeros(k) + Decimal(m), m);
  }

  lemma ReadsParses(s: string, sign: string, k: nat, n: int)
    requires Reads(s, sign, k, n) && -INT64_MAX - 1 <= n <= INT64_MAX
    ensures ParseInt(s) == Some(n)
  {
    var m: nat := if n < 0 then -n else n;
    ZerosParse(k, m);
    if sign == "" {
      assert s == Zeros(k) + Decimal(m);
      ParsesUnsigned(s);
    } else {
      assert sign == [sign[0]];
      ParsesSigned(sign[0], Zeros(k) + Decimal(m));
    }
  }

  // Exactly the texts that read as a signed number: those, within 64 bits.
  lemma ParsesIntIff(s: string, n: int)
    ensures ParseInt(s) == Some(n) <==>
            -INT64_MAX - 1 <= n <= INT64_MAX && exists sign, k: nat :: Reads(s, sign, k, n)
  {
    if ParseInt(s) == Some(n) {
      var sign, k := ParsedReads(s, n);
    }
    if -INT64_MAX - 1 <= n <= INT64_MAX {
      if sign, k: nat :| Reads(s, sign, k, n) { ReadsParses(s, sign, k, n); }
    }
  }

  lemma ParsesUintIff(s: string, n: nat)
    ensures ParseUint(s) == Some(n) <==> n < UINT64 && exists k: nat :: s == Zeros(k) + Decimal(n)
  {
    ParsesIff(s, n);
  }

  // --- The cookie ---------------------------------------------------------

  // The keyed hash of a payload under the API key.
  type Mac = string -> seq<Byte>

  // `expires` is a Unix second; `boot` is made up once per process.
  datatype Fields = Fields(expires: int, epoch: nat, boot: string, nonce: seq<Byte>) {
    predicate Ok() {
      -INT64_MAX - 1 <= expires <= INT64_MAX && epoch < UINT64 && '.' !in boot
    }
  }

  function Payload(f: Fields): string {
    FormatInt(f.expires) + "." + (Decimal(f.epoch) + "." + (f.boot + "." + Encode(f.nonce)))
  }

  function Sign(mac: Mac, payload: string): string {
    Encode(mac(payload))
  }

  function Cookie(mac: Mac, f: Fields): string {
    Payload(f) + "." + Sign(mac, Payload(f))
  }

  function Rejoin(parts: seq<string>): string
    requires |parts| == 5
  {
    parts[0] + "." + (parts[1] + "." + (parts[2] + "." + parts[3]))
  }

  // What the middleware checks of a cookie value at Unix second `now`.
  predicate Accepts(mac: Mac, value: string, now: int, epoch: nat, boot: string) {
    var parts := Split(value, '.');
    && |parts| == 5
    && ParseInt(parts[0]).Some? && now < ParseInt(parts[0]).value <= now + TTL + 1
    && ParseUint(parts[1]) == Some(epoch)
    && parts[2] == boot
    && Decode(Sign(mac, Rejoin(parts))).Some?
    && Decode(parts[4]) == Decode(Sign(mac, Rejoin(parts)))
  }

  lemma CookieParts(mac: Mac, f: Fields)
    requires f.Ok()
    ensures var parts := Split(Cookie(mac, f), '.');
      parts == [FormatInt(f.expires), Decimal(f.epoch), f.boot, Encode(f.nonce), Sign(mac, Payload(f))]
      && Rejoin(parts) == Payload(f)
  {
    var a, b, c, d, e := FormatInt(f.expires), Decimal(f.epoch), f.boot, Encode(f.nonce), Sign(mac, Payload(f));
    IntRoundTrip(f.expires);
    UintRoundTrip(f.epoch);
    EncodeRoundTrip(f.nonce);
    EncodeRoundTrip(mac(Payload(f)));
    Regroup(a, b, c, d, e);
    FiveParts(a, b, c, d, e);
  }

  lemma FiveParts(a: string, b: string, c: string, d: string, e: string)
    requires '.' !in a && '.' !in b && '.' !in c && '.' !in d && '.' !in e
    ensures Split(a + "." + (b + "." + (c + "." + (d + "." + e))), '.') == [a, b, c, d, e]
  {
    SplitJoin(a, '.', b + "." + (c + "." + (d + "." + e)));
    SplitJoin(b, '.', c + "." + (d + "." + e));
    SplitJoin(c, '.', d + "." + e);
    SplitJoin(d, '.', e);
    SplitPlain(e, '.');
    assert [a] + ([b] + ([c] + ([d] + [e]))) == [a, b, c, d, e];
  }

  lemma Regroup(a: string, b: string, c: string, d: string, e: string)
    ensures a + "." + (b + "." + (c + "." + d)) + "." + e == a + "." + (b + "." + (c + "." + (d + "." + e)))
  {
    assert c + "." + d + "." + e == c + "." + (d + "." + e);
    assert b + "." + (c + "." + d) + "." + e == b + "." + (c + "." + d + "." + e);
    assert a + "." + (b + "." + (c + "." + d)) + "." + e == a + "." + (b + "." + (c + "." + d) + "." + e);
  }

  // An issued cookie is accepted exactly while it is not expired (and not from
  // the future), under the epoch and the boot it was issued with.
  lemma AcceptedIff(mac: Mac, f: Fields, now: int, epoch: nat, boot: string)
    requires f.Ok()
    ensures Accepts(mac, Cookie(mac, f), now, epoch, boot) <==>
            now < f.expires <= now + TTL + 1 && epoch == f.epoch && boot == f.boot
  {
    CookieParts(mac, f);
    IntRoundTrip(f.expires);
    UintRoundTrip(f.epoch);
    EncodeRoundTrip(mac(Payload(f)));
  }

  // --- Any value at all ---------------------------------------------------

  // Four dot-free fields, a dot, and a text that decodes to the keyed hash of
  // the four fields joined by dots.
  ghost predicate IsSigned(mac: Mac, value: string, a: string, b: string, c: string, d: string, sig: string) {
    && '.' !in a && '.' !in b && '.' !in c && '.' !in d && '.' !in sig
    && value == a + "." + (b + "." + (c + "." + (d + "." + sig)))
    && Decode(sig) == Some(mac(a + "." + (b + "." + (c + "." + d))))
  }

  // An expiry second ahead within the allowed span, and the current epoch and
  // boot nonce.
  predicate IsCurrent(expires: string, epoch: string, boot: string, now: int, epoch': nat, boot': string) {
    && ParseInt(expires).Some? && now < ParseInt(expires).value <= now + 901
    && ParseUint(epoch) == Some(epoch') && boot == boot'
  }

  lemma FiveJoined(parts: seq<string>)
    requires |parts| == 5
    ensures JoinWith(parts, '.') ==
            parts[0] + "." + (parts[1] + "." + (parts[2] + "." + (parts[3] + "." + parts[4])))
  {
    var p1, p2, p3, p4 := parts[1..], parts[2..], parts[3..], parts[4..];
    assert p1[1..] == p2 && p2[1..] == p3 && p3[1..] == p4;
    assert JoinWith(p4, '.') == parts[4];
    assert JoinWith(p3, '.') == parts[3] + "." + parts[4];
    assert JoinWith(p2, '.') == parts[2] + "." + JoinWith(p3, '.');
    assert JoinWith(p1, '.') == parts[1] + "." + JoinWith(p2, '.');
  }

  // Exactly which values are accepted, issued or not: those that carry the
  // keyed hash of their own payload, an expiry second ahead within the allowed
  // span, the current epoch and the current boot nonce.
  lemma AcceptsExactly(mac: Mac, value: string, now: int, epoch: nat, boot: string)
    ensures Accepts(mac, value, now, epoch, boot) <==>
      exists a, b, c, d, sig :: IsSigned(mac, value, a, b, c, d, sig) && IsCurrent(a, b, c, now, epoch, boot)
  {
    if Accepts(mac, value, now, epoch, boot) {
      var parts := Split(value, '.');
      forall i | 0 <= i < 5 ensures '.' !in parts[i] { SplitIsPlain(value, '.', i); }
      SplitThenJoin(value, '.');
      FiveJoined(parts);
      EncodeRoundTrip(mac(Rejoin(parts)));
      assert IsSigned(mac, value, parts[0], parts[1], parts[2], parts[3], parts[4]);
    }
    if a, b, c, d, sig :| IsSigned(mac, value, a, b, c, d, sig) && IsCurrent(a, b, c, now, epoch, boot) {
      FiveParts(a, b, c, d, sig);
      EncodeRoundTrip(mac(a + "." + (b + "." + (c + "." + d))));
    }
  }

  // --- Tampering ----------------------------------------------------------

  // The keyed hash is taken to be injective.
  ghost predicate Injective(mac: Mac) {
    forall p, q | mac(p) == mac(q) :: p == q
  }

  lemma FourParts(a: string, b: string, c: string, d: string)
    requires '.' !in a && '.' !in b && '.' !in c && '.' !in d
    ensures Split(a + "." + (b + "." + (c + "." + d)), '.') == [a, b, c, d]
  {
    SplitJoin(a, '.', b + "." + (c + "." + d));
    SplitJoin(b, '.', c + "." + d);
    SplitJoin(c, '.', d);
    SplitPlain(d, '.');
    assert [a] + ([b] + ([c] + [d])) == [a, b, c, d];
  }

  lemma RejoinedParts(value: string)
    requires |Split(value, '.')| == 5
    ensures Split(Rejoin(Split(value, '.')), '.') == Split(value, '.')[..4]
  {
    var parts := Split(value, '.');
    forall i | 0 <= i < 4 ensures '.' !in parts[i] { SplitIsPlain(value, '.', i); }
    FourParts(parts[0], parts[1], parts[2], parts[3]);
  }

  lemma PayloadParts(f: Fields)
    requires f.Ok()
    ensures Split(Payload(f), '.') == [FormatInt(f.expires), Decimal(f.epoch), f.boot, Encode(f.nonce)]
  {
    IntRoundTrip(f.expires);
    UintRoundTrip(f.epoch);
    EncodeRoundTrip(f.nonce);
    FourParts(FormatInt(f.expires), Decimal(f.epoch), f.boot, Encode(f.nonce));
  }

  // A signature taken from one cookie is accepted on no other payload: four
  // fields accepted with it are the four fields it was issued for.
  lemma SignatureIsBound(mac: Mac, f: Fields, value: string, now: int, epoch: nat, boot: string)
    requires Injective(mac) && Accepts(mac, value, now, epoch, boot)
    requires Decode(Split(value, '.')[4]) == Decode(Sign(mac, Payload(f)))
    ensures Rejoin(Split(value, '.')) == Payload(f)
    ensures f.Ok() ==>
      && Split(value, '.')[..4] == [FormatInt(f.expires), Decimal(f.epoch), f.boot, Encode(f.nonce)]
      && epoch == f.epoch && boot == f.boot && now < f.expires <= now + TTL + 1
  {
    EncodeRoundTrip(mac(Payload(f)));
    EncodeRoundTrip(mac(Rejoin(Split(value, '.'))));
    if f.Ok() {
      RejoinedParts(value);
      PayloadParts(f);
      BoundFields(value, f);
    }
  }

  lemma BoundFields(value: string, f: Fields)
    requires f.Ok() && |Split(value, '.')| == 5
    requires Split(value, '.')[..4] == [FormatInt(f.expires), Decimal(f.epoch), f.boot, Encode(f.nonce)]
    ensures var parts := Split(value, '.');
      ParseInt(parts[0]) == Some(f.expires) && ParseUint(parts[1]) == Some(f.epoch) && parts[2] == f.boot
  {
    var parts := Split(value, '.');
    assert parts[0] == parts[..4][0] && parts[1] == parts[..4][1] && parts[2] == parts[..4][2];
    IntRoundTrip(f.expires);
    UintRoundTrip(f.epoch);
  }

  // --- Runs ---------------------------------------------------------------

  // The process-wide variables.
  datatype Gateway = Gateway(epoch: nat, boot: string)

  datatype Op = Revoke | Restart(boot: string) | Request

  function Next(g: Gateway, op: Op): Gateway {
    match op
    case Revoke => g.(epoch := (g.epoch + 1) % UINT64)
    case Restart(boot) => Gateway(0, boot)
    case Request => g
  }

  ghost predicate IsRun(gs: seq<Gateway>, ops: seq<Op>) {
    && |gs| == |ops| + 1 && gs[0].epoch < UINT64 && '.' !in gs[0].boot
    && forall i | 0 <= i < |ops| :: gs[i + 1] == Next(gs[i], ops[i]) && (ops[i].Restart? ==> '.' !in ops[i].boot)
  }

  // The cookie a gateway issues at Unix second `now`.
  function Issue(g: Gateway, now: int, nonce: seq<Byte>): Fields {
    Fields(now + TTL, g.epoch, g.boot, nonce)
  }

  // Revocations among steps lo..hi.
  function Revocations(ops: seq<Op>, lo: nat, hi: nat): nat
    requires lo <= hi <= |ops|
    decreases hi
  {
    if lo == hi then 0 else Revocations(ops, lo, hi - 1) + if ops[hi - 1].Revoke? then 1 else 0
  }

  ghost predicate NoRestart(ops: seq<Op>, lo: nat, hi: nat)
    requires hi <= |ops|
  {
    forall i | lo <= i < hi :: !ops[i].Restart?
  }

  lemma {:induction false} RunIsOk(gs: seq<Gateway>, ops: seq<Op>, k: nat)
    requires IsRun(gs, ops) && k < |gs|
    ensures gs[k].epoch < UINT64 && '.' !in gs[k].boot
  {
    if k > 0 { RunIsOk(gs, ops, k - 1); }
  }

  lemma {:induction false} EpochCounts(gs: seq<Gateway>, ops: seq<Op>, i: nat, k: nat)
    requires IsRun(gs, ops) && i <= k < |gs| && NoRestart(ops, i, k)
    ensures gs[k].boot == gs[i].boot
    ensures gs[k].epoch == (gs[i].epoch + Revocations(ops, i, k)) % UINT64
    decreases k
  {
    RunIsOk(gs, ops, i);
    if i < k {
      EpochCounts(gs, ops, i, k - 1);
    }
  }

  lemma WrapsOnlyAt64Bits(e: nat, r: nat)
    requires e < UINT64 && r < UINT64
    ensures (e + r) % UINT64 == e <==> r == 0
  {
    if e + r < UINT64 {
      assert (e + r) % UINT64 == e + r;
    } else {
      assert (e + r) % UINT64 == e + r - UINT64;
    }
  }

  lemma EpochMovesIffRevoked(gs: seq<Gateway>, ops: seq<Op>, i: nat, k: nat)
    requires IsRun(gs, ops) && i <= k < |gs| && NoRestart(ops, i, k) && Revocations(ops, i, k) < UINT64
    ensures gs[k].boot == gs[i].boot && (gs[k].epoch == gs[i].epoch <==> Revocations(ops, i, k) == 0)
  {
    RunIsOk(gs, ops, i);
    EpochCounts(gs, ops, i, k);
    WrapsOnlyAt64Bits(gs[i].epoch, Revocations(ops, i, k));
  }

  // Within one boot and short of 2^64 revocations, a cookie issued at step i is
  // accepted at step k exactly when nothing was revoked in between and its
  // expiry second has not come.
  lemma AcceptedUntilRevokedOrExpired(
    mac: Mac, gs: seq<Gateway>, ops: seq<Op>, i: nat, k: nat, issued: int, now: int, nonce: seq<Byte>)
    requires IsRun(gs, ops) && i <= k < |gs| && NoRestart(ops, i, k)
    requires Issue(gs[i], issued, nonce).Ok() && issued <= now && Revocations(ops, i, k) < UINT64
    ensures Accepts(mac, Cookie(mac, Issue(gs[i], issued, nonce)), now, gs[k].epoch, gs[k].boot) <==>
            Revocations(ops, i, k) == 0 && now < issued + TTL
  {
    EpochMovesIffRevoked(gs, ops, i, k);
    AcceptedIff(mac, Issue(gs[i], issued, nonce), now, gs[k].epoch, gs[k].boot);
  }

  // After a restart that makes up a new boot nonce it is never accepted again.
  lemma NeverAcceptedAfterRestart(
    mac: Mac, gs: seq<Gateway>, ops: seq<Op>, i: nat, r: nat, k: nat, issued: int, now: int, nonce: seq<Byte>)
    requires IsRun(gs, ops) && i <= r < k < |gs| && ops[r].Restart?
    requires forall j | i <= j < |ops| && ops[j].Restart? :: ops[j].boot != gs[i].boot
    requires Issue(gs[i], issued, nonce).Ok()
    ensures !Accepts(mac, Cookie(mac, Issue(gs[i], issued, nonce)), now, gs[k].epoch, gs[k].boot)
  {
    BootStaysNew(gs, ops, i, r, k);
    AcceptedIff(mac, Issue(gs[i], issued, nonce), now, gs[k].epoch, gs[k].boot);
  }

  lemma {:induction false} BootStaysNew(gs: seq<Gateway>, ops: seq<Op>, i: nat, r: nat, k: nat)
    requires IsRun(gs, ops) && i <= r < k < |gs| && ops[r].Restart?
    requires forall j | i <= j < |ops| && ops[j].Restart? :: ops[j].boot != gs[i].boot
    ensures gs[k].boot != gs[i].boot
    decreases k
  {
    if r + 1 < k {
      BootStaysNew(gs, ops, i, r, k - 1);
    }
  }

  // --- As the source writes it --------------------------------------------

  class SessionAuthority {
    var epoch: nat
    const boot: string
    const mac: Mac

    constructor (boot: string, mac: Mac)
      ensures epoch == 0 && this.boot == boot && this.mac == mac
    {
      epoch, this.boot, this.mac := 0, boot, mac;
    }

    method RevokeAllSessions()
      modifies this
      ensures epoch == Next(Gateway(old(epoch), boot), Revoke).epoch
    {
      epoch := (epoch + 1) % UINT64;
    }

    method SetBrowserSession(now: int, nonce: seq<Byte>) returns (value: string)
      ensures value == Cookie(mac, Issue(Gateway(epoch, boot), now, nonce))
      ensures Issue(Gateway(epoch, boot), now, nonce).Ok() ==>
        forall later :: now <= later < now + TTL ==> Accepts(mac, value, later, epoch, boot)
    {
      var f := Issue(Gateway(epoch, boot), now, nonce);
      var payload := Payload(f);
      value := payload + "." + Sign(mac, payload);
      if f.Ok() {
        forall later | now <= later < now + TTL ensures Accepts(mac, value, later, epoch, boot) {
          AcceptedIff(mac, f, later, epoch, boot);
        }
      }
    }

    method ValidBrowserSession(value: string, now: int) returns (ok: bool)
      ensures ok <==> Accepts(mac, value, now, epoch, boot)
    {
      var parts := Split(value, '.');
      if |parts| != 5 {
        return false;
      }
      var expires := ParseInt(parts[0]);
      if expires == None || expires.value <= now || expires.value > now + TTL + 1 {
        return false;
      }
      var cookieEpoch := ParseUint(parts[1]);
      if cookieEpoch == None || cookieEpoch.value != epoch {
        return false;
      }
      if parts[2] != boot {
        return false;
      }
      var expected := Decode(Sign(mac, parts[0] + "." + (parts[1] + "." + (parts[2] + "." + parts[3]))));
      if expected == None {
        return false;
      }
      var provided := Decode(parts[4]);
      ok := provided.Some? && provided.value == expected.value;
    }
  }

}

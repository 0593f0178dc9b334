/**
 * Texts and values shared by the models: optional values, decimal numbers and
 * splitting at a separator.
 */
module Core {

  datatype Option<+T> = None | Some(value: T)

  // --- Decimal numbers ----------------------------------------------------

  predicate IsDigit(c: char) { '0' <= c <= '9' }

  predicate AllDigits(s: string) {
    forall i | 0 <= i < |s| :: IsDigit(s[i])
  }

  function DigitChar(d: nat): char
    requires d < 10
  {
    '0' + d as char
  }

  function Decimal(n: nat): (s: string)
    ensures s != "" && AllDigits(s)
  {
    if n < 10 then [DigitChar(n)] else Decimal(n / 10) + [DigitChar(n % 10)]
  }

  // The number a string of digits denotes; nothing else denotes one.
  function ParseDecimal(s: string): Option<nat> {
    if s == "" || !AllDigits(s) then None else Some(Digits(s))
  }

  function Digits(s: string): nat
    requires AllDigits(s)
  {
    if s == "" then 0 else Digits(s[..|s| - 1]) * 10 + (s[|s| - 1] - '0') as nat
  }

  lemma {:induction false} DecimalDigits(n: nat)
    ensures Digits(Decimal(n)) == n
  {
    var s := Decimal(n);
    if n < 10 {
      assert s[..|s| - 1] == "";
    } else {
      DecimalDigits(n / 10);
      assert s[..|s| - 1] == Decimal(n / 10);
    }
  }

  lemma DecimalRoundTrip(n: nat)
    ensures ParseDecimal(Decimal(n)) == Some(n)
  {
    DecimalDigits(n);
  }

  function Zeros(k: nat): string {
    seq(k, _ => '0')
  }

  lemma {:induction false} ZerosFirst(k: nat, s: string)
    requires AllDigits(s)
    ensures AllDigits(Zeros(k) + s) && Digits(Zeros(k) + s) == Digits(s)
    decreases |s|, k
  {
    var all := Zeros(k) + s;
    if s != "" {
      assert all[..|all| - 1] == Zeros(k) + s[..|s| - 1] && all[|all| - 1] == s[|s| - 1];
      ZerosFirst(k, s[..|s| - 1]);
    } else if k > 0 {
      assert all[..|all| - 1] == Zeros(k - 1) + "" && all[|all| - 1] == '0';
      ZerosFirst(k - 1, "");
    }
  }

  lemma {:induction false} DigitsAreDecimal(s: string) returns (k: nat)
    requires s != "" && AllDigits(s)
    ensures s == Zeros(k) + Decimal(Digits(s))
  {
    var t, c := s[..|s| - 1], s[|s| - 1];
    var d := (c - '0') as nat;
    assert s == t + [c] && [c] == [DigitChar(d)];
    if t == "" {
      assert Digits(t) == 0;
      k := 0;
      assert Zeros(0) + [c] == s;
    } else {
      k := DigitsAreDecimal(t);
      var m := Digits(t);
      if m == 0 {
        k := k + 1;
        assert t == Zeros(k - 1) + ['0'] == Zeros(k);
      } else {
        assert Digits(s) / 10 == m && Digits(s) % 10 == d;
        assert Zeros(k) + (Decimal(m) + [c]) == Zeros(k) + Decimal(m) + [c];
      }
    }
  }

  // Exactly the texts that read as `n`: its decimal after any zeros.
  lemma ParsesIff(s: string, n: nat)
    ensures ParseDecimal(s) == Some(n) <==> exists k: nat :: s == Zeros(k) + Decimal(n)
  {
    if ParseDecimal(s) == Some(n) {
      var k := DigitsAreDecimal(s);
      assert s == Zeros(k) + Decimal(n);
    }
    if k: nat :| s == Zeros(k) + Decimal(n) {
      DecimalDigits(n);
      ZerosFirst(k, Decimal(n));
    }
  }

  // --- Splitting ----------------------------------------------------------

  function Split(s: string, sep: char): (parts: seq<string>)
    ensures parts != []
  {
    if s == "" then [""]
    else
      var rest := Split(s[1..], sep);
      if s[0] == sep then [""] + rest else [[s[0]] + rest[0]] + rest[1..]
  }

  lemma {:induction false} SplitPlain(s: string, sep: char)
    requires sep !in s
    ensures Split(s, sep) == [s]
  {
    if s != "" {
      assert s[0] in s && forall c | c in s[1..] :: c in s;
      SplitPlain(s[1..], sep);
      assert [s[0]] + s[1..] == s;
    }
  }

  // Splitting undoes joining a part that does not hold the separator.
  lemma {:induction false} SplitJoin(part: string, sep: char, rest: string)
    requires sep !in part
    ensures Split(part + [sep] + rest, sep) == [part] + Split(rest, sep)
  {
    var s := part + [sep] + rest;
    if part == "" {
      assert s[1..] == rest;
    } else {
      assert part[0] in part && forall c | c in part[1..] :: c in part;
      SplitJoin(part[1..], sep, rest);
      assert s[1..] == part[1..] + [sep] + rest;
      assert [part[0]] + part[1..] == part;
      assert Split(s[1..], sep)[1..] == Split(rest, sep);
    }
  }

  // Splitting around any separator.
  lemma {:induction false} SplitBoth(a: string, sep: char, b: string)
    ensures Split(a + [sep] + b, sep) == Split(a, sep) + Split(b, sep)
  {
    if a == "" {
      assert a + [sep] + b == [sep] + b;
      SplitCons(sep, b, sep);
    } else {
      assert a + [sep] + b == [a[0]] + (a[1..] + [sep] + b) && a == [a[0]] + a[1..];
      SplitBoth(a[1..], sep, b);
      SplitCons(a[0], a[1..] + [sep] + b, sep);
      SplitCons(a[0], a[1..], sep);
      Prefixed(a[0], Split(a[1..], sep), Split(b, sep));
    }
  }

  lemma SplitCons(c: char, s: string, sep: char)
    ensures var rest := Split(s, sep);
      Split([c] + s, sep) == if c == sep then [""] + rest else [[c] + rest[0]] + rest[1..]
  {
    assert ([c] + s)[0] == c && ([c] + s)[1..] == s;
  }

  lemma Prefixed(c: char, rest: seq<string>, more: seq<string>)
    requires rest != []
    ensures [""] + (rest + more) == ([""] + rest) + more
    ensures [[c] + (rest + more)[0]] + (rest + more)[1..] == ([[c] + rest[0]] + rest[1..]) + more
  {
    assert (rest + more)[0] == rest[0] && (rest + more)[1..] == rest[1..] + more;
  }

  function JoinWith(parts: seq<string>, sep: char): string
    requires parts != []
  {
    if |parts| == 1 then parts[0] else parts[0] + [sep] + JoinWith(parts[1..], sep)
  }

  // Joining undoes splitting.
  lemma {:induction false} SplitThenJoin(s: string, sep: char)
    ensures JoinWith(Split(s, sep), sep) == s
  {
    if s != "" {
      var parts, rest := Split(s, sep), Split(s[1..], sep);
      SplitThenJoin(s[1..], sep);
      if s[0] == sep {
        assert parts[1..] == rest;
        assert [] + [sep] + s[1..] == s;
      } else if |rest| == 1 {
        assert [s[0]] + rest[0] == s;
      } else {
        assert parts[1..] == rest[1..];
        JoinGrows(s[0], rest, sep);
      }
    }
  }

  lemma JoinGrows(c: char, parts: seq<string>, sep: char)
    requires |parts| > 1
    ensures ([c] + parts[0]) + [sep] + JoinWith(parts[1..], sep) == [c] + JoinWith(parts, sep)
  {
  }

  // No part holds the separator.
  lemma {:induction false} SplitIsPlain(s: string, sep: char, i: nat)
    requires i < |Split(s, sep)|
    ensures sep !in Split(s, sep)[i]
  {
    if s != "" {
      var rest := Split(s[1..], sep);
      if s[0] == sep {
        if i > 0 { SplitIsPlain(s[1..], sep, i - 1); }
      } else {
        SplitIsPlain(s[1..], sep, i);
        if i > 0 { assert Split(s, sep)[i] == rest[i]; }
      }
    }
  }

  // --- Sequences ----------------------------------------------------------

  lemma Associative<T>(a: seq<T>, b: seq<T>, c: seq<T>)
    ensures (a + b) + c == a + (b + c)
  {
  }

  // --- Sets ---------------------------------------------------------------

  lemma SubsetSize<T>(a: set<T>, b: set<T>)
    requires a <= b
    ensures |a| <= |b|
  {
    assert b == a + (b - a);
  }

}

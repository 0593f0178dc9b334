/**
 * Unpadded base64url (section 5 of RFC 4648), as Go's RawURLEncoding reads and
 * writes it: the decoder skips line breaks and ignores trailing bits.
 */
module Base64Url {

  import opened Core

  type Byte = n: nat | n < 256
  type Sextet = n: nat | n < 64

  function Letter(n: Sextet): char {
    if n < 26 then 'A' + n as char
    else if n < 52 then 'a' + (n - 26) as char
    else if n < 62 then '0' + (n - 52) as char
    else if n == 62 then '-' else '_'
  }

  function FromLetter(c: char): Option<Sextet> {
    if 'A' <= c <= 'Z' then Some((c - 'A') as nat)
    else if 'a' <= c <= 'z' then Some((c - 'a') as nat + 26)
    else if '0' <= c <= '9' then Some((c - '0') as nat + 52)
    else if c == '-' then Some(62)
    else if c == '_' then Some(63)
    else None
  }

  predicate IsLetter(c: char) { FromLetter(c).Some? }

  lemma LetterRoundTrip(n: Sextet)
    ensures FromLetter(Letter(n)) == Some(n)
  {
  }

  // --- Bytes and sextets --------------------------------------------------

  // The four sextets of three bytes; missing bytes count as zero.
  function Top(x: Byte): Sextet { (x as int) / 4 }
  function UpperMiddle(x: Byte, y: Byte): Sextet { (x as int) % 4 * 16 + (y as int) / 16 }
  function LowerMiddle(y: Byte, z: Byte): Sextet { (y as int) % 16 * 4 + (z as int) / 64 }
  function Bottom(z: Byte): Sextet { (z as int) % 64 }

  function Sextets(bs: seq<Byte>): seq<Sextet> {
    if |bs| == 0 then []
    else if |bs| == 1 then [Top(bs[0]), UpperMiddle(bs[0], 0)]
    else if |bs| == 2 then [Top(bs[0]), UpperMiddle(bs[0], bs[1]), LowerMiddle(bs[1], 0)]
    else [Top(bs[0]), UpperMiddle(bs[0], bs[1]), LowerMiddle(bs[1], bs[2]), Bottom(bs[2])] + Sextets(bs[3..])
  }

  function First(a: Sextet, b: Sextet): Byte { (a as int) * 4 + (b as int) / 16 }
  function Second(b: Sextet, c: Sextet): Byte { (b as int) % 16 * 16 + (c as int) / 4 }
  function Third(c: Sextet, d: Sextet): Byte { (c as int) % 4 * 64 + d as int }

  // A single left-over sextet is no byte.
  function Bytes(ss: seq<Sextet>): Option<seq<Byte>> {
    if |ss| == 0 then Some([])
    else if |ss| == 1 then None
    else if |ss| == 2 then Some([First(ss[0], ss[1])])
    else if |ss| == 3 then Some([First(ss[0], ss[1]), Second(ss[1], ss[2])])
    else
      match Bytes(ss[4..])
      case None => None
      case Some(rest) => Some([First(ss[0], ss[1]), Second(ss[1], ss[2]), Third(ss[2], ss[3])] + rest)
  }

  lemma GroupRoundTrip(x: Byte, y: Byte, z: Byte)
    ensures First(Top(x), UpperMiddle(x, y)) == x
    ensures Second(UpperMiddle(x, y), LowerMiddle(y, z)) == y
    ensures Third(LowerMiddle(y, z), Bottom(z)) == z
  {
  }

  lemma BytesOfGroup(a: Sextet, b: Sextet, c: Sextet, d: Sextet, rest: seq<Sextet>, bs: seq<Byte>)
    requires Bytes(rest) == Some(bs)
    ensures Bytes([a, b, c, d] + rest) == Some([First(a, b), Second(b, c), Third(c, d)] + bs)
  {
    assert ([a, b, c, d] + rest)[4..] == rest;
  }

  lemma BytesOfTwo(a: Sextet, b: Sextet)
    ensures Bytes([a, b]) == Some([First(a, b)])
  {
  }

  lemma BytesOfThree(a: Sextet, b: Sextet, c: Sextet)
    ensures Bytes([a, b, c]) == Some([First(a, b), Second(b, c)])
  {
  }

  lemma {:induction false} SextetsRoundTrip(bs: seq<Byte>)
    ensures Bytes(Sextets(bs)) == Some(bs)
  {
    match |bs|
    case 0 => NoneRoundTrip(bs);
    case 1 => OneRoundTrip(bs);
    case 2 => TwoRoundTrip(bs);
    case _ =>
      SextetsRoundTrip(bs[3..]);
      assert bs == [bs[0], bs[1], bs[2]] + bs[3..];
      LongRoundTrip(bs, bs[0], bs[1], bs[2], bs[3..]);
  }

  lemma SextetsOfGroup(x: Byte, y: Byte, z: Byte, rest: seq<Byte>)
    ensures Sextets([x, y, z] + rest) ==
            [Top(x), UpperMiddle(x, y), LowerMiddle(y, z), Bottom(z)] + Sextets(rest)
  {
    assert ([x, y, z] + rest)[3..] == rest;
  }

  lemma LongRoundTrip(bs: seq<Byte>, x: Byte, y: Byte, z: Byte, rest: seq<Byte>)
    requires bs == [x, y, z] + rest && Bytes(Sextets(rest)) == Some(rest)
    ensures Bytes(Sextets(bs)) == Some(bs)
  {
    GroupRoundTrip(x, y, z);
    SextetsOfGroup(x, y, z, rest);
    BytesOfGroup(Top(x), UpperMiddle(x, y), LowerMiddle(y, z), Bottom(z), Sextets(rest), rest);
  }

  lemma NoneRoundTrip(bs: seq<Byte>)
    requires |bs| == 0
    ensures Bytes(Sextets(bs)) == Some(bs)
  {
    assert Sextets(bs) == [];
  }

  lemma OneRoundTrip(bs: seq<Byte>)
    requires |bs| == 1
    ensures Bytes(Sextets(bs)) == Some(bs)
  {
    var x := bs[0];
    assert bs == [x];
    GroupRoundTrip(x, 0, 0);
    BytesOfTwo(Top(x), UpperMiddle(x, 0));
  }

  lemma TwoRoundTrip(bs: seq<Byte>)
    requires |bs| == 2
    ensures Bytes(Sextets(bs)) == Some(bs)
  {
    var x, y := bs[0], bs[1];
    assert bs == [x, y];
    GroupRoundTrip(x, y, 0);
    BytesOfThree(Top(x), UpperMiddle(x, y), LowerMiddle(y, 0));
  }

  // --- Texts --------------------------------------------------------------

  function Letters(ss: seq<Sextet>): string {
    if ss == [] then "" else [Letter(ss[0])] + Letters(ss[1..])
  }

  function FromLetters(s: string): Option<seq<Sextet>> {
    if s == "" then Some([])
    else if s[0] == '\r' || s[0] == '\n' then FromLetters(s[1..])
    else
      match FromLetter(s[0])
      case None => None
      case Some(n) =>
        match FromLetters(s[1..])
        case None => None
        case Some(rest) => Some([n] + rest)
  }

  function Encode(bs: seq<Byte>): string {
    Letters(Sextets(bs))
  }

  function Decode(s: string): Option<seq<Byte>> {
    match FromLetters(s)
    case None => None
    case Some(ss) => Bytes(ss)
  }

  lemma {:induction false} LettersRoundTrip(ss: seq<Sextet>)
    ensures FromLetters(Letters(ss)) == Some(ss)
    ensures forall i | 0 <= i < |Letters(ss)| :: IsLetter(Letters(ss)[i])
  {
    if ss != [] {
      LettersRoundTrip(ss[1..]);
      LetterRoundTrip(ss[0]);
      LettersRead(Letter(ss[0]), Letters(ss[1..]), ss[0], ss[1..]);
      assert ss == [ss[0]] + ss[1..];
    }
  }

  lemma LettersRead(c: char, s: string, n: Sextet, ss: seq<Sextet>)
    requires FromLetter(c) == Some(n) && FromLetters(s) == Some(ss)
    ensures FromLetters([c] + s) == Some([n] + ss)
  {
    assert ([c] + s)[1..] == s && ([c] + s)[0] == c;
  }

  // Decoding undoes encoding, and encoded texts hold no separator.
  lemma EncodeRoundTrip(bs: seq<Byte>)
    ensures Decode(Encode(bs)) == Some(bs)
    ensures '.' !in Encode(bs)
  {
    SextetsRoundTrip(bs);
    LettersRoundTrip(Sextets(bs));
  }

  // --- What decodes at all, and to what -----------------------------------

  predicate IsBreak(c: char) { c == '\r' || c == '\n' }

  // The text without line breaks.
  function Unbroken(s: string): string {
    if s == "" then "" else (if IsBreak(s[0]) then "" else [s[0]]) + Unbroken(s[1..])
  }

  predicate AllLetters(s: string) {
    forall i | 0 <= i < |s| :: IsLetter(s[i])
  }

  lemma FromLetterIff(c: char, n: Sextet)
    ensures FromLetter(c) == Some(n) <==> c == Letter(n)
  {
  }

  // A text reads as sextets exactly when it holds nothing but letters and line
  // breaks, and the letters are those of the sextets.
  lemma {:induction false} ReadsIff(s: string)
    ensures FromLetters(s).Some? <==> AllLetters(Unbroken(s))
    ensures FromLetters(s).Some? ==> Letters(FromLetters(s).value) == Unbroken(s)
  {
    if s != "" {
      var rest := Unbroken(s[1..]);
      ReadsIff(s[1..]);
      if IsBreak(s[0]) {
        assert "" + rest == rest;
      } else {
        LettersCons(s[0], rest);
        assert Unbroken(s) == [s[0]] + rest;
        if FromLetters(s).Some? {
          var n, ss := FromLetter(s[0]).value, FromLetters(s[1..]).value;
          FromLetterIff(s[0], n);
          assert ([n] + ss)[1..] == ss;
        }
      }
    }
  }

  lemma LettersCons(c: char, s: string)
    ensures AllLetters([c] + s) <==> IsLetter(c) && AllLetters(s)
  {
    if AllLetters([c] + s) {
      assert ([c] + s)[0] == c;
      forall i | 0 <= i < |s| ensures IsLetter(s[i]) { assert ([c] + s)[i + 1] == s[i]; }
    }
  }

  lemma BytesUnfold(ss: seq<Sextet>)
    requires |ss| >= 4
    ensures Bytes(ss).Some? <==> Bytes(ss[4..]).Some?
  {
  }

  lemma {:induction false} BytesIff(ss: seq<Sextet>)
    ensures Bytes(ss).Some? <==> |ss| % 4 != 1
    decreases |ss|
  {
    match |ss|
    case 0 =>
    case 1 =>
    case 2 =>
    case 3 =>
    case _ =>
      BytesUnfold(ss);
      BytesIff(ss[4..]);
      assert (|ss| - 4) % 4 == |ss| % 4;
  }

  // All but the last sextet come back; the last may have had stray bits.
  ghost predicate SameButLast(a: seq<Sextet>, b: seq<Sextet>) {
    |a| == |b| && forall i | 0 <= i < |a| - 1 :: a[i] == b[i]
  }

  lemma GroupBack(a: Sextet, b: Sextet, c: Sextet, d: Sextet)
    ensures Top(First(a, b)) == a && UpperMiddle(First(a, b), Second(b, c)) == b
    ensures LowerMiddle(Second(b, c), Third(c, d)) == c && Bottom(Third(c, d)) == d
  {
  }

  lemma BackTwo(a: Sextet, b: Sextet)
    ensures SameButLast(Sextets([First(a, b)]), [a, b])
  {
    GroupBack(a, b, 0, 0);
  }

  lemma BackThree(a: Sextet, b: Sextet, c: Sextet)
    ensures SameButLast(Sextets([First(a, b), Second(b, c)]), [a, b, c])
  {
    GroupBack(a, b, c, 0);
  }

  lemma BackGroup(a: Sextet, b: Sextet, c: Sextet, d: Sextet, bs: seq<Byte>, rest: seq<Sextet>)
    requires SameButLast(Sextets(bs), rest)
    ensures SameButLast(Sextets([First(a, b), Second(b, c), Third(c, d)] + bs), [a, b, c, d] + rest)
  {
    GroupBack(a, b, c, d);
    SextetsOfGroup(First(a, b), Second(b, c), Third(c, d), bs);
    SameAfter([a, b, c, d], Sextets(bs), rest);
  }

  lemma SameAfter(head: seq<Sextet>, x: seq<Sextet>, y: seq<Sextet>)
    requires SameButLast(x, y)
    ensures SameButLast(head + x, head + y)
  {
  }

  lemma {:induction false} BytesBack(ss: seq<Sextet>)
    requires Bytes(ss).Some?
    ensures SameButLast(Sextets(Bytes(ss).value), ss)
    decreases |ss|, 1
  {
    if |ss| >= 4 {
      LongBack(ss);
    } else if |ss| == 3 {
      assert ss == [ss[0], ss[1], ss[2]];
      BytesOfThree(ss[0], ss[1], ss[2]);
      BackThree(ss[0], ss[1], ss[2]);
    } else if |ss| == 2 {
      assert ss == [ss[0], ss[1]];
      BytesOfTwo(ss[0], ss[1]);
      BackTwo(ss[0], ss[1]);
    } else {
      BytesIff(ss);
      assert ss == [] && Sextets([]) == [];
    }
  }

  lemma {:induction false} LongBack(ss: seq<Sextet>)
    requires |ss| >= 4 && Bytes(ss).Some?
    ensures SameButLast(Sextets(Bytes(ss).value), ss)
    decreases |ss|, 0
  {
    var a, b, c, d, rest := ss[0], ss[1], ss[2], ss[3], ss[4..];
    assert ss == [a, b, c, d] + rest;
    BytesUnfold(ss);
    BytesBack(rest);
    BytesOfGroup(a, b, c, d, rest, Bytes(rest).value);
    BackGroup(a, b, c, d, Bytes(rest).value, rest);
  }

  lemma {:induction false} LettersSame(a: seq<Sextet>, b: seq<Sextet>)
    requires SameButLast(a, b)
    ensures |Letters(a)| == |a| == |Letters(b)|
    ensures forall i | 0 <= i < |a| - 1 :: Letters(a)[i] == Letters(b)[i]
  {
    if a != [] {
      assert SameButLast(a[1..], b[1..]) by {
        forall i | 0 <= i < |a| - 2 ensures a[1..][i] == b[1..][i] { assert a[i + 1] == b[i + 1]; }
      }
      LettersSame(a[1..], b[1..]);
    }
  }

  // Exactly which texts decode: letters and line breaks only, and not one
  // letter over a multiple of four. What they decode to encodes to the same
  // letters, up to stray bits in the last.
  lemma DecodesIff(s: string)
    ensures Decode(s).Some? <==> AllLetters(Unbroken(s)) && |Unbroken(s)| % 4 != 1
    ensures Decode(s).Some? ==> var e := Encode(Decode(s).value); var u := Unbroken(s);
      |e| == |u| && forall i | 0 <= i < |u| - 1 :: e[i] == u[i]
  {
    ReadsIff(s);
    if FromLetters(s).Some? {
      var ss := FromLetters(s).value;
      BytesIff(ss);
      LettersSame(ss, ss);
      if Decode(s).Some? {
        BytesBack(ss);
        LettersSame(Sextets(Decode(s).value), ss);
      }
    }
  }

}

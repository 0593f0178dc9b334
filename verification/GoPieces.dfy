/**
 * What blanking means for Go source as a reader of the language sees it: a row
 * of code characters, comments and literals. Each comment and literal turns
 * into blanks of its length and everything else stays.
 */
module GoPieces {

  import opened Core
  import opened GoBlanker

  // A character of an interpreted or rune literal, or a backslash and one.
  datatype Unit = Plain(c: char) | Escape(c: char)

  datatype Piece =
    | Sign(c: char)
    | LineComment(body: string)
    | BlockComment(body: string)
    | Raw(body: string)
    | Quoted(quote: char, units: seq<Unit>)
    // Not closed when the text ends; a literal may end with a lone backslash.
    | OpenBlock(body: string)
    | OpenRaw(body: string)
    | OpenQuoted(quote: char, units: seq<Unit>, lone: bool)

  // --- The source text ----------------------------------------------------

  function UnitText(u: Unit): string {
    if u.Plain? then [u.c] else ['\\', u.c]
  }

  function UnitsText(us: seq<Unit>): string {
    if us == [] then "" else UnitText(us[0]) + UnitsText(us[1..])
  }

  function Text(p: Piece): string {
    match p
    case Sign(c) => [c]
    case LineComment(body) => "//" + body
    case BlockComment(body) => "/*" + (body + "*/")
    case Raw(body) => "`" + (body + "`")
    case Quoted(q, units) => [q] + (UnitsText(units) + [q])
    case OpenBlock(body) => "/*" + body
    case OpenRaw(body) => "`" + body
    case OpenQuoted(q, units, lone) => [q] + (UnitsText(units) + Lone(lone, '\\'))
  }

  function Lone(lone: bool, c: char): string {
    if lone then [c] else ""
  }

  function TextAll(ps: seq<Piece>): string {
    if ps == [] then "" else Text(ps[0]) + TextAll(ps[1..])
  }

  // --- The blanked text ---------------------------------------------------

  function Blanks(n: nat): string {
    seq(n, _ => ' ')
  }

  // Every character but a newline blanked.
  function BlankedAll(s: string): string {
    seq(|s|, i requires 0 <= i < |s| => if s[i] == '\n' then '\n' else ' ')
  }

  // An escape turns into two blanks even if it escapes a newline.
  function UnitBlanks(u: Unit): string {
    if u.Plain? then BlankedAll([u.c]) else "  "
  }

  function UnitsBlanked(us: seq<Unit>): string {
    if us == [] then "" else UnitBlanks(us[0]) + UnitsBlanked(us[1..])
  }

  function Blanked(p: Piece): string {
    match p
    case Sign(c) => [c]
    case LineComment(body) => Blanks(2 + |body|)
    case BlockComment(body) => "  " + (BlankedAll(body) + "  ")
    case Raw(body) => " " + (BlankedAll(body) + " ")
    case Quoted(_, units) => " " + (UnitsBlanked(units) + " ")
    case OpenBlock(body) => "  " + BlankedAll(body)
    case OpenRaw(body) => " " + BlankedAll(body)
    case OpenQuoted(_, units, lone) => " " + (UnitsBlanked(units) + Lone(lone, ' '))
  }

  function BlankedPieces(ps: seq<Piece>): string {
    if ps == [] then "" else Blanked(ps[0]) + BlankedPieces(ps[1..])
  }

  // --- Well-formed pieces -------------------------------------------------

  predicate UnitOk(q: char, u: Unit) {
    u.Plain? ==> u.c != q && u.c != '\\'
  }

  predicate UnitsOk(q: char, us: seq<Unit>) {
    forall i | 0 <= i < |us| :: UnitOk(q, us[i])
  }

  predicate NoEnd(s: string) {
    forall i | 0 <= i < |s| :: !("*/" <= s[i..])
  }

  // A block comment ends at the first end mark.
  predicate EndsFirst(body: string) {
    forall i | 0 <= i < |body| :: !("*/" <= (body + "*/")[i..])
  }

  // Piece `p` is one piece where `after` follows it.
  predicate PieceOk(p: Piece, after: string) {
    match p
    case Sign(c) =>
      && c != '"' && c != '\'' && c != '`'
      && !(c == '/' && after != "" && (after[0] == '/' || after[0] == '*'))
    case LineComment(body) => '\n' !in body && (after == "" || after[0] == '\n')
    case BlockComment(body) => EndsFirst(body)
    case Raw(body) => '`' !in body
    case Quoted(q, units) => (q == '"' || q == '\'') && UnitsOk(q, units)
    case OpenBlock(body) => after == "" && NoEnd(body)
    case OpenRaw(body) => after == "" && '`' !in body
    case OpenQuoted(q, units, _) => after == "" && (q == '"' || q == '\'') && UnitsOk(q, units)
  }

  predicate PiecesOk(ps: seq<Piece>) {
    ps == [] || (PieceOk(ps[0], TextAll(ps[1..])) && PiecesOk(ps[1..]))
  }

  // --- Blanking them ------------------------------------------------------

  lemma {:induction false} LineBlanked(body: string, after: string)
    requires '\n' !in body && (after == "" || after[0] == '\n')
    ensures Blank(Line, body + after) == Blanks(|body|) + Strip(after)
  {
    if body == "" {
      assert body + after == after && Blanks(0) + Strip(after) == Strip(after);
    } else {
      assert (body + after)[0] == body[0] && (body + after)[1..] == body[1..] + after;
      assert body[0] in body && forall c | c in body[1..] :: c in body;
      LineBlanked(body[1..], after);
      assert " " + (Blanks(|body| - 1) + Strip(after)) == Blanks(|body|) + Strip(after);
    }
  }

  lemma {:induction false} BlockBlanked(body: string, after: string)
    requires EndsFirst(body)
    ensures Blank(Block, body + ("*/" + after)) == BlankedAll(body) + ("  " + Strip(after))
  {
    var s := body + ("*/" + after);
    if body == "" {
      assert s == "*/" + after && s[2..] == after;
      assert BlankedAll(body) + ("  " + Strip(after)) == "  " + Strip(after);
    } else {
      NoEndYet(body, after);
      assert s[0] == body[0] && s[1..] == body[1..] + ("*/" + after);
      BlockBlanked(body[1..], after);
      Consed(BlankedAll(body), BlankedAll(body[1..]), "  " + Strip(after));
    }
  }

  lemma Consed(a: string, b: string, rest: string)
    requires a != "" && a[1..] == b
    ensures [a[0]] + (b + rest) == a + rest
  {
    assert a == [a[0]] + b;
  }

  lemma NoEndYet(body: string, after: string)
    requires body != "" && EndsFirst(body)
    ensures !("*/" <= body + ("*/" + after)) && EndsFirst(body[1..])
  {
    var ended, s := body + "*/", body + ("*/" + after);
    assert ended[0..] == ended && !("*/" <= ended[0..]);
    assert s[0] == ended[0] && s[1] == ended[1];
    forall i | 0 <= i < |body[1..]| ensures !("*/" <= (body[1..] + "*/")[i..]) {
      assert (body[1..] + "*/")[i..] == ended[i + 1..];
    }
  }

  lemma {:induction false} RawBlanked(body: string, after: string)
    requires '`' !in body
    ensures Blank(In('`'), body + ("`" + after)) == BlankedAll(body) + (" " + Strip(after))
  {
    var s := body + ("`" + after);
    if body == "" {
      assert s == "`" + after && s[1..] == after;
      assert BlankedAll(body) + (" " + Strip(after)) == " " + Strip(after);
    } else {
      assert s[0] == body[0] && s[1..] == body[1..] + ("`" + after);
      assert body[0] in body && forall c | c in body[1..] :: c in body;
      RawBlanked(body[1..], after);
      Consed(BlankedAll(body), BlankedAll(body[1..]), " " + Strip(after));
    }
  }

  lemma {:induction false} UnitsAreBlanked(q: char, us: seq<Unit>, after: string)
    requires (q == '"' || q == '\'') && UnitsOk(q, us)
    ensures Blank(In(q), UnitsText(us) + after) == UnitsBlanked(us) + Blank(In(q), after)
  {
    if us == [] {
      assert "" + after == after && "" + Blank(In(q), after) == Blank(In(q), after);
    } else {
      UnitsAreBlanked(q, us[1..], after);
      UnitBlanked(q, us[0], UnitsText(us[1..]) + after);
      Associative(UnitText(us[0]), UnitsText(us[1..]), after);
      Associative(UnitBlanks(us[0]), UnitsBlanked(us[1..]), Blank(In(q), after));
    }
  }

  lemma CloseBlanked(q: char, after: string)
    requires q == '"' || q == '\''
    ensures Blank(In(q), [q] + after) == " " + Strip(after)
  {
    assert ([q] + after)[0] == q && ([q] + after)[1..] == after;
  }

  lemma LoneBlanked(q: char, lone: bool)
    ensures Blank(In(q), Lone(lone, '\\')) == Lone(lone, ' ') || q == '\\'
  {
    assert ['\\'][1..] == "";
  }

  lemma {:induction false} OpenBlockBlanked(body: string)
    requires NoEnd(body)
    ensures Blank(Block, body) == BlankedAll(body)
  {
    if body != "" {
      assert body[0..] == body;
      forall i | 0 <= i < |body[1..]| ensures !("*/" <= body[1..][i..]) { assert body[1..][i..] == body[i + 1..]; }
      OpenBlockBlanked(body[1..]);
      Consed(BlankedAll(body), BlankedAll(body[1..]), "");
    }
  }

  lemma {:induction false} OpenRawBlanked(body: string)
    requires '`' !in body
    ensures Blank(In('`'), body) == BlankedAll(body)
  {
    if body != "" {
      assert body[0] in body && forall c | c in body[1..] :: c in body;
      OpenRawBlanked(body[1..]);
      Consed(BlankedAll(body), BlankedAll(body[1..]), "");
    }
  }

  lemma UnitBlanked(q: char, u: Unit, rest: string)
    requires (q == '"' || q == '\'') && UnitOk(q, u)
    ensures Blank(In(q), UnitText(u) + rest) == UnitBlanks(u) + Blank(In(q), rest)
  {
    var s := UnitText(u) + rest;
    if u.Plain? {
      assert s[1..] == rest && s[0] == u.c;
    } else {
      assert s[2..] == rest && s[0] == '\\' && |s| > 1;
      assert EscapeAt(q, s);
    }
  }

  // --- The meaning --------------------------------------------------------

  lemma SignBlanked(c: char, after: string)
    requires PieceOk(Sign(c), after)
    ensures Strip([c] + after) == [c] + Strip(after)
  {
    var s := [c] + after;
    assert s[0] == c && s[1..] == after && (after != "" ==> s[1] == after[0]);
  }

  lemma StripLine(rest: string)
    ensures Strip("//" + rest) == "  " + Blank(Line, rest)
  {
    assert ("//" + rest)[2..] == rest;
  }

  lemma StripBlock(rest: string)
    ensures Strip("/*" + rest) == "  " + Blank(Block, rest)
  {
    var s := "/*" + rest;
    assert s[2..] == rest && s[1] == '*';
  }

  lemma StripQuote(q: char, rest: string)
    requires q == '"' || q == '\'' || q == '`'
    ensures Strip([q] + rest) == " " + Blank(In(q), rest)
  {
    var s := [q] + rest;
    assert s[0] == q && s[1..] == rest;
  }

  lemma LineCommentBlanked(body: string, after: string)
    requires PieceOk(LineComment(body), after)
    ensures Strip("//" + body + after) == Blanks(2 + |body|) + Strip(after)
  {
    Associative("//", body, after);
    StripLine(body + after);
    LineBlanked(body, after);
    Associative("  ", Blanks(|body|), Strip(after));
    assert "  " + Blanks(|body|) == Blanks(2 + |body|);
  }

  // `open`, a body and `close`, blanked one after the other.
  lemma Enclosed(open: string, body: string, close: string, after: string)
    ensures open + (body + close) + after == open + (body + (close + after))
  {
    Associative(open, body + close, after);
    Associative(body, close, after);
  }

  lemma BlockCommentBlanked(body: string, after: string)
    requires PieceOk(BlockComment(body), after)
    ensures Strip("/*" + (body + "*/") + after) == "  " + (BlankedAll(body) + "  ") + Strip(after)
  {
    Enclosed("/*", body, "*/", after);
    StripBlock(body + ("*/" + after));
    BlockBlanked(body, after);
    Enclosed("  ", BlankedAll(body), "  ", Strip(after));
  }

  lemma RawLiteralBlanked(body: string, after: string)
    requires PieceOk(Raw(body), after)
    ensures Strip("`" + (body + "`") + after) == " " + (BlankedAll(body) + " ") + Strip(after)
  {
    Enclosed("`", body, "`", after);
    StripQuote('`', body + ("`" + after));
    RawBlanked(body, after);
    Enclosed(" ", BlankedAll(body), " ", Strip(after));
  }

  lemma QuotedLiteralBlanked(q: char, units: seq<Unit>, after: string)
    requires PieceOk(Quoted(q, units), after)
    ensures Strip([q] + (UnitsText(units) + [q]) + after) == " " + (UnitsBlanked(units) + " ") + Strip(after)
  {
    Enclosed([q], UnitsText(units), [q], after);
    StripQuote(q, UnitsText(units) + ([q] + after));
    UnitsAreBlanked(q, units, [q] + after);
    CloseBlanked(q, after);
    Enclosed(" ", UnitsBlanked(units), " ", Strip(after));
  }

  lemma OpenQuotedBlanked(q: char, units: seq<Unit>, lone: bool)
    requires PieceOk(OpenQuoted(q, units, lone), "")
    ensures Strip([q] + (UnitsText(units) + Lone(lone, '\\'))) == " " + (UnitsBlanked(units) + Lone(lone, ' '))
  {
    StripQuote(q, UnitsText(units) + Lone(lone, '\\'));
    UnitsAreBlanked(q, units, Lone(lone, '\\'));
    LoneBlanked(q, lone);
  }

  lemma OpenBlanked(p: Piece)
    requires (p.OpenBlock? || p.OpenRaw? || p.OpenQuoted?) && PieceOk(p, "")
    ensures Strip(Text(p)) == Blanked(p)
  {
    match p
    case OpenBlock(body) => StripBlock(body); OpenBlockBlanked(body);
    case OpenRaw(body) => StripQuote('`', body); OpenRawBlanked(body);
    case OpenQuoted(q, units, lone) => OpenQuotedBlanked(q, units, lone);
  }

  lemma PieceBlanked(p: Piece, after: string)
    requires PieceOk(p, after)
    ensures Strip(Text(p) + after) == Blanked(p) + Strip(after)
  {
    match p
    case Sign(c) => SignBlanked(c, after);
    case LineComment(body) => LineCommentBlanked(body, after);
    case BlockComment(body) => BlockCommentBlanked(body, after);
    case Raw(body) => RawLiteralBlanked(body, after);
    case Quoted(q, units) => QuotedLiteralBlanked(q, units, after);
    case _ =>
      OpenBlanked(p);
      assert Text(p) + "" == Text(p) && Blanked(p) + "" == Blanked(p);
  }

  // Blanking a row of pieces blanks exactly the comments and literals in it.
  lemma {:induction false} PiecesBlanked(ps: seq<Piece>)
    requires PiecesOk(ps)
    ensures Strip(TextAll(ps)) == BlankedPieces(ps)
  {
    if ps != [] {
      PiecesBlanked(ps[1..]);
      PieceBlanked(ps[0], TextAll(ps[1..]));
    }
  }

  // --- Every text is a row of pieces --------------------------------------

  lemma {:induction false} FindChar(s: string, c: char) returns (n: nat)
    ensures n <= |s| && c !in s[..n] && (n == |s| || s[n] == c)
  {
    if s == "" || s[0] == c {
      return 0;
    }
    n := FindChar(s[1..], c);
    assert s[..n + 1] == [s[0]] + s[1..][..n];
    n := n + 1;
  }

  // The first end mark, or the end.
  lemma {:induction false} FindEnd(s: string) returns (n: nat)
    ensures n <= |s| && (n == |s| || "*/" <= s[n..]) && forall i | 0 <= i < n :: !("*/" <= s[i..])
  {
    if s == "" || "*/" <= s {
      assert s[0..] == s;
      return 0;
    }
    var m := FindEnd(s[1..]);
    n := m + 1;
    assert s[n..] == s[1..][m..];
    forall i | 0 <= i < n ensures !("*/" <= s[i..]) {
      if i == 0 { assert s[0..] == s; } else { assert s[i..] == s[1..][i - 1..]; }
    }
  }

  // The units of a literal, and what follows them: nothing, a lone backslash,
  // or the closing quote.
  lemma {:induction false} ScanUnits(q: char, s: string) returns (us: seq<Unit>, rest: string)
    requires q != '\\'
    ensures UnitsOk(q, us) && s == UnitsText(us) + rest && (rest == "" || rest == ['\\'] || rest[0] == q)
    decreases |s|
  {
    if s == "" || s == ['\\'] || s[0] == q {
      us, rest := [], s;
      assert "" + s == s;
      return;
    }
    var u := if s[0] == '\\' then Escape(s[1]) else Plain(s[0]);
    var n := |UnitText(u)|;
    assert s == UnitText(u) + s[n..];
    var more;
    more, rest := ScanUnits(q, s[n..]);
    us := [u] + more;
    assert us[1..] == more;
    Associative(UnitText(u), UnitsText(more), rest);
  }

  lemma FirstEnds(s: string, n: nat)
    requires n < |s| && "*/" <= s[n..] && forall i | 0 <= i < n :: !("*/" <= s[i..])
    ensures EndsFirst(s[..n]) && s == s[..n] + ("*/" + s[n + 2..])
  {
    var body := s[..n];
    assert s[n] == s[n..][0] && s[n + 1] == s[n..][1];
    forall i | 0 <= i < n ensures !("*/" <= (body + "*/")[i..]) {
      var t := (body + "*/")[i..];
      assert !("*/" <= s[i..]);
      assert t[0] == s[i] == s[i..][0] && t[1] == s[i + 1] == s[i..][1];
    }
  }

  // The first piece of a text that is not empty.
  lemma FirstPiece(s: string) returns (p: Piece, after: string)
    requires s != ""
    ensures PieceOk(p, after) && s == Text(p) + after
  {
    if "//" <= s {
      var t := s[2..];
      var n := FindChar(t, '\n');
      p, after := LineComment(t[..n]), t[n..];
      assert s == "//" + t && t == t[..n] + t[n..];
    } else if "/*" <= s {
      p, after := FirstBlock(s);
    } else if s[0] == '`' {
      p, after := FirstRaw(s);
    } else if s[0] == '"' || s[0] == '\'' {
      p, after := FirstQuoted(s);
    } else {
      p, after := Sign(s[0]), s[1..];
      assert s == [s[0]] + s[1..];
      if s[1..] != "" { assert s[1] == s[1..][0]; }
    }
  }

  lemma FirstBlock(s: string) returns (p: Piece, after: string)
    requires |s| > 1 && s[0] == '/' && s[1] == '*'
    ensures PieceOk(p, after) && s == Text(p) + after
  {
    var t := s[2..];
    var n := FindEnd(t);
    assert s == "/*" + t;
    if n == |t| {
      p, after := OpenBlock(t), "";
      assert Text(p) + "" == s;
    } else {
      FirstEnds(t, n);
      p, after := BlockComment(t[..n]), t[n + 2..];
      Enclosed("/*", t[..n], "*/", after);
    }
  }

  lemma FirstRaw(s: string) returns (p: Piece, after: string)
    requires s != "" && s[0] == '`'
    ensures PieceOk(p, after) && s == Text(p) + after
  {
    var t := s[1..];
    var n := FindChar(t, '`');
    assert s == "`" + t;
    if n == |t| {
      assert t[..n] == t;
      p, after := OpenRaw(t), "";
      assert Text(p) + "" == s;
    } else {
      p, after := Raw(t[..n]), t[n + 1..];
      assert t == t[..n] + ("`" + after);
      Enclosed("`", t[..n], "`", after);
    }
  }

  lemma FirstQuoted(s: string) returns (p: Piece, after: string)
    requires s != "" && (s[0] == '"' || s[0] == '\'')
    ensures PieceOk(p, after) && s == Text(p) + after
  {
    var q, t := s[0], s[1..];
    var us, rest := ScanUnits(q, t);
    assert s == [q] + t;
    if rest != "" && rest[0] == q {
      p, after := Quoted(q, us), rest[1..];
      assert rest == [q] + after;
      Enclosed([q], UnitsText(us), [q], after);
    } else {
      p, after := OpenQuoted(q, us, rest != ""), "";
      assert Lone(rest != "", '\\') == rest;
      assert Text(p) + "" == Text(p);
    }
  }

  // So the theorem is about every text there is.
  lemma {:induction false} EveryTextIsPieces(s: string) returns (ps: seq<Piece>)
    ensures PiecesOk(ps) && TextAll(ps) == s && Strip(s) == BlankedPieces(ps)
    decreases |s|
  {
    if s == "" {
      return [];
    }
    var p, after := FirstPiece(s);
    assert |Text(p)| > 0;
    var rest := EveryTextIsPieces(after);
    ps := [p] + rest;
    assert ps[1..] == rest;
    PiecesBlanked(ps);
  }

}

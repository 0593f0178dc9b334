/**
 * Blanking the comments and literals of Go source while every other character
 * stays at its position.
 */
module GoBlanker {

  import opened Core

  // Where the scanner is: `In(q)` is inside a literal opened by quote `q`.
  datatype Mode = Code | Line | Block | In(quote: char)

  const QUOTES := {'"', '\'', '`'}

  function Blank1(c: char): char {
    if c == '\n' then '\n' else ' '
  }

  // Backslash escapes count in interpreted and rune literals only.
  predicate EscapeAt(q: char, s: string) {
    |s| > 1 && s[0] == '\\' && q != '`'
  }

  // The reference: one mode per position, code kept and the rest blanked.
  function Blank(mode: Mode, s: string): (r: string)
    ensures |r| == |s|
    decreases |s|, if mode == Line then 1 else 0
  {
    if s == "" then ""
    else match mode
    case Code =>
      if "//" <= s then "  " + Blank(Line, s[2..])
      else if "/*" <= s then "  " + Blank(Block, s[2..])
      else if s[0] in QUOTES then " " + Blank(In(s[0]), s[1..])
      else [s[0]] + Blank(Code, s[1..])
    case Line =>
      if s[0] == '\n' then Blank(Code, s) else " " + Blank(Line, s[1..])
    case Block =>
      if "*/" <= s then "  " + Blank(Code, s[2..]) else [Blank1(s[0])] + Blank(Block, s[1..])
    case In(q) =>
      if EscapeAt(q, s) then "  " + Blank(In(q), s[2..])
      else [Blank1(s[0])] + Blank(if s[0] == q then Code else In(q), s[1..])
  }

  function Strip(source: string): string {
    Blank(Code, source)
  }

  // --- As the source writes it --------------------------------------------

  lemma Suffix(s: string, i: nat)
    requires i < |s|
    ensures s[i..][0] == s[i] && s[i..][1..] == s[i + 1..]
    ensures i + 1 < |s| ==> s[i..][1] == s[i + 1] && s[i..][2..] == s[i + 2..]
  {
  }

  function ModeOf(quote: Option<char>): Mode {
    if quote == None then Code else In(quote.value)
  }

  method LineComment(source: string, start: nat, before: string) returns (output: string, index: nat)
    requires start <= |source|
    ensures start <= index <= |source|
    ensures output + Blank(Code, source[index..]) == before + Blank(Line, source[start..])
  {
    output, index := before, start;
    while index < |source| && source[index] != '\n'
      invariant start <= index <= |source|
      invariant output + Blank(Line, source[index..]) == before + Blank(Line, source[start..])
    {
      Suffix(source, index);
      assert output + ([' '] + Blank(Line, source[index + 1..])) == output + [' '] + Blank(Line, source[index + 1..]);
      output := output + [' '];
      index := index + 1;
    }
  }

  predicate ClosesBlock(source: string, index: nat) {
    index + 1 < |source| && source[index] == '*' && source[index + 1] == '/'
  }

  lemma BlockEnds(source: string, index: nat, output: string)
    requires ClosesBlock(source, index)
    ensures output + Blank(Block, source[index..]) == output + "  " + Blank(Code, source[index + 2..])
  {
    Suffix(source, index);
    var rest := Blank(Code, source[index + 2..]);
    assert Blank(Block, source[index..]) == "  " + rest;
    assert output + ("  " + rest) == output + "  " + rest;
  }

  lemma BlockGoesOn(source: string, index: nat, output: string)
    requires index < |source| && !ClosesBlock(source, index)
    ensures output + Blank(Block, source[index..])
         == output + [Blank1(source[index])] + Blank(Block, source[index + 1..])
  {
    Suffix(source, index);
    var c, rest := Blank1(source[index]), Blank(Block, source[index + 1..]);
    assert Blank(Block, source[index..]) == [c] + rest;
    assert output + ([c] + rest) == output + [c] + rest;
  }

  method BlockComment(source: string, start: nat, before: string) returns (output: string, index: nat)
    requires start <= |source|
    ensures start <= index <= |source|
    ensures output + Blank(Code, source[index..]) == before + Blank(Block, source[start..])
  {
    ghost var goal := before + Blank(Block, source[start..]);
    output, index := before, start;
    while index < |source|
      invariant start <= index <= |source|
      invariant output + Blank(Block, source[index..]) == goal
    {
      if source[index] == '*' && index + 1 < |source| && source[index + 1] == '/' {
        BlockEnds(source, index, output);
        assert output + "  " + Blank(Code, source[index + 2..]) == goal;
        return output + "  ", index + 2;
      }
      var c := if source[index] == '\n' then '\n' else ' ';
      BlockGoesOn(source, index, output);
      assert output + [c] + Blank(Block, source[index + 1..]) == goal;
      output := output + [c];
      index := index + 1;
    }
    assert source[index..] == "";
  }

  // What two characters at once open or skip, if they do.
  function Pair(quote: Option<char>, s: string): Option<Mode> {
    if quote == None && "//" <= s then Some(Line)
    else if quote == None && "/*" <= s then Some(Block)
    else if quote.Some? && EscapeAt(quote.value, s) then Some(ModeOf(quote))
    else None
  }

  function Shown(quote: Option<char>, c: char): char {
    if quote == None then if c in QUOTES then ' ' else c else Blank1(c)
  }

  function NextQuote(quote: Option<char>, c: char): Option<char> {
    if quote == None then if c in QUOTES then Some(c) else None
    else if quote == Some(c) then None else quote
  }

  lemma TwoChars(source: string, index: nat, quote: Option<char>, output: string)
    requires index < |source| && Pair(quote, source[index..]).Some?
    ensures index + 2 <= |source|
    ensures output + Blank(ModeOf(quote), source[index..])
         == output + "  " + Blank(Pair(quote, source[index..]).value, source[index + 2..])
  {
    Suffix(source, index);
    var rest := Blank(Pair(quote, source[index..]).value, source[index + 2..]);
    assert Blank(ModeOf(quote), source[index..]) == "  " + rest;
    assert output + ("  " + rest) == output + "  " + rest;
  }

  lemma OneChar(source: string, index: nat, quote: Option<char>, output: string)
    requires index < |source| && Pair(quote, source[index..]) == None
    ensures output + Blank(ModeOf(quote), source[index..])
         == output + [Shown(quote, source[index])] + Blank(ModeOf(NextQuote(quote, source[index])), source[index + 1..])
  {
    Suffix(source, index);
    var c, rest := Shown(quote, source[index]), Blank(ModeOf(NextQuote(quote, source[index])), source[index + 1..]);
    assert Blank(ModeOf(quote), source[index..]) == [c] + rest;
    assert output + ([c] + rest) == output + [c] + rest;
  }

  // The scan computes the reference.
  method StripCommentsAndStrings(source: string) returns (output: string)
    ensures output == Strip(source)
  {
    output := "";
    var index := 0;
    var quote: Option<char> := None;
    assert source[0..] == source;
    while index < |source|
      invariant 0 <= index <= |source|
      invariant output + Blank(ModeOf(quote), source[index..]) == Strip(source)
    {
      Suffix(source, index);
      var c := source[index];
      if quote == None {
        if c == '/' && index + 1 < |source| && source[index + 1] == '/' {
          TwoChars(source, index, quote, output);
          output, index := LineComment(source, index + 2, output + "  ");
          continue;
        }
        if c == '/' && index + 1 < |source| && source[index + 1] == '*' {
          TwoChars(source, index, quote, output);
          output, index := BlockComment(source, index + 2, output + "  ");
          continue;
        }
        OneChar(source, index, quote, output);
        if c in QUOTES {
          quote := Some(c);
          output := output + [' '];
        } else {
          output := output + [c];
        }
        index := index + 1;
        continue;
      }
      if c == '\\' && quote != Some('`') && index + 1 < |source| {
        TwoChars(source, index, quote, output);
        output := output + "  ";
        index := index + 2;
        continue;
      }
      OneChar(source, index, quote, output);
      if quote == Some(c) {
        quote := None;
      }
      output := output + [if c == '\n' then '\n' else ' '];
      index := index + 1;
    }
  }

  // --- Positions ----------------------------------------------------------

  // Every position holds the character of the source or a blank, and a newline
  // only where the source has one.
  lemma {:induction false} KeptOrBlank(mode: Mode, s: string, i: nat)
    requires i < |s|
    ensures Blank(mode, s)[i] == s[i] || Blank(mode, s)[i] == ' '
    decreases |s|, if mode == Line then 1 else 0
  {
    match mode
    case Code =>
      if "//" <= s { if i >= 2 { KeptOrBlank(Line, s[2..], i - 2); } }
      else if "/*" <= s { if i >= 2 { KeptOrBlank(Block, s[2..], i - 2); } }
      else if i >= 1 { KeptOrBlank(if s[0] in QUOTES then In(s[0]) else Code, s[1..], i - 1); }
    case Line =>
      if s[0] == '\n' { KeptOrBlank(Code, s, i); } else if i >= 1 { KeptOrBlank(Line, s[1..], i - 1); }
    case Block =>
      if "*/" <= s { if i >= 2 { KeptOrBlank(Code, s[2..], i - 2); } }
      else if i >= 1 { KeptOrBlank(Block, s[1..], i - 1); }
    case In(q) =>
      if EscapeAt(q, s) { if i >= 2 { KeptOrBlank(In(q), s[2..], i - 2); } }
      else if i >= 1 { KeptOrBlank(if s[0] == q then Code else In(q), s[1..], i - 1); }
  }

  // Some literal contains a backslash followed by a newline.
  predicate EscapedNewline(mode: Mode, s: string)
    decreases |s|, if mode == Line then 1 else 0
  {
    if s == "" then false
    else match mode
    case Code =>
      if "//" <= s then EscapedNewline(Line, s[2..])
      else if "/*" <= s then EscapedNewline(Block, s[2..])
      else EscapedNewline(if s[0] in QUOTES then In(s[0]) else Code, s[1..])
    case Line => if s[0] == '\n' then EscapedNewline(Code, s) else EscapedNewline(Line, s[1..])
    case Block => if "*/" <= s then EscapedNewline(Code, s[2..]) else EscapedNewline(Block, s[1..])
    case In(q) =>
      if EscapeAt(q, s) then s[1] == '\n' || EscapedNewline(In(q), s[2..])
      else EscapedNewline(if s[0] == q then Code else In(q), s[1..])
  }

  ghost predicate KeepsNewlines(s: string, r: string)
    requires |r| == |s|
  {
    forall i | 0 <= i < |s| :: s[i] == '\n' ==> r[i] == '\n'
  }

  lemma SplitNewlines(head: string, s: string, r0: string, r: string)
    requires |r0| == |head| && |r| == |s|
    ensures KeepsNewlines(head + s, r0 + r) <==> KeepsNewlines(head, r0) && KeepsNewlines(s, r)
  {
    if KeepsNewlines(head + s, r0 + r) {
      forall i | 0 <= i < |head| && head[i] == '\n' ensures r0[i] == '\n' {
        assert (head + s)[i] == head[i] && (r0 + r)[i] == r0[i];
      }
      forall i | 0 <= i < |s| && s[i] == '\n' ensures r[i] == '\n' {
        assert (head + s)[|head| + i] == s[i] && (r0 + r)[|head| + i] == r[i];
      }
    }
  }

  // The first `n` characters of `s` become `r0`, the rest is scanned in `mode`.
  lemma NewlinesStep(s: string, n: nat, r0: string, mode: Mode)
    requires n <= |s| && |r0| == n
    ensures KeepsNewlines(s, r0 + Blank(mode, s[n..])) <==>
            KeepsNewlines(s[..n], r0) && KeepsNewlines(s[n..], Blank(mode, s[n..]))
  {
    assert s == s[..n] + s[n..];
    SplitNewlines(s[..n], s[n..], r0, Blank(mode, s[n..]));
  }

  // They do not always: a quote, a backslash, a newline and a quote.
  lemma EscapedNewlineIsLost()
    ensures var s := "\"\\\n\""; EscapedNewline(Code, s) && !KeepsNewlines(s, Strip(s))
  {
    var s := "\"\\\n\"";
    assert s[0] == '"' && s[1..][0] == '\\' && s[1..][1] == '\n';
    assert !("//" <= s) && !("/*" <= s) && s[0] in QUOTES;
    assert EscapeAt('"', s[1..]);
    NewlinesKeptIff(Code, s);
  }

  // All line positions survive exactly when no interpreted or rune literal
  // escapes a newline.
  lemma {:induction false} NewlinesKeptIff(mode: Mode, s: string)
    ensures KeepsNewlines(s, Blank(mode, s)) <==> !EscapedNewline(mode, s)
    decreases |s|, if mode == Line then 1 else 0
  {
    if s != "" {
      match mode
      case Code =>
        if "//" <= s { NewlinesStep(s, 2, "  ", Line); NewlinesKeptIff(Line, s[2..]); }
        else if "/*" <= s { NewlinesStep(s, 2, "  ", Block); NewlinesKeptIff(Block, s[2..]); }
        else if s[0] in QUOTES { NewlinesStep(s, 1, " ", In(s[0])); NewlinesKeptIff(In(s[0]), s[1..]); }
        else { NewlinesStep(s, 1, [s[0]], Code); NewlinesKeptIff(Code, s[1..]); }
      case Line =>
        if s[0] == '\n' { NewlinesKeptIff(Code, s); }
        else { NewlinesStep(s, 1, " ", Line); NewlinesKeptIff(Line, s[1..]); }
      case Block =>
        if "*/" <= s { NewlinesStep(s, 2, "  ", Code); NewlinesKeptIff(Code, s[2..]); }
        else { NewlinesStep(s, 1, [Blank1(s[0])], Block); NewlinesKeptIff(Block, s[1..]); }
      case In(q) =>
        if EscapeAt(q, s) {
          NewlinesStep(s, 2, "  ", In(q));
          NewlinesKeptIff(In(q), s[2..]);
          assert s[..2][1] == s[1];
        } else {
          var next := if s[0] == q then Code else In(q);
          NewlinesStep(s, 1, [Blank1(s[0])], next);
          NewlinesKeptIff(next, s[1..]);
        }
    }
  }

  // --- Idempotence --------------------------------------------------------

  // Nothing that opens a comment or a literal.
  ghost predicate Plain(s: string) {
    && (forall i | 0 <= i < |s| :: s[i] !in QUOTES)
    && (forall i | 0 <= i < |s| - 1 :: s[i] == '/' ==> s[i + 1] != '/' && s[i + 1] != '*')
  }

  lemma PlainCons(c: char, r: string)
    requires Plain(r) && c !in QUOTES && (c == '/' && r != "" ==> r[0] != '/' && r[0] != '*')
    ensures Plain([c] + r)
  {
    var s := [c] + r;
    forall i | 0 <= i < |s| - 1 && s[i] == '/' ensures s[i + 1] != '/' && s[i + 1] != '*' {
      if i > 0 { assert s[i] == r[i - 1]; }
    }
  }

  lemma PlainBlanks(r: string)
    requires Plain(r)
    ensures Plain(" " + r) && Plain("  " + r)
  {
    PlainCons(' ', r);
    PlainCons(' ', " " + r);
    assert " " + (" " + r) == "  " + r;
  }

  lemma {:induction false} BlankIsPlain(mode: Mode, s: string)
    ensures Plain(Blank(mode, s))
    decreases |s|, if mode == Line then 1 else 0
  {
    if s != "" {
      match mode
      case Code =>
        if "//" <= s { BlankIsPlain(Line, s[2..]); PlainBlanks(Blank(Line, s[2..])); }
        else if "/*" <= s { BlankIsPlain(Block, s[2..]); PlainBlanks(Blank(Block, s[2..])); }
        else if s[0] in QUOTES { BlankIsPlain(In(s[0]), s[1..]); PlainBlanks(Blank(In(s[0]), s[1..])); }
        else {
          BlankIsPlain(Code, s[1..]);
          if |s| > 1 { KeptOrBlank(Code, s[1..], 0); }
          PlainCons(s[0], Blank(Code, s[1..]));
        }
      case Line =>
        if s[0] == '\n' { BlankIsPlain(Code, s); }
        else { BlankIsPlain(Line, s[1..]); PlainBlanks(Blank(Line, s[1..])); }
      case Block =>
        if "*/" <= s { BlankIsPlain(Code, s[2..]); PlainBlanks(Blank(Code, s[2..])); }
        else { BlankIsPlain(Block, s[1..]); PlainCons(Blank1(s[0]), Blank(Block, s[1..])); }
      case In(q) =>
        if EscapeAt(q, s) { BlankIsPlain(In(q), s[2..]); PlainBlanks(Blank(In(q), s[2..])); }
        else {
          var next := if s[0] == q then Code else In(q);
          BlankIsPlain(next, s[1..]);
          PlainCons(Blank1(s[0]), Blank(next, s[1..]));
        }
    }
  }

  lemma {:induction false} PlainIsFixed(s: string)
    requires Plain(s)
    ensures Strip(s) == s
  {
    if s != "" {
      var rest := s[1..];
      assert Plain(rest) by {
        forall i | 0 <= i < |rest| - 1 && rest[i] == '/' ensures rest[i + 1] != '/' && rest[i + 1] != '*' {
          assert s[i + 1] == '/';
        }
      }
      PlainIsFixed(rest);
      assert !("//" <= s) && !("/*" <= s) by {
        if |s| > 1 && s[0] == '/' { assert s[0 + 1] != '/' && s[0 + 1] != '*'; }
      }
      assert s == [s[0]] + rest;
    }
  }

  // The result holds no quote and no comment opener, so blanking again changes
  // nothing.
  lemma StripIdempotent(source: string)
    ensures Plain(Strip(source)) && Strip(Strip(source)) == Strip(source)
  {
    BlankIsPlain(Code, source);
    PlainIsFixed(Strip(source));
  }

  // Blanking changes exactly the sources that hold a quote or a comment opener.
  lemma StripChangesIff(source: string)
    ensures Strip(source) == source <==> Plain(source)
  {
    BlankIsPlain(Code, source);
    if Plain(source) { PlainIsFixed(source); }
  }

}

/**
 * Dotted paths of configuration leaves, the provenance recorded under them,
 * the fields a project may not set, and setting one nested value.
 */
module ConfigPaths {

  import opened Core
  import opened ConfigLayers

  // --- Dotted paths -------------------------------------------------------

  function StepText(prefix: string, s: Step): string {
    match s
    case Key(k) => if prefix == "" then k else prefix + "." + k
    case Index(i) => prefix + "[" + Decimal(i) + "]"
  }

  function RenderFrom(prefix: string, p: Path): string
    decreases |p|
  {
    if p == [] then prefix else RenderFrom(StepText(prefix, p[0]), p[1..])
  }

  function Render(p: Path): string {
    RenderFrom("", p)
  }

  // The leaves of a value with their dotted paths, as the source walks them.
  ghost function Walk(v: Value, prefix: string): set<(string, Value)> {
    match v
    case Map(fields) => set k, x | k in fields && x in Walk(fields[k], StepText(prefix, Key(k))) :: x
    case List(items) => set i, x | 0 <= i < |items| && x in Walk(items[i], StepText(prefix, Index(i))) :: x
    case _ => {(prefix, v)}
  }

  // Walking finds exactly the leaves, each under its dotted path.
  lemma {:induction false} WalkFinds(v: Value, prefix: string, p: Path)
    requires LeafAt(v, p).Some?
    ensures (RenderFrom(prefix, p), LeafAt(v, p).value) in Walk(v, prefix)
    decreases v
  {
    match v
    case Map(fields) => WalkFinds(fields[p[0].name], StepText(prefix, p[0]), p[1..]);
    case List(items) => WalkFinds(items[p[0].i], StepText(prefix, p[0]), p[1..]);
    case _ =>
  }

  lemma {:induction false} WalkIsLeaf(v: Value, prefix: string, x: (string, Value)) returns (p: Path)
    requires x in Walk(v, prefix)
    ensures LeafAt(v, p) == Some(x.1) && RenderFrom(prefix, p) == x.0
    decreases v
  {
    match v
    case Map(fields) =>
      var k :| k in fields && x in Walk(fields[k], StepText(prefix, Key(k)));
      var rest := WalkIsLeaf(fields[k], StepText(prefix, Key(k)), x);
      p := [Key(k)] + rest;
      assert p[1..] == rest;
    case List(items) =>
      var i :| 0 <= i < |items| && x in Walk(items[i], StepText(prefix, Index(i)));
      var rest := WalkIsLeaf(items[i], StepText(prefix, Index(i)), x);
      p := [Index(i)] + rest;
      assert p[1..] == rest;
    case _ =>
      p := [];
  }

  // --- Clean keys make dotted paths unambiguous ---------------------------

  predicate Punctuation(c: char) { c == '.' || c == '[' || c == ']' }

  predicate CleanKey(k: string) {
    k != "" && forall i | 0 <= i < |k| :: !Punctuation(k[i])
  }

  predicate CleanPath(p: Path) {
    forall i | 0 <= i < |p| && p[i].Key? :: CleanKey(p[i].name)
  }

  ghost predicate CleanValue(v: Value) {
    match v
    case Map(fields) => forall k | k in fields :: CleanKey(k) && CleanValue(fields[k])
    case List(items) => forall i | 0 <= i < |items| :: CleanValue(items[i])
    case _ => true
  }

  lemma {:induction false} CleanLeaf(v: Value, p: Path)
    requires CleanValue(v) && LeafAt(v, p).Some?
    ensures CleanPath(p)
    decreases v
  {
    match v
    case Map(fields) => CleanLeaf(fields[p[0].name], p[1..]); assert p == [p[0]] + p[1..];
    case List(items) => CleanLeaf(items[p[0].i], p[1..]); assert p == [p[0]] + p[1..];
    case _ =>
  }

  // The text of the steps after the first.
  function Tail(p: Path): string {
    if p == [] then "" else HeadText(p[0]) + Tail(p[1..])
  }

  function HeadText(s: Step): string {
    match s
    case Key(k) => "." + k
    case Index(i) => "[" + Decimal(i) + "]"
  }

  lemma StepIsHead(prefix: string, s: Step)
    requires prefix != ""
    ensures StepText(prefix, s) == prefix + HeadText(s)
  {
  }

  lemma {:induction false} RenderTail(prefix: string, p: Path)
    requires prefix != ""
    ensures RenderFrom(prefix, p) == prefix + Tail(p)
    decreases |p|
  {
    if p != [] {
      StepIsHead(prefix, p[0]);
      RenderTail(StepText(prefix, p[0]), p[1..]);
      Associative(prefix, HeadText(p[0]), Tail(p[1..]));
    }
  }

  lemma RenderRoot(p: Path)
    requires p != [] && p[0].Key? && CleanKey(p[0].name)
    ensures Render(p) == p[0].name + Tail(p[1..])
  {
    RenderTail(p[0].name, p[1..]);
  }

  // A stretch without the stop characters is determined by where it stops.
  lemma {:induction false} SameHead(a: string, s: string, b: string, t: string, stops: set<char>)
    requires a + s == b + t
    requires (forall i | 0 <= i < |a| :: a[i] !in stops) && (forall i | 0 <= i < |b| :: b[i] !in stops)
    requires (s == "" || s[0] in stops) && (t == "" || t[0] in stops)
    ensures a == b && s == t
  {
    assert (a + s)[..|a|] == a && (b + t)[..|b|] == b;
    assert (a + s)[|a|..] == s && (b + t)[|b|..] == t;
  }

  lemma DecimalInjective(a: nat, b: nat)
    requires Decimal(a) == Decimal(b)
    ensures a == b
  {
    DecimalDigits(a);
    DecimalDigits(b);
  }

  predicate Stops(s: string) {
    s == "" || s[0] == '.' || s[0] == '['
  }

  predicate CleanStep(s: Step) {
    s.Key? ==> CleanKey(s.name)
  }

  // The first step is determined by the text, and so is the rest.
  lemma HeadSplits(a: Step, s: string, b: Step, t: string)
    requires CleanStep(a) && CleanStep(b) && Stops(s) && Stops(t)
    requires HeadText(a) + s == HeadText(b) + t
    ensures a == b && s == t
  {
    HeadRest(a, s);
    HeadRest(b, t);
    if a.Key? {
      SameHead(a.name, s, b.name, t, {'.', '['});
    } else {
      SameHead(Decimal(a.i), "]" + s, Decimal(b.i), "]" + t, {']'});
      assert ("]" + s)[1..] == s && ("]" + t)[1..] == t;
      DecimalInjective(a.i, b.i);
    }
  }

  lemma TailHead(p: Path, q: Path)
    requires CleanPath(p) && CleanPath(q) && p != [] && q != [] && Tail(p) == Tail(q)
    ensures p[0] == q[0] && Tail(p[1..]) == Tail(q[1..])
  {
    TailStops(p[1..]);
    TailStops(q[1..]);
    HeadSplits(p[0], Tail(p[1..]), q[0], Tail(q[1..]));
  }

  lemma TailStops(p: Path)
    ensures Stops(Tail(p))
  {
    if p != [] { TailStart(p); }
  }

  lemma TailStart(p: Path)
    requires p != []
    ensures Tail(p) != "" && Tail(p)[0] == if p[0].Key? then '.' else '['
  {
    assert Tail(p)[0] == HeadText(p[0])[0];
  }

  lemma HeadRest(s: Step, rest: string)
    ensures (HeadText(s) + rest)[0] == if s.Key? then '.' else '['
    ensures (HeadText(s) + rest)[1..] == if s.Key? then s.name + rest else Decimal(s.i) + ("]" + rest)
  {
    if s.Key? {
      DropFirst('.', s.name, rest);
    } else {
      Associative("[", Decimal(s.i), "]");
      DropFirst('[', Decimal(s.i) + "]", rest);
      Associative(Decimal(s.i), "]", rest);
    }
  }

  lemma DropFirst(c: char, a: string, rest: string)
    ensures ([c] + a + rest)[0] == c && ([c] + a + rest)[1..] == a + rest
  {
  }

  lemma TailIsEmpty(p: Path)
    ensures Tail(p) == "" <==> p == []
  {
    if p != [] { TailStart(p); }
  }

  lemma {:induction false} TailInjective(p: Path, q: Path)
    requires CleanPath(p) && CleanPath(q) && Tail(p) == Tail(q)
    ensures p == q
    decreases |p|
  {
    TailIsEmpty(p);
    TailIsEmpty(q);
    if p != [] {
      TailHead(p, q);
      TailInjective(p[1..], q[1..]);
      assert p == [p[0]] + p[1..] && q == [q[0]] + q[1..];
    }
  }

  // Two leaves of mappings with clean keys have the same dotted path only if
  // they are at the same place.
  lemma RenderInjective(p: Path, q: Path)
    requires p != [] && q != [] && p[0].Key? && q[0].Key? && CleanPath(p) && CleanPath(q)
    requires Render(p) == Render(q)
    ensures p == q
  {
    RenderRoot(p);
    RenderRoot(q);
    SameHead(p[0].name, Tail(p[1..]), q[0].name, Tail(q[1..]), {'.', '['});
    TailInjective(p[1..], q[1..]);
    assert p == [p[0]] + p[1..] && q == [q[0]] + q[1..];
  }

  // --- Provenance ---------------------------------------------------------

  datatype Layer = Managed | User | Project

  ghost function Paths(v: Value): set<string> {
    set x | x in Walk(v, "") :: x.0
  }

  // The provenance `m` updated by that of all leaves of `v`.
  ghost function Claim(m: map<string, Layer>, v: Value, layer: Layer): map<string, Layer> {
    map s | s in m.Keys + Paths(v) :: if s in Paths(v) then layer else m[s]
  }

  // Environment placeholders: what a text expands to, or nothing when a
  // variable is missing, and whether it mentions one at all.
  datatype Environment = Environment(expand: string -> Option<string>, mentions: string -> bool)

  predicate Expandable(v: Value, env: Environment) {
    match v
    case Text(s) => env.expand(s).Some?
    case List(items) => forall i | 0 <= i < |items| :: Expandable(items[i], env)
    case Map(fields) => forall k | k in fields :: Expandable(fields[k], env)
    case Scalar(_) => true
  }

  function Expand(v: Value, env: Environment): (r: Value)
    requires Expandable(v, env)
    ensures v.Map? ==> r.Map?
  {
    match v
    case Text(s) => Text(env.expand(s).value)
    case List(items) => List(seq(|items|, i requires 0 <= i < |items| => Expand(items[i], env)))
    case Map(fields) => Map(map k | k in fields :: Expand(fields[k], env))
    case Scalar(_) => v
  }

  // Expansion acts leaf by leaf and moves none.
  lemma {:induction false} ExpandLeaf(v: Value, env: Environment, p: Path)
    requires Expandable(v, env)
    ensures LeafAt(Expand(v, env), p) ==
      (match LeafAt(v, p)
       case Some(Text(s)) => if env.expand(s).Some? then Some(Text(env.expand(s).value)) else None
       case other => other)
    ensures LeafAt(v, p).Some? && LeafAt(v, p).value.Text? ==> env.expand(LeafAt(v, p).value.text).Some?
    decreases v
  {
    match v
    case Map(fields) => if p != [] && p[0].Key? && p[0].name in fields { ExpandLeaf(fields[p[0].name], env, p[1..]); }
    case List(items) => if p != [] && p[0].Index? && p[0].i < |items| { ExpandLeaf(items[p[0].i], env, p[1..]); }
    case _ =>
  }

  // --- Fields a project may not set ---------------------------------------

  const FORBIDDEN: seq<Path> :=
    [[Key("models"), Key("providers")], [Key("memory"), Key("providers")], [Key("gateway")], [Key("agent"), Key("socket")]]

  // The prefix test of the source on a dotted path.
  predicate PrefixHits(dotted: string, prefix: string) {
    dotted == prefix || prefix + "." <= dotted
  }

  predicate Forbidden(dotted: string) {
    exists i :: 0 <= i < |FORBIDDEN| && PrefixHits(dotted, Render(FORBIDDEN[i]))
  }

  ghost predicate AcceptsProject(project: Value, env: Environment) {
    forall x | x in Walk(project, "") :: !Forbidden(x.0) && !(x.1.Text? && env.mentions(x.1.text))
  }

  lemma {:induction false} TailAppend(p: Path, q: Path)
    ensures Tail(p + q) == Tail(p) + Tail(q)
  {
    if p == [] {
      assert p + q == q;
    } else {
      assert (p + q)[1..] == p[1..] + q;
      TailAppend(p[1..], q);
    }
  }

  // The test hits a path below a forbidden one exactly when the path goes on
  // with a mapping key; a list item slips through.
  lemma PrefixHitsIff(p: Path, f: Path)
    requires f != [] && f[0].Key? && CleanPath(f) && f <= p
    ensures PrefixHits(Render(p), Render(f)) <==> p == f || p[|f|].Key?
  {
    var rest := p[|f|..];
    assert p == f + rest;
    RenderSplits(p, f, rest);
    HitsIff(Render(f), Tail(rest));
    if rest == [] {
      assert p == f;
    } else {
      assert rest[0] == p[|f|] && p != f;
      TailStart(rest);
    }
  }

  lemma RenderSplits(p: Path, f: Path, rest: Path)
    requires f != [] && f[0].Key? && p == f + rest && CleanPath(f)
    ensures Render(p) == Render(f) + Tail(rest)
  {
    assert p[0] == f[0] && p[1..] == f[1..] + rest;
    RenderRoot(p);
    RenderRoot(f);
    TailAppend(f[1..], rest);
    Associative(f[0].name, Tail(f[1..]), Tail(rest));
  }

  lemma HitsIff(a: string, t: string)
    ensures PrefixHits(a + t, a) <==> t == "" || t[0] == '.'
  {
    if t != "" {
      assert (a + t)[|a|] == t[0] && (a + ".")[|a|] == '.' && |a + t| > |a|;
      assert (a + t)[..|a|] == a;
    } else {
      assert a + t == a;
    }
  }

  // --- Loading ------------------------------------------------------------

  datatype Effective = Effective(config: Value, provenance: map<string, Layer>)

  // The layering of the loader: the managed layer is empty, environment
  // placeholders expand in the user layer only, and the user layer wins.
  ghost function Load(project: Value, user: Value, env: Environment): Option<Effective>
    requires project.Map? && user.Map?
  {
    if !AcceptsProject(project, env) || !Expandable(user, env) then None
    else
      var managed := Map(map[]);
      var expanded := Expand(user, env);
      Some(Effective(Merge(Merge(managed, project), expanded),
                     Claim(Claim(Claim(map[], managed, Managed), project, Project), expanded, User)))
  }

  lemma EmptyBase(v: Value)
    requires v.Map?
    ensures Merge(Map(map[]), v) == v
  {
    assert Merge(Map(map[]), v).fields == v.fields;
  }

  lemma NothingManaged()
    ensures Paths(Map(map[])) == {}
  {
    assert Walk(Map(map[]), "") == {};
  }

  lemma RootIsKey(v: Value, p: Path)
    requires v.Map? && LeafAt(v, p).Some?
    ensures p != [] && p[0].Key?
  {
  }

  // Every effective leaf is the expanded user leaf if the user layer has one
  // there, and the project leaf otherwise, whatever the keys.
  lemma EffectiveValue(project: Value, user: Value, env: Environment, p: Path)
    requires project.Map? && user.Map?
    requires Load(project, user, env).Some? && LeafAt(Load(project, user, env).value.config, p).Some?
    ensures LeafAt(Load(project, user, env).value.config, p) ==
            if LeafAt(user, p).Some? then LeafAt(Expand(user, env), p) else LeafAt(project, p)
    ensures LeafAt(user, p).Some? || LeafAt(project, p).Some?
  {
    var expanded := Expand(user, env);
    ExpandLeaf(user, env, p);
    EmptyBase(project);
    MergeLeaf(project, expanded, p);
    if LeafAt(user, p).Some? {
      LeafOverrides(project, expanded, p);
    }
  }

  // Some leaf has that dotted text.
  ghost predicate HasText(v: Value, dotted: string) {
    exists q :: LeafAt(v, q).Some? && Render(q) == dotted
  }

  lemma PathsAreTexts(v: Value, dotted: string)
    ensures dotted in Paths(v) <==> HasText(v, dotted)
  {
    if dotted in Paths(v) {
      var x :| x in Walk(v, "") && x.0 == dotted;
      var q := WalkIsLeaf(v, "", x);
      assert LeafAt(v, q).Some? && Render(q) == dotted;
    }
    if HasText(v, dotted) {
      var q :| LeafAt(v, q).Some? && Render(q) == dotted;
      WalkFinds(v, "", q);
      assert (dotted, LeafAt(v, q).value) in Walk(v, "");
    }
  }

  lemma ExpandKeepsTexts(v: Value, env: Environment, dotted: string)
    requires Expandable(v, env)
    ensures HasText(Expand(v, env), dotted) <==> HasText(v, dotted)
  {
    forall q ensures LeafAt(Expand(v, env), q).Some? <==> LeafAt(v, q).Some? { ExpandLeaf(v, env, q); }
  }

  // What the provenance says under a dotted text, whatever the keys.
  lemma ProvenanceOfText(project: Value, user: Value, env: Environment, dotted: string)
    requires project.Map? && user.Map? && Load(project, user, env).Some?
    ensures var provenance := Load(project, user, env).value.provenance;
      && (dotted in provenance <==> HasText(project, dotted) || HasText(user, dotted))
      && (dotted in provenance ==> provenance[dotted] == if HasText(user, dotted) then User else Project)
  {
    NothingManaged();
    PathsAreTexts(project, dotted);
    PathsAreTexts(Expand(user, env), dotted);
    ExpandKeepsTexts(user, env, dotted);
  }

  // The layer an effective leaf comes from.
  function LayerOf(user: Value, p: Path): Layer {
    if LeafAt(user, p).Some? then User else Project
  }

  // Exactly when the provenance of an effective leaf names the layer it comes
  // from: unless it is the project's and the user has another leaf whose
  // dotted path reads the same.
  lemma ProvenanceIsRightIff(project: Value, user: Value, env: Environment, p: Path)
    requires project.Map? && user.Map?
    requires Load(project, user, env).Some? && LeafAt(Load(project, user, env).value.config, p).Some?
    ensures Render(p) in Load(project, user, env).value.provenance
    ensures Load(project, user, env).value.provenance[Render(p)] == LayerOf(user, p) <==>
            LeafAt(user, p).Some? || !HasText(user, Render(p))
  {
    EffectiveValue(project, user, env, p);
    ProvenanceOfText(project, user, env, Render(p));
    assert LeafAt(user, p).Some? ==> HasText(user, Render(p));
    assert LeafAt(project, p).Some? ==> HasText(project, Render(p));
  }

  // Keys free of path punctuation make the provenance right everywhere.
  lemma EffectiveLeaf(project: Value, user: Value, env: Environment, p: Path)
    requires project.Map? && user.Map? && CleanValue(project) && CleanValue(user)
    requires Load(project, user, env).Some? && LeafAt(Load(project, user, env).value.config, p).Some?
    ensures var e := Load(project, user, env).value;
      && Render(p) in e.provenance && e.provenance[Render(p)] == LayerOf(user, p)
      && LeafAt(e.config, p) == if LeafAt(user, p).Some? then LeafAt(Expand(user, env), p) else LeafAt(project, p)
  {
    EffectiveValue(project, user, env, p);
    ProvenanceIsRightIff(project, user, env, p);
    if LeafAt(user, p) == None && HasText(user, Render(p)) {
      var q :| LeafAt(user, q).Some? && Render(q) == Render(p);
      CleanTextIsPlace(project, p, user, q);
    }
  }

  lemma CleanTextIsPlace(v: Value, p: Path, w: Value, q: Path)
    requires v.Map? && w.Map? && CleanValue(v) && CleanValue(w) && LeafAt(v, p).Some? && LeafAt(w, q).Some?
    requires Render(p) == Render(q)
    ensures p == q
  {
    CleanLeaf(v, p);
    CleanLeaf(w, q);
    RootIsKey(v, p);
    RootIsKey(w, q);
    RenderInjective(p, q);
  }

  // With other keys it can be wrong: a user key with a dot in it claims a leaf
  // of the project.
  lemma DottedKeyTakesProvenance(env: Environment)
    requires !env.mentions("x") && env.expand("y").Some?
    ensures var project, user := Map(map["a" := Map(map["b" := Text("x")])]), Map(map["a.b" := Text("y")]);
      var p := [Key("a"), Key("b")]; var loaded := Load(project, user, env);
      && loaded.Some? && LeafAt(user, p) == None && LeafAt(loaded.value.config, p) == Some(Text("x"))
      && Render(p) in loaded.value.provenance && loaded.value.provenance[Render(p)] == User
  {
    var project, user := Map(map["a" := Map(map["b" := Text("x")])]), Map(map["a.b" := Text("y")]);
    var p, q := [Key("a"), Key("b")], [Key("a.b")];
    TwoKeysRender();
    assert LeafAt(user, q).Some? by { assert q[1..] == []; }
    forall x | x in Walk(project, "") ensures !Forbidden(x.0) && x.1 == Text("x") {
      var r := WalkIsLeaf(project, "", x);
      OnlyNestedLeaf(project, r);
    }
    assert LeafAt(project, p) == Some(Text("x")) by { assert p[1..] == [Key("b")] && p[1..][1..] == []; }
    assert HasText(user, Render(p));
    EmptyBase(project);
    MergeLeaf(project, Expand(user, env), p);
    EffectiveValue(project, user, env, p);
    ProvenanceOfText(project, user, env, Render(p));
  }

  lemma TwoKeysRender()
    ensures Render([Key("a"), Key("b")]) == "a.b" && Render([Key("a.b")]) == "a.b" && !Forbidden("a.b")
  {
    var p, q := [Key("a"), Key("b")], [Key("a.b")];
    assert p[1..] == [Key("b")] && p[1..][1..] == [] && q[1..] == [];
    assert Render(p) == RenderFrom("a", p[1..]) == RenderFrom(StepText("a", Key("b")), p[1..][1..]);
    forall i | 0 <= i < |FORBIDDEN| ensures |Render(FORBIDDEN[i])| >= 4 {
      RenderRoot(FORBIDDEN[i]);
      if FORBIDDEN[i][1..] != [] { TailStart(FORBIDDEN[i][1..]); }
    }
  }

  lemma OnlyNestedLeaf(project: Value, q: Path)
    requires project == Map(map["a" := Map(map["b" := Text("x")])]) && LeafAt(project, q).Some?
    ensures q == [Key("a"), Key("b")] && LeafAt(project, q) == Some(Text("x")) && !Forbidden(Render(q))
  {
    assert q[0] == Key("a") && LeafAt(Map(map["b" := Text("x")]), q[1..]).Some?;
    assert q[1..][0] == Key("b") && LeafAt(Text("x"), q[1..][1..]).Some?;
    assert q[1..][1..] == [];
    assert q == [q[0]] + ([q[1..][0]] + q[1..][1..]);
    TwoKeysRender();
  }

  // No user leaf is lost.
  lemma UserLeafWins(project: Value, user: Value, env: Environment, p: Path)
    requires project.Map? && user.Map? && Load(project, user, env).Some? && LeafAt(user, p).Some?
    ensures LeafAt(Load(project, user, env).value.config, p) == LeafAt(Expand(user, env), p)
  {
    ExpandLeaf(user, env, p);
    EmptyBase(project);
    MergeLeaf(project, Expand(user, env), p);
    LeafOverrides(project, Expand(user, env), p);
  }

  // What becomes of a project leaf: it stays exactly unless the user layer has
  // something on the way to it that does not merge.
  lemma ProjectLeafStaysIff(project: Value, user: Value, env: Environment, p: Path)
    requires project.Map? && user.Map? && Load(project, user, env).Some? && LeafAt(project, p).Some?
    ensures var config, over := Load(project, user, env).value.config, Expand(user, env);
      LeafAt(config, p) ==
        if exists n :: 0 < n <= |p| && DecidedAt(project, over, p[..n]) then LeafAt(over, p) else LeafAt(project, p)
  {
    EmptyBase(project);
    MergeLeaf(project, Expand(user, env), p);
    OverridesIff(project, Expand(user, env), p);
  }

  // --- The gate -----------------------------------------------------------

  // A leaf at forbidden field `f`, or below it through a mapping key.
  predicate Under(p: Path, f: Path) {
    f <= p && (p == f || p[|f|].Key?)
  }

  // An accepted project has no leaf at a forbidden field, nor below it through
  // a mapping key, whatever its keys.
  lemma AcceptedLeaf(project: Value, env: Environment, p: Path, n: nat)
    requires AcceptsProject(project, env) && LeafAt(project, p).Some? && n < |FORBIDDEN|
    ensures !Under(p, FORBIDDEN[n])
  {
    WalkFinds(project, "", p);
    ForbiddenIsClean(n);
    NotHit(Render(p), n);
    UnderIsHit(p, FORBIDDEN[n]);
  }

  lemma ForbiddenIsClean(n: nat)
    requires n < |FORBIDDEN|
    ensures FORBIDDEN[n] != [] && FORBIDDEN[n][0].Key? && CleanPath(FORBIDDEN[n])
  {
    assert CleanKey("models") && CleanKey("providers") && CleanKey("memory");
    assert CleanKey("gateway") && CleanKey("agent") && CleanKey("socket");
    match n
    case 0 => CleanPair("models", "providers");
    case 1 => CleanPair("memory", "providers");
    case 2 => assert FORBIDDEN[2] == [Key("gateway")];
    case 3 => CleanPair("agent", "socket");
  }

  lemma CleanPair(a: string, b: string)
    requires CleanKey(a) && CleanKey(b)
    ensures CleanPath([Key(a), Key(b)])
  {
  }

  lemma NotHit(dotted: string, n: nat)
    requires !Forbidden(dotted) && n < |FORBIDDEN|
    ensures !PrefixHits(dotted, Render(FORBIDDEN[n]))
  {
  }

  lemma UnderIsHit(p: Path, f: Path)
    requires f != [] && f[0].Key? && CleanPath(f)
    ensures Under(p, f) ==> PrefixHits(Render(p), Render(f))
  {
    if f <= p { PrefixHitsIff(p, f); }
  }

  // No effective leaf at or below a forbidden field comes from the project, or
  // has project provenance, whatever the keys; an item of a list that stands
  // for the whole field is the one exception.
  lemma NoForbiddenProjectLeaf(project: Value, user: Value, env: Environment, p: Path, n: nat)
    requires project.Map? && user.Map?
    requires Load(project, user, env).Some? && LeafAt(Load(project, user, env).value.config, p).Some?
    requires n < |FORBIDDEN| && Under(p, FORBIDDEN[n])
    ensures LeafAt(user, p).Some?
    ensures LeafAt(Load(project, user, env).value.config, p) == LeafAt(Expand(user, env), p)
    ensures Render(p) in Load(project, user, env).value.provenance
    ensures Load(project, user, env).value.provenance[Render(p)] == User
  {
    EffectiveValue(project, user, env, p);
    if LeafAt(project, p).Some? {
      AcceptedLeaf(project, env, p, n);
    }
    ProvenanceIsRightIff(project, user, env, p);
  }

  lemma TailStopsBefore(p: Path, more: string)
    ensures Stops(Tail(p) + ("." + more))
  {
    TailStops(p);
    if Tail(p) != "" {
      assert (Tail(p) + ("." + more))[0] == Tail(p)[0];
    }
  }

  // A dotted text that goes on with a dot after a clean path is that of a
  // longer path.
  lemma {:induction false} TailExtends(p: Path, f: Path, more: string)
    requires CleanPath(p) && CleanPath(f) && Tail(p) == Tail(f) + ("." + more)
    ensures f <= p && |f| < |p| && p[|f|].Key?
    decreases |f|
  {
    TailIsEmpty(p);
    if f == [] {
      TailStart(p);
    } else {
      TailPeels(p, f, more);
      TailExtends(p[1..], f[1..], more);
      PrefixPeels(p, f);
    }
  }

  lemma TailPeels(p: Path, f: Path, more: string)
    requires p != [] && f != [] && CleanPath(p) && CleanPath(f) && Tail(p) == Tail(f) + ("." + more)
    ensures p[0] == f[0] && Tail(p[1..]) == Tail(f[1..]) + ("." + more)
  {
    var rest := Tail(f[1..]) + ("." + more);
    TailStops(p[1..]);
    TailStopsBefore(f[1..], more);
    Associative(HeadText(f[0]), Tail(f[1..]), "." + more);
    HeadSplits(p[0], Tail(p[1..]), f[0], rest);
  }

  lemma PrefixPeels(p: Path, f: Path)
    requires p != [] && f != [] && p[0] == f[0] && f[1..] <= p[1..]
    ensures f <= p
  {
    assert p == [p[0]] + p[1..] && f == [f[0]] + f[1..];
  }

  lemma RenderPeels(p: Path, f: Path, more: string)
    requires p != [] && f != [] && p[0].Key? && f[0].Key? && CleanPath(p) && CleanPath(f)
    requires Render(p) == Render(f) + ("." + more)
    ensures p[0] == f[0] && Tail(p[1..]) == Tail(f[1..]) + ("." + more)
  {
    var rest := Tail(f[1..]) + ("." + more);
    RenderRoot(p);
    RenderRoot(f);
    Associative(f[0].name, Tail(f[1..]), "." + more);
    TailStops(p[1..]);
    TailStopsBefore(f[1..], more);
    SameHead(p[0].name, Tail(p[1..]), f[0].name, rest, {'.', '['});
  }

  lemma RenderExtends(p: Path, f: Path, more: string)
    requires p != [] && f != [] && p[0].Key? && f[0].Key? && CleanPath(p) && CleanPath(f)
    requires Render(p) == Render(f) + ("." + more)
    ensures f <= p && |f| < |p| && p[|f|].Key?
  {
    RenderPeels(p, f, more);
    TailExtends(p[1..], f[1..], more);
    PrefixPeels(p, f);
  }

  // On clean paths the test hits nothing else.
  lemma CleanPrefixHitsIff(p: Path, f: Path)
    requires p != [] && f != [] && p[0].Key? && f[0].Key? && CleanPath(p) && CleanPath(f)
    ensures PrefixHits(Render(p), Render(f)) <==> Under(p, f)
  {
    if f <= p {
      PrefixHitsIff(p, f);
    } else if Render(p) == Render(f) {
      RenderInjective(p, f);
    } else if Render(f) + "." <= Render(p) {
      var more := Render(p)[|Render(f)| + 1..];
      assert Render(p) == Render(f) + "." + more;
      Associative(Render(f), ".", more);
      RenderExtends(p, f, more);
    }
  }

  // Exactly which projects are accepted, whatever the keys: by the dotted
  // texts of their leaves.
  lemma AcceptsByText(project: Value, env: Environment)
    ensures AcceptsProject(project, env) <==>
      forall p | LeafAt(project, p).Some? ::
        && !Forbidden(Render(p))
        && !(LeafAt(project, p).value.Text? && env.mentions(LeafAt(project, p).value.text))
  {
    if AcceptsProject(project, env) {
      forall p | LeafAt(project, p).Some?
        ensures !Forbidden(Render(p)) && !(LeafAt(project, p).value.Text? && env.mentions(LeafAt(project, p).value.text))
      {
        WalkFinds(project, "", p);
        assert (Render(p), LeafAt(project, p).value) in Walk(project, "");
      }
    } else {
      var x :| x in Walk(project, "") && (Forbidden(x.0) || (x.1.Text? && env.mentions(x.1.text)));
      var p := WalkIsLeaf(project, "", x);
      assert LeafAt(project, p).Some?;
    }
  }

  // With clean keys, by their places.
  lemma AcceptsIff(project: Value, env: Environment)
    requires project.Map? && CleanValue(project)
    ensures AcceptsProject(project, env) <==>
      forall p | LeafAt(project, p).Some? ::
        && (forall n | 0 <= n < |FORBIDDEN| :: !Under(p, FORBIDDEN[n]))
        && !(LeafAt(project, p).value.Text? && env.mentions(LeafAt(project, p).value.text))
  {
    forall p | LeafAt(project, p).Some?
      ensures Forbidden(Render(p)) <==> exists n :: 0 <= n < |FORBIDDEN| && Under(p, FORBIDDEN[n])
    {
      CleanForbiddenIff(project, p);
    }
    AcceptsByText(project, env);
  }

  lemma CleanForbiddenIff(project: Value, p: Path)
    requires project.Map? && CleanValue(project) && LeafAt(project, p).Some?
    ensures Forbidden(Render(p)) <==> exists n :: 0 <= n < |FORBIDDEN| && Under(p, FORBIDDEN[n])
  {
    CleanLeaf(project, p);
    RootIsKey(project, p);
    forall n | 0 <= n < |FORBIDDEN| ensures PrefixHits(Render(p), Render(FORBIDDEN[n])) <==> Under(p, FORBIDDEN[n]) {
      ForbiddenIsClean(n);
      CleanPrefixHitsIff(p, FORBIDDEN[n]);
    }
  }

  // That exception is real: a project may replace the gateway mapping by a list.
  lemma ListSlipsThrough(env: Environment)
    requires !env.mentions("x")
    ensures var project := Map(map["gateway" := List([Text("x")])]);
      var p := [Key("gateway"), Index(0)]; var loaded := Load(project, Map(map[]), env);
      && CleanValue(project) && FORBIDDEN[2] <= p && loaded.Some?
      && LeafAt(loaded.value.config, p) == Some(Text("x"))
      && Render(p) in loaded.value.provenance && loaded.value.provenance[Render(p)] == Project
  {
    var project, user := Map(map["gateway" := List([Text("x")])]), Map(map[]);
    var p := [Key("gateway"), Index(0)];
    assert p[1..] == [Index(0)] && p[1..][1..] == [];
    assert LeafAt(project, p) == Some(Text("x"));
    assert CleanKey("gateway");
    forall x | x in Walk(project, "") ensures !Forbidden(x.0) && x.1 == Text("x") {
      var q := WalkIsLeaf(project, "", x);
      assert q == p by { OnlyLeaf(project, q); }
      NotForbidden(p);
    }
    EmptyBase(project);
    MergeLeaf(project, Expand(user, env), p);
    assert Expand(user, env) == user;
    EffectiveLeaf(project, user, env, p);
  }

  lemma OnlyLeaf(project: Value, q: Path)
    requires project == Map(map["gateway" := List([Text("x")])]) && LeafAt(project, q).Some?
    ensures q == [Key("gateway"), Index(0)] && LeafAt(project, q) == Some(Text("x"))
  {
    var list := List([Text("x")]);
    assert q[0] == Key("gateway") && LeafAt(list, q[1..]).Some?;
    assert q[1..][0] == Index(0) && LeafAt(Text("x"), q[1..][1..]).Some?;
    assert q[1..][1..] == [];
    assert q == [q[0]] + ([q[1..][0]] + q[1..][1..]);
  }

  lemma NotForbidden(p: Path)
    requires p == [Key("gateway"), Index(0)]
    ensures !Forbidden(Render(p))
  {
    assert p[1..] == [Index(0)] && p[1..][1..] == [];
    assert StepText("", p[0]) == "gateway" && Decimal(0) == "0";
    assert Render(p) == RenderFrom("gateway", p[1..]);
    assert p[1..][0] == Index(0);
    assert RenderFrom("gateway", p[1..]) == RenderFrom(StepText("gateway", Index(0)), p[1..][1..]);
    assert Render(p) == "gateway" + "[" + "0" + "]";
    assert Render(p)[0] == 'g' && Render(p)[7] == '[' && |Render(p)| == 10;
    assert Render(FORBIDDEN[2]) == "gateway" by { assert FORBIDDEN[2][1..] == []; }
    forall i | 0 <= i < |FORBIDDEN| && i != 2 ensures Render(FORBIDDEN[i]) != "" && Render(FORBIDDEN[i])[0] != 'g' {
      RenderRoot(FORBIDDEN[i]);
    }
    forall i | 0 <= i < |FORBIDDEN| ensures !PrefixHits(Render(p), Render(FORBIDDEN[i])) {}
  }

  // --- Setting one value --------------------------------------------------

  function NonEmpty(parts: seq<string>): seq<string> {
    if parts == [] then []
    else (if parts[0] == "" then [] else [parts[0]]) + NonEmpty(parts[1..])
  }

  function Parts(dotted: string): seq<string> {
    NonEmpty(Split(dotted, '.'))
  }

  lemma {:induction false} NonEmptyAppend(a: seq<string>, b: seq<string>)
    ensures NonEmpty(a + b) == NonEmpty(a) + NonEmpty(b)
  {
    if a == [] {
      assert a + b == b;
    } else {
      assert (a + b)[1..] == a[1..] + b && (a + b)[0] == a[0];
      NonEmptyAppend(a[1..], b);
      Associative(if a[0] == "" then [] else [a[0]], NonEmpty(a[1..]), NonEmpty(b));
    }
  }

  // The parts of a dotted key: none for the empty key, itself for a key
  // without a dot, and those of both sides around any dot. That says what they
  // are for every key.
  lemma PartsOfKey(a: string, b: string)
    ensures Parts("") == []
    ensures a != "" && '.' !in a ==> Parts(a) == [a]
    ensures Parts(a + "." + b) == Parts(a) + Parts(b)
  {
    assert Split("", '.') == [""];
    if '.' !in a { SplitPlain(a, '.'); }
    SplitBoth(a, '.', b);
    NonEmptyAppend(Split(a, '.'), Split(b, '.'));
  }

  // The mapping after walking the parts in place, and whether it got through;
  // what the walk created before it failed would stay.
  function Put(v: Value, parts: seq<string>, x: Value): (Value, bool)
    requires v.Map? && parts != []
    decreases |parts|
  {
    var k := parts[0];
    if |parts| == 1 then (Map(v.fields[k := x]), true)
    else
      var child := if k in v.fields then v.fields[k] else Map(map[]);
      if !child.Map? then (Map(v.fields[k := child]), false)
      else
        var (child', ok) := Put(child, parts[1..], x);
        (Map(v.fields[k := child']), ok)
  }

  function SetNested(v: Value, dotted: string, x: Value): (Value, bool)
    requires v.Map?
  {
    if Parts(dotted) == [] then (v, false) else Put(v, Parts(dotted), x)
  }

  // A part before the last names something that is not a mapping.
  predicate Blocked(v: Value, parts: seq<string>)
    requires v.Map?
    decreases |parts|
  {
    |parts| > 1 && parts[0] in v.fields && (!v.fields[parts[0]].Map? || Blocked(v.fields[parts[0]], parts[1..]))
  }

  function KeyPath(parts: seq<string>): Path {
    seq(|parts|, i requires 0 <= i < |parts| => Key(parts[i]))
  }

  lemma {:induction false} NothingIsBlocked(parts: seq<string>)
    ensures !Blocked(Map(map[]), parts)
  {
  }

  // In terms of the mapping: some value on the way is no mapping.
  lemma {:induction false} BlockedIff(v: Value, parts: seq<string>)
    requires v.Map?
    ensures Blocked(v, parts) <==>
      exists n :: 0 < n < |parts| && ValueAt(v, KeyPath(parts)[..n]).Some? && !ValueAt(v, KeyPath(parts)[..n]).value.Map?
    decreases |parts|
  {
    var p := KeyPath(parts);
    if |parts| > 1 {
      var k := parts[0];
      assert p[1..] == KeyPath(parts[1..]);
      forall n | 0 < n < |parts| ensures ValueAt(v, p[..n]) ==
        if k in v.fields then ValueAt(v.fields[k], p[1..][..n - 1]) else None
      {
        assert p[..n][0] == Key(k) && p[..n][1..] == p[1..][..n - 1];
      }
      if k in v.fields {
        assert p[1..][..0] == [];
        if v.fields[k].Map? {
          BlockedIff(v.fields[k], parts[1..]);
          BlockedDeeper(v, parts);
        } else {
          assert ValueAt(v, p[..1]) == Some(v.fields[k]);
        }
      }
    }
  }

  lemma BlockedDeeper(v: Value, parts: seq<string>)
    requires v.Map? && |parts| > 1 && parts[0] in v.fields && v.fields[parts[0]].Map?
    requires var p := KeyPath(parts); forall n | 0 < n < |parts| ::
      ValueAt(v, p[..n]) == ValueAt(v.fields[parts[0]], p[1..][..n - 1])
    ensures var p, child := KeyPath(parts), v.fields[parts[0]];
      (exists n :: 0 < n < |parts| && ValueAt(v, p[..n]).Some? && !ValueAt(v, p[..n]).value.Map?) <==>
      (exists n :: 0 < n < |parts[1..]| && ValueAt(child, KeyPath(parts[1..])[..n]).Some?
                   && !ValueAt(child, KeyPath(parts[1..])[..n]).value.Map?)
  {
    var p, q, child := KeyPath(parts), KeyPath(parts[1..]), v.fields[parts[0]];
    assert p[1..] == q && q[..0] == [] && ValueAt(v, p[..1]) == Some(child);
    if n :| 0 < n < |parts| && ValueAt(v, p[..n]).Some? && !ValueAt(v, p[..n]).value.Map? {
      assert ValueAt(child, q[..n - 1]) == ValueAt(v, p[..n]);
    }
    if n :| 0 < n < |parts[1..]| && ValueAt(child, q[..n]).Some? && !ValueAt(child, q[..n]).value.Map? {
      assert p[1..][..n + 1 - 1] == q[..n];
      assert ValueAt(v, p[..n + 1]) == ValueAt(child, q[..n]);
    }
  }

  // It raises exactly when it is blocked, and then leaves the mapping as it was.
  lemma {:induction false} PutRaisesIff(v: Value, parts: seq<string>, x: Value)
    requires v.Map? && parts != []
    ensures var (v', ok) := Put(v, parts, x); (ok <==> !Blocked(v, parts)) && (!ok ==> v' == v) && v'.Map?
    decreases |parts|
  {
    var k := parts[0];
    if |parts| > 1 {
      var child := if k in v.fields then v.fields[k] else Map(map[]);
      NothingIsBlocked(parts[1..]);
      if child.Map? {
        PutRaisesIff(child, parts[1..], x);
      }
      if k in v.fields { assert v.fields[k := v.fields[k]] == v.fields; }
    }
  }

  // Otherwise exactly the leaves at and below the path change.
  lemma {:induction false} PutLeaf(v: Value, parts: seq<string>, x: Value, p: Path)
    requires v.Map? && parts != [] && Put(v, parts, x).1
    ensures LeafAt(Put(v, parts, x).0, p) ==
      if KeyPath(parts) <= p then LeafAt(x, p[|parts|..]) else LeafAt(v, p)
    decreases |parts|
  {
    PathSplits(parts, p);
    if p == [] || p[0] != Key(parts[0]) {
      PutElsewhere(v, parts, x, p);
    } else if |parts| == 1 {
      PutHere(v, parts, x, p);
    } else {
      PutBelow(v, parts, x);
      PutLeaf(Child(v, parts[0]), parts[1..], x, p[1..]);
      NoLeaf(p[1..]);
    }
  }

  // The mapping a part leads to, an empty one if there is nothing.
  function Child(v: Value, k: string): Value
    requires v.Map?
  {
    if k in v.fields then v.fields[k] else Map(map[])
  }

  lemma PutElsewhere(v: Value, parts: seq<string>, x: Value, p: Path)
    requires v.Map? && parts != [] && (p == [] || p[0] != Key(parts[0]))
    ensures LeafAt(Put(v, parts, x).0, p) == LeafAt(v, p)
  {
  }

  lemma PutHere(v: Value, parts: seq<string>, x: Value, p: Path)
    requires v.Map? && |parts| == 1 && p != [] && p[0] == Key(parts[0])
    ensures KeyPath(parts) <= p && LeafAt(Put(v, parts, x).0, p) == LeafAt(x, p[1..])
  {
    assert KeyPath(parts) == [Key(parts[0])];
  }

  lemma PutBelow(v: Value, parts: seq<string>, x: Value)
    requires v.Map? && |parts| > 1 && Put(v, parts, x).1
    ensures var child := Child(v, parts[0]);
      && child.Map? && Put(child, parts[1..], x).1
      && Put(v, parts, x).0 == Map(v.fields[parts[0] := Put(child, parts[1..], x).0])
  {
  }

  lemma NoLeaf(p: Path)
    ensures LeafAt(Map(map[]), p) == None
  {
  }

  lemma PathSplits(parts: seq<string>, p: Path)
    requires parts != []
    ensures KeyPath(parts) <= p <==> p != [] && p[0] == Key(parts[0]) && KeyPath(parts[1..]) <= p[1..]
    ensures KeyPath(parts) <= p ==> p[|parts|..] == p[1..][|parts| - 1..]
  {
    assert KeyPath(parts) == [Key(parts[0])] + KeyPath(parts[1..]);
    if p != [] {
      assert p == [p[0]] + p[1..];
    }
  }

  lemma SetNestedRaises(v: Value, dotted: string, x: Value)
    requires v.Map?
    ensures var (v', ok) := SetNested(v, dotted, x);
      (ok <==> Parts(dotted) != [] && !Blocked(v, Parts(dotted))) && (!ok ==> v' == v)
  {
    if Parts(dotted) != [] { PutRaisesIff(v, Parts(dotted), x); }
  }

}

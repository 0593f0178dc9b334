/**
 * Layered configuration: parsed values, deep merge, leaves with their dotted
 * paths, and the layer each effective leaf comes from.
 */
module ConfigLayers {

  import opened Core

  datatype Value =
    | Scalar(text: string)
    | Text(text: string)
    | List(items: seq<Value>)
    | Map(fields: map<string, Value>)

  // --- Leaves -------------------------------------------------------------

  datatype Step = Key(name: string) | Index(i: nat)
  type Path = seq<Step>

  function LeafAt(v: Value, p: Path): Option<Value> {
    match v
    case Map(fields) =>
      if p != [] && p[0].Key? && p[0].name in fields then LeafAt(fields[p[0].name], p[1..]) else None
    case List(items) =>
      if p != [] && p[0].Index? && p[0].i < |items| then LeafAt(items[p[0].i], p[1..]) else None
    case _ => if p == [] then Some(v) else None
  }

  // --- Deep merge ---------------------------------------------------------

  function Merge(base: Value, over: Value): Value
    requires base.Map? && over.Map?
    decreases over, 1
  {
    Map(map k | k in base.fields.Keys + over.fields.Keys ::
          if k in over.fields then Entry(base, over, k) else base.fields[k])
  }

  // What key `k` of the override puts into the result.
  function Entry(base: Value, over: Value, k: string): Value
    requires base.Map? && over.Map? && k in over.fields
    decreases over, 0
  {
    if k in base.fields && base.fields[k].Map? && over.fields[k].Map?
    then Merge(base.fields[k], over.fields[k])
    else over.fields[k]
  }

  // The override decides what is at `p`.
  predicate Overrides(base: Value, over: Value, p: Path)
    requires base.Map? && over.Map?
    decreases over
  {
    && p != [] && p[0].Key? && p[0].name in over.fields
    && (var k := p[0].name;
        k in base.fields && base.fields[k].Map? && over.fields[k].Map? ==> Overrides(base.fields[k], over.fields[k], p[1..]))
  }

  // A leaf of the merged mapping is the override's where the override decides,
  // and the base's elsewhere.
  lemma {:induction false} MergeLeaf(base: Value, over: Value, p: Path)
    requires base.Map? && over.Map?
    ensures LeafAt(Merge(base, over), p) == if Overrides(base, over, p) then LeafAt(over, p) else LeafAt(base, p)
    decreases over
  {
    if p != [] && p[0].Key? && p[0].name in over.fields {
      var k := p[0].name;
      if k in base.fields && base.fields[k].Map? && over.fields[k].Map? {
        MergeLeaf(base.fields[k], over.fields[k], p[1..]);
      }
    }
  }

  // Where the override has a leaf, it decides.
  lemma {:induction false} LeafOverrides(base: Value, over: Value, p: Path)
    requires base.Map? && over.Map? && LeafAt(over, p).Some?
    ensures Overrides(base, over, p)
    decreases over
  {
    var k := p[0].name;
    if k in base.fields && base.fields[k].Map? && over.fields[k].Map? {
      LeafOverrides(base.fields[k], over.fields[k], p[1..]);
    }
  }

  // The value at a path of mapping keys, if there is one.
  function ValueAt(v: Value, p: Path): Option<Value>
    decreases |p|
  {
    if p == [] then Some(v)
    else if v.Map? && p[0].Key? && p[0].name in v.fields then ValueAt(v.fields[p[0].name], p[1..])
    else None
  }

  // The override has something at `q`, and not both sides have a mapping there.
  predicate DecidedAt(base: Value, over: Value, q: Path) {
    && ValueAt(over, q).Some?
    && !(ValueAt(over, q).value.Map? && ValueAt(base, q).Some? && ValueAt(base, q).value.Map?)
  }

  lemma DecidedBelow(base: Value, over: Value, p: Path, n: nat)
    requires base.Map? && over.Map? && p != [] && p[0].Key? && 0 < n <= |p|
    requires var k := p[0].name; k in over.fields && k in base.fields && base.fields[k].Map? && over.fields[k].Map?
    ensures var k := p[0].name;
      DecidedAt(base, over, p[..n]) <==> n > 1 && DecidedAt(base.fields[k], over.fields[k], p[1..][..n - 1])
  {
    var k, q, rest := p[0].name, p[..n], p[1..][..n - 1];
    assert q[0] == p[0] && q[1..] == rest;
    ValueBelow(over, q, rest);
    ValueBelow(base, q, rest);
    if n == 1 {
      assert rest == [];
    }
  }

  lemma ValueBelow(v: Value, q: Path, rest: Path)
    requires v.Map? && q != [] && q[0].Key? && q[0].name in v.fields && q[1..] == rest
    ensures ValueAt(v, q) == ValueAt(v.fields[q[0].name], rest)
  {
  }

  // The override decides exactly where it has something on the way that does
  // not merge: anything but a mapping against a mapping.
  lemma {:induction false} OverridesIff(base: Value, over: Value, p: Path)
    requires base.Map? && over.Map?
    ensures Overrides(base, over, p) <==> exists n :: 0 < n <= |p| && DecidedAt(base, over, p[..n])
    decreases over
  {
    if p != [] && p[0].Key? && p[0].name in over.fields {
      var k := p[0].name;
      assert p[..1][1..] == [] && p[..1][0] == p[0];
      if k in base.fields && base.fields[k].Map? && over.fields[k].Map? {
        OverridesIff(base.fields[k], over.fields[k], p[1..]);
        forall n | 0 < n <= |p|
          ensures DecidedAt(base, over, p[..n]) <==> n > 1 && DecidedAt(base.fields[k], over.fields[k], p[1..][..n - 1])
        {
          DecidedBelow(base, over, p, n);
        }
        if m :| 0 < m <= |p[1..]| && DecidedAt(base.fields[k], over.fields[k], p[1..][..m]) {
          assert p[1..][..m + 1 - 1] == p[1..][..m];
          assert DecidedAt(base, over, p[..m + 1]);
        }
      } else {
        assert DecidedAt(base, over, p[..1]);
      }
    } else {
      forall n | 0 < n <= |p| ensures !DecidedAt(base, over, p[..n]) { assert p[..n][0] == p[0]; }
    }
  }

  // The result once the entries in `done` are in.
  ghost function Partly(base: Value, over: Value, done: set<string>): map<string, Value>
    requires base.Map? && over.Map? && done <= over.fields.Keys
  {
    map k | k in base.fields.Keys + done :: if k in done then Entry(base, over, k) else base.fields[k]
  }

  lemma PartlyMore(base: Value, over: Value, done: set<string>, k: string)
    requires base.Map? && over.Map? && done <= over.fields.Keys && k in over.fields && k !in done
    ensures Partly(base, over, done + {k}) == Partly(base, over, done)[k := Entry(base, over, k)]
    ensures k in Partly(base, over, done) <==> k in base.fields
    ensures k in base.fields ==> Partly(base, over, done)[k] == base.fields[k]
  {
  }

  lemma PartlyEnds(base: Value, over: Value)
    requires base.Map? && over.Map?
    ensures Partly(base, over, {}) == base.fields
    ensures Map(Partly(base, over, over.fields.Keys)) == Merge(base, over)
  {
  }

  // Copy the base, then let every entry of the override replace or merge.
  method DeepMerge(base: Value, over: Value) returns (result: Value)
    requires base.Map? && over.Map?
    ensures result == Merge(base, over)
    decreases over
  {
    var fields := base.fields;
    var todo := over.fields.Keys;
    PartlyEnds(base, over);
    assert over.fields.Keys - todo == {};
    while todo != {}
      invariant todo <= over.fields.Keys
      invariant fields == Partly(base, over, over.fields.Keys - todo)
      decreases |todo|
    {
      var k :| k in todo;
      PartlyMore(base, over, over.fields.Keys - todo, k);
      assert over.fields.Keys - (todo - {k}) == over.fields.Keys - todo + {k};
      if k in fields && fields[k].Map? && over.fields[k].Map? {
        var merged := DeepMerge(fields[k], over.fields[k]);
        fields := fields[k := merged];
      } else {
        fields := fields[k := over.fields[k]];
      }
      todo := todo - {k};
    }
    assert over.fields.Keys - todo == over.fields.Keys;
    result := Map(fields);
  }

}

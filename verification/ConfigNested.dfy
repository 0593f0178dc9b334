/**
 * Setting a dotted key in nested mappings that are updated in place.
 */
module ConfigNested {

  import opened ConfigLayers
  import opened ConfigPaths

  // What a mapping holds under a key: another mapping object, or anything else.
  datatype Node = Other(value: Value) | Sub(dict: Dict) {

    // The objects it brings along.
    ghost function Objects(): set<Dict>
      reads if Sub? then {dict} else {}
    {
      if Sub? then dict.repr else {}
    }

    ghost predicate Valid()
      reads if Sub? then {dict} + dict.repr else {}
    {
      if Sub? then dict.Valid() else !value.Map?
    }

    ghost function View(): Value
      requires Valid()
      reads if Sub? then {dict} + dict.repr else {}
    {
      if Sub? then dict.View() else value
    }
  }

  class Dict {
    var fields: map<string, Node>
    ghost var repr: set<Dict>

    // The objects reachable from here form a tree.
    ghost predicate Valid()
      reads this, repr
      decreases repr, 1
    {
      && this in repr
      && (forall k <- fields :: Owns(fields[k]))
      && (forall j, k | j in fields && k in fields && j != k :: Apart(fields[j], fields[k]))
    }

    ghost predicate Owns(n: Node)
      requires this in repr
      reads this, repr
      decreases repr, 0
    {
      if n.Other? then !n.value.Map? else n.dict in repr && n.dict.repr <= repr - {this} && n.dict.Valid()
    }

    ghost predicate Apart(m: Node, n: Node)
      requires (m.Sub? ==> m.dict in repr) && (n.Sub? ==> n.dict in repr)
      reads this, repr
    {
      m.Sub? && n.Sub? ==> m.dict.repr !! n.dict.repr
    }

    ghost function View(): (v: Value)
      requires Valid()
      reads this, repr
      ensures v.Map?
      decreases repr, 1
    {
      Map(map k | k in fields :: ViewOf(fields[k]))
    }

    ghost function ViewOf(n: Node): Value
      requires this in repr && Owns(n)
      reads this, repr
      decreases repr, 0
    {
      if n.Other? then n.value else n.dict.View()
    }

    constructor ()
      ensures Valid() && fresh(repr) && View() == Map(map[])
    {
      fields, repr := map[], {this};
    }

    // Store a value that shares no mapping object with this one.
    method Store(k: string, x: Node)
      requires Valid() && x.Valid() && x.Objects() !! repr
      modifies this
      ensures Valid() && repr == old(repr) + x.Objects()
      ensures fields == old(fields)[k := x]
      ensures View() == Map(old(View()).fields[k := old(x.View())])
    {
      fields := fields[k := x];
      repr := repr + x.Objects();
    }

    // The value under `k`, a new mapping if there is none.
    method SetDefault(k: string) returns (child: Node)
      requires Valid()
      modifies this
      ensures Valid() && fresh(repr - old(repr)) && k in fields && fields[k] == child
      ensures View().fields == if k in old(fields) then old(View()).fields else old(View()).fields[k := Map(map[])]
    {
      if k !in fields {
        var d := new Dict();
        Store(k, Sub(d));
      }
      child := fields[k];
    }

    // Set a dotted key; an empty key raises too.
    method SetNestedValue(dotted: string, x: Node) returns (ok: bool)
      requires Valid() && x.Valid() && x.Objects() !! repr
      modifies repr
      ensures Valid() && fresh(repr - old(repr) - x.Objects())
      ensures (View(), ok) == SetNested(old(View()), dotted, old(x.View()))
      ensures !ok ==> View() == old(View())
    {
      var parts := Parts(dotted);
      SetNestedRaises(View(), dotted, x.View());
      if parts == [] {
        return false;
      }
      ok := SetParts(parts, x);
    }

    // Walk down to the last part, then assign. It raises where a part before
    // the last names something that is no mapping.
    method SetParts(parts: seq<string>, x: Node) returns (ok: bool)
      requires Valid() && parts != [] && x.Valid() && x.Objects() !! repr
      modifies repr
      ensures Valid() && fresh(repr - old(repr) - x.Objects())
      ensures (View(), ok) == Put(old(View()), parts, old(x.View()))
      decreases |parts|, 0
    {
      if |parts| == 1 {
        Store(parts[0], x);
        return true;
      }
      ghost var before := View();
      var child := SetDefault(parts[0]);
      ghost var between := View();
      if child.Other? {
        assert between.fields[parts[0]] == child.value;
        assert before.fields[parts[0] := child.value] == before.fields;
        return false;
      }
      ok := Descend(parts[0], parts[1..], x);
      PutDefaulted(before, between, parts, old(x.View()));
    }

    static lemma PutDefaulted(v: Value, v': Value, parts: seq<string>, x: Value)
      requires v.Map? && v'.Map? && |parts| > 1 && parts[0] in v'.fields && v'.fields[parts[0]].Map?
      requires v'.fields == if parts[0] in v.fields then v.fields else v.fields[parts[0] := Map(map[])]
      ensures var (child, ok) := Put(v'.fields[parts[0]], parts[1..], x);
        Put(v, parts, x) == (Map(v'.fields[parts[0] := child]), ok)
    {
      var k, child := parts[0], Put(v'.fields[parts[0]], parts[1..], x).0;
      assert v'.fields[k := child] == v.fields[k := child];
    }

    // Go on in the mapping under `k`.
    method Descend(k: string, parts: seq<string>, x: Node) returns (ok: bool)
      requires Valid() && k in fields && fields[k].Sub? && parts != [] && x.Valid() && x.Objects() !! repr
      modifies repr
      ensures Valid() && fresh(repr - old(repr) - x.Objects())
      ensures old(View()).fields[k].Map?
      ensures View() == Map(old(View()).fields[k := Put(old(View()).fields[k], parts, old(x.View())).0])
      ensures ok == Put(old(View()).fields[k], parts, old(x.View())).1
      decreases |parts|, 2
    {
      ghost var before := View().fields;
      ok := Below(k, parts, x);
      Assembled(before, k, Put(before[k], parts, old(x.View())).0);
    }

    // The change below `k` leaves the entries beside it alone.
    method Below(k: string, parts: seq<string>, x: Node) returns (ok: bool)
      requires Valid() && k in fields && fields[k].Sub? && parts != [] && x.Valid() && x.Objects() !! repr
      modifies repr
      ensures Valid() && fresh(repr - old(repr) - x.Objects()) && fields == old(fields)
      ensures forall j | j in fields && j != k :: ViewOf(fields[j]) == old(View()).fields[j]
      ensures old(View()).fields[k].Map?
      ensures ViewOf(fields[k]) == Put(old(View()).fields[k], parts, old(x.View())).0
      ensures ok == Put(old(View()).fields[k], parts, old(x.View())).1
      decreases |parts|, 1
    {
      var d := fields[k].dict;
      ok := d.SetParts(parts, x);
      repr := repr + d.repr;
      forall j | j in fields && j != k
        ensures Owns(fields[j]) && ViewOf(fields[j]) == old(ViewOf(fields[j])) && Apart(fields[j], fields[k])
                && (fields[j].Sub? ==> fields[j].dict.repr == old(fields[j].dict.repr))
      {
        assert old(Owns(fields[j]) && Apart(fields[j], fields[k]));
        if fields[j].Sub? {
          var e := fields[j].dict;
          assert old(e.Valid()) && e in old(e.repr);
          assert unchanged(old(e.repr));
        }
      }
      forall i, j | i in fields && j in fields && i != j ensures Apart(fields[i], fields[j]) {
        assert old(Apart(fields[i], fields[j]));
      }
    }

    // The mapping is made up of its entries.
    lemma Assembled(before: map<string, Value>, k: string, v: Value)
      requires Valid() && before.Keys == fields.Keys && k in fields
      requires forall j | j in fields && j != k :: ViewOf(fields[j]) == before[j]
      requires ViewOf(fields[k]) == v
      ensures View() == Map(before[k := v])
    {
      assert View().fields == before[k := v];
    }
  }

}

/**
 * The production import inventory: a worklist over the modules of the
 * repository, and the forbidden modules and symbols found on it.
 */
module Reachability {

  datatype Edge = Edge(source: string, target: string, symbol: string, line: nat)

  // The imports of a module that loads and parses, and its unresolved ones.
  datatype Module = Module(edges: seq<Edge>, unresolved: seq<string>)

  // The loadable modules by name.
  type Modules = map<string, Module>

  predicate Internal(name: string) { "khaos." <= name }

  // --- What is reachable --------------------------------------------------

  ghost predicate HasTarget(edges: seq<Edge>, n: string) {
    Internal(n) && exists i :: 0 <= i < |edges| && edges[i].target == n
  }

  // Module `m` loads and imports the internal module `n`.
  ghost predicate Imports(ms: Modules, m: string, n: string) {
    m in ms && HasTarget(ms[m].edges, n)
  }

  ghost predicate Closed(ms: Modules, s: set<string>) {
    forall m, n | m in s && Imports(ms, m, n) :: n in s
  }

  ghost predicate HoldsRoots(roots: seq<string>, s: set<string>) {
    forall i | 0 <= i < |roots| :: roots[i] in s
  }

  // An import path from a root.
  ghost predicate IsPath(ms: Modules, roots: seq<string>, path: seq<string>) {
    && path != [] && path[0] in roots
    && forall i | 0 <= i < |path| - 1 :: Imports(ms, path[i], path[i + 1])
  }

  ghost predicate Reachable(ms: Modules, roots: seq<string>, m: string) {
    exists path :: IsPath(ms, roots, path) && path[|path| - 1] == m
  }

  // `s` is the set of modules some import path reaches.
  ghost predicate IsReach(ms: Modules, roots: seq<string>, s: set<string>) {
    forall m :: m in s <==> Reachable(ms, roots, m)
  }

  // A set that holds the roots, is closed and has a path to each member is the
  // reachable set.
  lemma ClosedHoldsPaths(ms: Modules, roots: seq<string>, s: set<string>, path: seq<string>)
    requires Closed(ms, s) && HoldsRoots(roots, s) && IsPath(ms, roots, path)
    ensures path[|path| - 1] in s
    decreases |path|
  {
    if |path| > 1 {
      var front := path[..|path| - 1];
      assert IsPath(ms, roots, front) by {
        forall i | 0 <= i < |front| - 1 ensures Imports(ms, front[i], front[i + 1]) {
          assert Imports(ms, path[i], path[i + 1]);
        }
      }
      ClosedHoldsPaths(ms, roots, s, front);
      assert Imports(ms, path[|path| - 2], path[|path| - 1]);
    }
  }

  lemma PathExtends(ms: Modules, roots: seq<string>, m: string, n: string)
    requires Reachable(ms, roots, m) && Imports(ms, m, n)
    ensures Reachable(ms, roots, n)
  {
    var path :| IsPath(ms, roots, path) && path[|path| - 1] == m;
    var longer := path + [n];
    assert IsPath(ms, roots, longer) by {
      forall i | 0 <= i < |longer| - 1 ensures Imports(ms, longer[i], longer[i + 1]) {
        if i < |path| - 1 {
          assert Imports(ms, path[i], path[i + 1]);
        }
      }
    }
    assert longer[|longer| - 1] == n;
  }

  lemma RootIsReachable(ms: Modules, roots: seq<string>, m: string)
    requires m in roots
    ensures Reachable(ms, roots, m)
  {
    assert IsPath(ms, roots, [m]);
    assert [m][|[m]| - 1] == m;
  }

  lemma ReachIsClosedAndLeast(ms: Modules, roots: seq<string>, s: set<string>)
    requires Closed(ms, s) && HoldsRoots(roots, s)
    requires forall m | m in s :: Reachable(ms, roots, m)
    ensures IsReach(ms, roots, s)
    ensures forall other | Closed(ms, other) && HoldsRoots(roots, other) :: s <= other
  {
    forall m | Reachable(ms, roots, m) ensures m in s {
      var path :| IsPath(ms, roots, path) && path[|path| - 1] == m;
      ClosedHoldsPaths(ms, roots, s, path);
    }
    forall other | Closed(ms, other) && HoldsRoots(roots, other) ensures s <= other {
      forall m | m in s ensures m in other {
        var path :| IsPath(ms, roots, path) && path[|path| - 1] == m;
        ClosedHoldsPaths(ms, roots, other, path);
      }
    }
  }

  // --- The worklist -------------------------------------------------------

  // Every name the worklist can ever see.
  ghost function Universe(ms: Modules, roots: seq<string>): set<string> {
    (set m | m in roots) + (set m, i | m in ms && 0 <= i < |ms[m].edges| :: ms[m].edges[i].target)
  }

  // The edges of the loadable modules of a list, in that order.
  function EdgesOf(ms: Modules, order: seq<string>): seq<Edge> {
    if order == [] then []
    else
      var m := order[|order| - 1];
      EdgesOf(ms, order[..|order| - 1]) + if m in ms then ms[m].edges else []
  }

  // What is reported as unresolved: modules that do not load, and imports that
  // could not be resolved in those that do.
  datatype Unresolved = Missing(name: string) | Import(text: string)

  function Texts(us: seq<string>): seq<Unresolved> {
    if us == [] then [] else [Import(us[0])] + Texts(us[1..])
  }

  function UnresolvedOf(ms: Modules, order: seq<string>): seq<Unresolved> {
    if order == [] then []
    else
      var m := order[|order| - 1];
      UnresolvedOf(ms, order[..|order| - 1]) + if m in ms then Texts(ms[m].unresolved) else [Missing(m)]
  }

  ghost predicate Distinct(order: seq<string>) {
    forall i, j | 0 <= i < j < |order| :: order[i] != order[j]
  }

  lemma OneMore(ms: Modules, order: seq<string>, m: string)
    ensures EdgesOf(ms, order + [m]) == EdgesOf(ms, order) + if m in ms then ms[m].edges else []
    ensures UnresolvedOf(ms, order + [m]) ==
            UnresolvedOf(ms, order) + if m in ms then Texts(ms[m].unresolved) else [Missing(m)]
  {
    assert (order + [m])[..|order|] == order;
  }

  // Queue the internal targets not seen yet.
  method Enqueue(edges: seq<Edge>, seen: set<string>, queue: seq<string>) returns (longer: seq<string>)
    ensures Enqueued(edges, seen, queue, longer)
  {
    longer := queue;
    for n := 0 to |edges|
      invariant Enqueued(edges[..n], seen, queue, longer)
    {
      ghost var before := longer;
      if Internal(edges[n].target) && edges[n].target !in seen {
        longer := longer + [edges[n].target];
      }
      EnqueuedOne(edges, n, seen, queue, before, longer);
    }
    assert edges[..|edges|] == edges;
  }

  // `longer` is `queue` followed by targets of `edges`, and no target that is
  // not seen is missing.
  ghost predicate Enqueued(edges: seq<Edge>, seen: set<string>, queue: seq<string>, longer: seq<string>) {
    && queue <= longer
    && (forall i | |queue| <= i < |longer| :: HasTarget(edges, longer[i]))
    && (forall n | HasTarget(edges, n) :: n in seen || n in longer)
  }

  lemma EnqueuedOne(edges: seq<Edge>, n: nat, seen: set<string>, queue: seq<string>, before: seq<string>, longer: seq<string>)
    requires n < |edges| && Enqueued(edges[..n], seen, queue, before)
    requires longer == if Internal(edges[n].target) && edges[n].target !in seen then before + [edges[n].target] else before
    ensures Enqueued(edges[..n + 1], seen, queue, longer)
  {
    var some, more := edges[..n], edges[..n + 1];
    forall i | |queue| <= i < |longer| ensures HasTarget(more, longer[i]) {
      if i < |before| {
        var j :| 0 <= j < |some| && some[j].target == before[i];
        assert more[j].target == longer[i];
      } else {
        assert more[n].target == longer[i];
      }
    }
    forall m | HasTarget(more, m) ensures m in seen || m in longer {
      var j :| 0 <= j < |more| && more[j].target == m;
      if j < n {
        assert some[j].target == m;
        assert HasTarget(some, m);
      }
    }
  }

  ghost predicate AllReachable(ms: Modules, roots: seq<string>, names: seq<string>) {
    forall i | 0 <= i < |names| :: Reachable(ms, roots, names[i])
  }

  // Roots and imports of a seen module are seen or wait in the queue, and
  // everything seen or waiting is reachable.
  ghost predicate Working(ms: Modules, roots: seq<string>, seen: set<string>, order: seq<string>, queue: seq<string>) {
    && (forall i | 0 <= i < |roots| :: roots[i] in seen || roots[i] in queue)
    && (forall m, n | m in seen && Imports(ms, m, n) :: n in seen || n in queue)
    && AllReachable(ms, roots, queue) && AllReachable(ms, roots, order)
    && seen == (set m | m in order)
  }

  lemma WorkStarts(ms: Modules, roots: seq<string>)
    ensures Working(ms, roots, {}, [], roots)
  {
    forall i | 0 <= i < |roots| ensures Reachable(ms, roots, roots[i]) { RootIsReachable(ms, roots, roots[i]); }
  }

  // Dropping the head of the queue once it is seen.
  lemma WorkSkips(ms: Modules, roots: seq<string>, seen: set<string>, order: seq<string>, queue: seq<string>)
    requires Working(ms, roots, seen, order, queue) && queue != [] && queue[0] in seen
    ensures Working(ms, roots, seen, order, queue[1..])
  {
    assert queue == [queue[0]] + queue[1..];
  }

  // Seeing a new name and queueing the targets of its edges, if it has any.
  lemma WorkVisits(ms: Modules, roots: seq<string>, seen: set<string>, order: seq<string>, queue: seq<string>, longer: seq<string>)
    requires Working(ms, roots, seen, order, queue) && queue != [] && queue[0] !in seen
    requires Enqueued(if queue[0] in ms then ms[queue[0]].edges else [], seen + {queue[0]}, queue[1..], longer)
    ensures Working(ms, roots, seen + {queue[0]}, order + [queue[0]], longer)
  {
    var m := queue[0];
    assert queue == [m] + queue[1..];
    forall x | x in queue ensures x == m || x in longer {}
    forall i | 0 <= i < |longer| ensures Reachable(ms, roots, longer[i]) {
      if i < |queue| - 1 {
        assert longer[i] == queue[i + 1];
      } else {
        assert Imports(ms, m, longer[i]);
        PathExtends(ms, roots, m, longer[i]);
      }
    }
  }

  lemma WorkEnds(ms: Modules, roots: seq<string>, seen: set<string>, order: seq<string>)
    requires Working(ms, roots, seen, order, [])
    ensures IsReach(ms, roots, seen)
    ensures forall other | Closed(ms, other) && HoldsRoots(roots, other) :: seen <= other
  {
    forall m | m in seen ensures Reachable(ms, roots, m) {
      var i :| 0 <= i < |order| && order[i] == m;
    }
    ReachIsClosedAndLeast(ms, roots, seen);
  }

  lemma SeenGrows(ms: Modules, roots: seq<string>, seen: set<string>, m: string)
    requires m !in seen && m in Universe(ms, roots)
    ensures |Universe(ms, roots) - (seen + {m})| < |Universe(ms, roots) - seen|
  {
    assert Universe(ms, roots) - seen == Universe(ms, roots) - (seen + {m}) + {m};
  }

  lemma ReachableIsKnown(ms: Modules, roots: seq<string>, m: string)
    requires Reachable(ms, roots, m)
    ensures m in Universe(ms, roots)
  {
    var path :| IsPath(ms, roots, path) && path[|path| - 1] == m;
    if |path| > 1 {
      assert Imports(ms, path[|path| - 2], path[|path| - 1]);
    }
  }

  // What the worklist has gathered so far.
  datatype Graph = Graph(seen: set<string>, edges: seq<Edge>, unresolved: seq<Unresolved>)

  // The graph of the modules visited in `order`.
  ghost predicate GraphOf(ms: Modules, order: seq<string>, g: Graph) {
    && Distinct(order) && g.seen == (set m | m in order)
    && g.edges == EdgesOf(ms, order) && g.unresolved == UnresolvedOf(ms, order)
  }

  // One turn of the worklist.
  method Visit(ms: Modules, ghost roots: seq<string>, queue: seq<string>, g: Graph, ghost order: seq<string>)
    returns (queue': seq<string>, g': Graph, ghost order': seq<string>)
    requires queue != [] && Working(ms, roots, g.seen, order, queue) && GraphOf(ms, order, g)
    ensures Working(ms, roots, g'.seen, order', queue') && GraphOf(ms, order', g')
    ensures var u := Universe(ms, roots);
      |u - g'.seen| < |u - g.seen| || (g'.seen == g.seen && |queue'| < |queue|)
  {
    var m := queue[0];
    if m in g.seen {
      WorkSkips(ms, roots, g.seen, order, queue);
      return queue[1..], g, order;
    }
    order' := order + [m];
    if m !in ms {
      queue' := queue[1..];
      g' := Graph(g.seen + {m}, g.edges, g.unresolved + [Missing(m)]);
    } else {
      queue' := Enqueue(ms[m].edges, g.seen + {m}, queue[1..]);
      g' := Graph(g.seen + {m}, g.edges + ms[m].edges, g.unresolved + Texts(ms[m].unresolved));
    }
    Visited(ms, roots, queue, g, order, queue', g');
  }

  lemma Visited(ms: Modules, roots: seq<string>, queue: seq<string>, g: Graph, order: seq<string>,
                queue': seq<string>, g': Graph)
    requires queue != [] && queue[0] !in g.seen && Working(ms, roots, g.seen, order, queue) && GraphOf(ms, order, g)
    requires Enqueued(if queue[0] in ms then ms[queue[0]].edges else [], g.seen + {queue[0]}, queue[1..], queue')
    requires var m := queue[0];
      g' == if m in ms
            then Graph(g.seen + {m}, g.edges + ms[m].edges, g.unresolved + Texts(ms[m].unresolved))
            else Graph(g.seen + {m}, g.edges, g.unresolved + [Missing(m)])
    ensures Working(ms, roots, g'.seen, order + [queue[0]], queue') && GraphOf(ms, order + [queue[0]], g')
    ensures |Universe(ms, roots) - g'.seen| < |Universe(ms, roots) - g.seen|
  {
    WorkVisits(ms, roots, g.seen, order, queue, queue');
    ReachableIsKnown(ms, roots, queue[0]);
    SeenGrows(ms, roots, g.seen, queue[0]);
    GraphGrows(ms, order, g, queue[0], g');
  }

  lemma GraphGrows(ms: Modules, order: seq<string>, g: Graph, m: string, g': Graph)
    requires GraphOf(ms, order, g) && m !in g.seen
    requires g' == if m in ms
                   then Graph(g.seen + {m}, g.edges + ms[m].edges, g.unresolved + Texts(ms[m].unresolved))
                   else Graph(g.seen + {m}, g.edges, g.unresolved + [Missing(m)])
    ensures GraphOf(ms, order + [m], g')
  {
    OneMore(ms, order, m);
    assert g'.edges == EdgesOf(ms, order + [m]);
  }

  // The seen set is exactly the modules some import path from a root reaches,
  // the least closed set holding the roots; each contributes its edges and
  // its unresolved imports once.
  method BuildGraph(ms: Modules, roots: seq<string>) returns (g: Graph)
    ensures IsReach(ms, roots, g.seen)
    ensures forall other | Closed(ms, other) && HoldsRoots(roots, other) :: g.seen <= other
    ensures exists order :: GraphOf(ms, order, g)
  {
    var queue := roots;
    ghost var order: seq<string> := [];
    g := Graph({}, [], []);
    WorkStarts(ms, roots);
    while queue != []
      invariant Working(ms, roots, g.seen, order, queue) && GraphOf(ms, order, g)
      decreases |Universe(ms, roots) - g.seen|, |queue|
    {
      queue, g, order := Visit(ms, roots, queue, g, order);
    }
    WorkEnds(ms, roots, g.seen, order);
  }

  // --- Forbidden targets --------------------------------------------------

  datatype Finding = ReachableModule(name: string) | ForbiddenEdge(edge: Edge)

  predicate Forbids(modules: set<string>, symbols: set<(string, string)>, e: Edge) {
    e.target in modules || (e.target, e.symbol) in symbols
  }

  // The import part of the gate.
  method ForbiddenEdges(forbidden: set<string>, symbols: set<(string, string)>, seen: set<string>, edges: seq<Edge>)
    returns (findings: set<Finding>)
    ensures forall f :: f in findings <==>
      if f.ReachableModule? then f.name in seen && f.name in forbidden
      else f.edge in edges && (f.edge.target in forbidden || (f.edge.target, f.edge.symbol) in symbols)
  {
    findings := {};
    var todo := seen;
    while todo != {}
      invariant todo <= seen
      invariant forall f :: f in findings <==> f.ReachableModule? && f.name in seen - todo && f.name in forbidden
      decreases |todo|
    {
      var m :| m in todo;
      if m in forbidden {
        findings := findings + {ReachableModule(m)};
      }
      todo := todo - {m};
    }
    ghost var modules := findings;
    for n := 0 to |edges|
      invariant forall f :: f in findings <==>
        f in modules || (f.ForbiddenEdge? && f.edge in edges[..n] && Forbids(forbidden, symbols, f.edge))
    {
      assert edges[..n + 1] == edges[..n] + [edges[n]];
      if Forbids(forbidden, symbols, edges[n]) {
        findings := findings + {ForbiddenEdge(edges[n])};
      }
    }
    assert edges[..|edges|] == edges;
  }

  lemma {:induction false} EdgesOfMember(ms: Modules, order: seq<string>, e: Edge)
    ensures e in EdgesOf(ms, order) <==> exists m :: m in order && m in ms && e in ms[m].edges
  {
    if order != [] {
      var front, m := order[..|order| - 1], order[|order| - 1];
      EdgesOfMember(ms, front, e);
      assert order == front + [m];
    }
  }

  lemma {:induction false} TextsHasIff(us: seq<string>, u: Unresolved)
    ensures u in Texts(us) <==> u.Import? && u.text in us
  {
    if us != [] {
      TextsHasIff(us[1..], u);
      assert us == [us[0]] + us[1..];
    }
  }

  // What is reported as unresolved: the visited modules that do not load, and
  // the unresolved imports of those that do.
  lemma {:induction false} UnresolvedOfMember(ms: Modules, order: seq<string>, u: Unresolved)
    ensures u in UnresolvedOf(ms, order) <==>
      match u
      case Missing(m) => m in order && m !in ms
      case Import(text) => exists m :: m in order && m in ms && text in ms[m].unresolved
  {
    if order != [] {
      var front, m := order[..|order| - 1], order[|order| - 1];
      UnresolvedOfMember(ms, front, u);
      if m in ms { TextsHasIff(ms[m].unresolved, u); }
      assert order == front + [m];
    }
  }

  // The gate passes exactly when no import path reaches a forbidden module and
  // no reachable module imports a forbidden module or symbol.
  method Gate(ms: Modules, roots: seq<string>, forbidden: set<string>, symbols: set<(string, string)>)
    returns (clean: bool)
    ensures clean <==>
      && (forall m | m in forbidden :: !Reachable(ms, roots, m))
      && (forall m, e | Reachable(ms, roots, m) && m in ms && e in ms[m].edges ::
            e.target !in forbidden && (e.target, e.symbol) !in symbols)
  {
    var g := BuildGraph(ms, roots);
    var findings := ForbiddenEdges(forbidden, symbols, g.seen, g.edges);
    clean := findings == {};
    ghost var order :| GraphOf(ms, order, g);
    forall m, e | Reachable(ms, roots, m) && m in ms && e in ms[m].edges ensures e in g.edges {
      assert m in g.seen;
      EdgesOfMember(ms, order, e);
    }
    if !clean {
      ghost var f :| f in findings;
      if f.ForbiddenEdge? {
        EdgesOfMember(ms, order, f.edge);
        ghost var m :| m in order && m in ms && f.edge in ms[m].edges;
        assert m in g.seen;
      }
    } else {
      forall m | m in forbidden ensures !Reachable(ms, roots, m) {
        assert ReachableModule(m) !in findings;
      }
      forall m, e | Reachable(ms, roots, m) && m in ms && e in ms[m].edges
        ensures e.target !in forbidden && (e.target, e.symbol) !in symbols
      {
        assert ForbiddenEdge(e) !in findings;
      }
    }
  }

}

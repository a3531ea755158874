/** Which created tensors a value can stand for (python/devproc2/ir/analysis.py). */
module AliasAnalysis {
  import opened Bytecode
  import opened IRValues
  import opened TensorIR
  import opened FiniteSets

  /** Forwarding edges: from an op result to the values it may stand for. */
  type Graph = map<nat, seq<Value>>

  type Matcher = Value -> bool

  // ---------------------------------------------------------------- the search

  /** Matching values found from v; `visiting` are the results on the current path. */
  function Resolve(G: Graph, P: Matcher, v: Value, visiting: set<nat>): set<Value>
    decreases |G.Keys - visiting|, 0
  {
    if P(v) then {v}
    else if !v.Res? || v.id in visiting || v.id !in G then {}
    else
      assert |G.Keys - (visiting + {v.id})| < |G.Keys - visiting| by {
        Smaller(G.Keys - (visiting + {v.id}), G.Keys - visiting, v.id);
      }
      ResolveAll(G, P, G[v.id], visiting + {v.id})
  }

  function ResolveAll(G: Graph, P: Matcher, vs: seq<Value>, visiting: set<nat>): set<Value>
    decreases |G.Keys - visiting|, 1, |vs|
  {
    if vs == [] then {} else Resolve(G, P, vs[0], visiting) + ResolveAll(G, P, vs[1..], visiting)
  }

  // ---------------------------------------------------------------- reachability

  /** The search passes through this value. */
  predicate Inner(G: Graph, P: Matcher, v: Value) {
    v.Res? && !P(v) && v.id in G
  }

  predicate IsPath(G: Graph, P: Matcher, p: seq<Value>) {
    |p| > 0 && forall i :: 0 <= i < |p| - 1 ==> Inner(G, P, p[i]) && p[i + 1] in G[p[i].id]
  }

  predicate Avoids(p: seq<Value>, visiting: set<nat>) {
    forall i :: 0 <= i < |p| - 1 && p[i].Res? ==> p[i].id !in visiting
  }

  /** w is a matching value at the end of a path of forwarding edges that starts in v. */
  ghost predicate Reaches(G: Graph, P: Matcher, v: Value, w: Value) {
    P(w) && exists p :: IsPath(G, P, p) && p[0] == v && p[|p| - 1] == w
  }

  lemma {:induction false} ResolvePath(G: Graph, P: Matcher, v: Value, visiting: set<nat>, w: Value)
    returns (p: seq<Value>)
    requires w in Resolve(G, P, v, visiting)
    ensures P(w) && IsPath(G, P, p) && p[0] == v && p[|p| - 1] == w
    decreases |G.Keys - visiting|, 0
  {
    if P(v) {
      p := [v];
    } else {
      Smaller(G.Keys - (visiting + {v.id}), G.Keys - visiting, v.id);
      var q := ResolveAllPath(G, P, G[v.id], visiting + {v.id}, w);
      p := [v] + q;
      forall i | 0 <= i < |p| - 1 ensures Inner(G, P, p[i]) && p[i + 1] in G[p[i].id] {
        if i > 0 { assert p[i] == q[i - 1] && p[i + 1] == q[i]; }
      }
    }
  }

  lemma {:induction false} ResolveAllPath(G: Graph, P: Matcher, vs: seq<Value>, visiting: set<nat>, w: Value)
    returns (p: seq<Value>)
    requires w in ResolveAll(G, P, vs, visiting)
    ensures P(w) && IsPath(G, P, p) && p[0] in vs && p[|p| - 1] == w
    decreases |G.Keys - visiting|, 1, |vs|
  {
    if w in Resolve(G, P, vs[0], visiting) {
      p := ResolvePath(G, P, vs[0], visiting, w);
    } else {
      p := ResolveAllPath(G, P, vs[1..], visiting, w);
    }
  }

  /** Where a value occurs for the last time on a path, short of its end. */
  lemma LastOccurrence(p: seq<Value>, n: nat) returns (k: nat)
    requires 0 < n < |p|
    ensures k < n && p[k] == p[0] && forall i :: k < i < n ==> p[i] != p[0]
  {
    k := n - 1;
    while p[k] != p[0]
      invariant k < n && forall i :: k < i < n ==> p[i] != p[0]
      decreases k
    {
      k := k - 1;
    }
  }

  lemma {:induction false} InResolveAll(G: Graph, P: Matcher, vs: seq<Value>, visiting: set<nat>, s: Value, w: Value)
    requires s in vs && w in Resolve(G, P, s, visiting)
    ensures w in ResolveAll(G, P, vs, visiting)
    decreases |vs|
  {
    if vs[0] != s { InResolveAll(G, P, vs[1..], visiting, s, w); }
  }

  /** Whatever a path leads to is found, although the search never enters a node twice on one path:
      a path that comes back to its start can be shortened. */
  lemma {:induction false} PathResolves(G: Graph, P: Matcher, p: seq<Value>, visiting: set<nat>)
    requires IsPath(G, P, p) && P(p[|p| - 1]) && Avoids(p, visiting)
    ensures p[|p| - 1] in Resolve(G, P, p[0], visiting)
    decreases |p|
  {
    if |p| > 1 {
      assert Inner(G, P, p[0]);
      var k := LastOccurrence(p, |p| - 1);
      var q := p[k + 1..];
      assert q[0] in G[p[k].id];
      assert IsPath(G, P, q) by {
        forall i | 0 <= i < |q| - 1 ensures Inner(G, P, q[i]) && q[i + 1] in G[q[i].id] {
          assert q[i] == p[k + 1 + i] && q[i + 1] == p[k + 1 + i + 1];
        }
      }
      assert Avoids(q, visiting + {p[0].id}) by {
        forall i | 0 <= i < |q| - 1 && q[i].Res? ensures q[i].id !in visiting + {p[0].id} {
          assert q[i] == p[k + 1 + i] != p[0];
        }
      }
      PathResolves(G, P, q, visiting + {p[0].id});
      InResolveAll(G, P, G[p[0].id], visiting + {p[0].id}, q[0], p[|p| - 1]);
    }
  }

  /** The search returns exactly the matching values that forwarding edges lead to, whatever the
      graph: also when it is cyclic. */
  lemma {:induction false} ResolveIsReachability(G: Graph, P: Matcher, v: Value, w: Value)
    ensures w in Resolve(G, P, v, {}) <==> Reaches(G, P, v, w)
  {
    if w in Resolve(G, P, v, {}) {
      var p := ResolvePath(G, P, v, {}, w);
    }
    if Reaches(G, P, v, w) {
      var p :| IsPath(G, P, p) && p[0] == v && p[|p| - 1] == w;
      PathResolves(G, P, p, {});
    }
  }

  lemma ReachesSelf(G: Graph, P: Matcher, v: Value)
    requires P(v)
    ensures Reaches(G, P, v, v)
  {
    assert IsPath(G, P, [v]) && [v][0] == v;
  }

  lemma ReachesStep(G: Graph, P: Matcher, v: Value, s: Value, w: Value)
    requires Inner(G, P, v) && s in G[v.id] && Reaches(G, P, s, w)
    ensures Reaches(G, P, v, w)
  {
    var p :| IsPath(G, P, p) && p[0] == s && p[|p| - 1] == w;
    var q := [v] + p;
    assert forall i :: 0 < i < |q| - 1 ==> q[i] == p[i - 1] && q[i + 1] == p[i];
    assert IsPath(G, P, q) && q[0] == v && q[|q| - 1] == w;
  }

  predicate SubGraph(G: Graph, H: Graph) {
    forall id :: id in G ==> id in H && H[id] == G[id]
  }

  lemma ReachesMore(G: Graph, H: Graph, P: Matcher, v: Value, w: Value)
    requires SubGraph(G, H) && Reaches(G, P, v, w)
    ensures Reaches(H, P, v, w)
  {
    var p :| IsPath(G, P, p) && p[0] == v && p[|p| - 1] == w;
    assert IsPath(H, P, p);
  }

  // ---------------------------------------------------------------- projections

  /** The elements of every tuple, by the result of the op that makes it. */
  type Tuples = map<nat, seq<Value>>

  function IsTuple(T: Tuples): Matcher {
    (v: Value) => v.Res? && v.id in T
  }

  /** Possible sources of element `index` of v. */
  function Project(G: Graph, T: Tuples, v: Value, index: int, visiting: set<nat>): seq<Value>
    decreases |G.Keys - visiting|, 0
  {
    if !v.Res? || v.id in visiting then []
    else if v.id in T then (if 0 <= index < |T[v.id]| then [T[v.id][index]] else [])
    else if v.id !in G then []
    else
      assert |G.Keys - (visiting + {v.id})| < |G.Keys - visiting| by {
        Smaller(G.Keys - (visiting + {v.id}), G.Keys - visiting, v.id);
      }
      ProjectAll(G, T, G[v.id], index, visiting + {v.id})
  }

  function ProjectAll(G: Graph, T: Tuples, vs: seq<Value>, index: int, visiting: set<nat>): seq<Value>
    decreases |G.Keys - visiting|, 1, |vs|
  {
    if vs == [] then [] else Project(G, T, vs[0], index, visiting) + ProjectAll(G, T, vs[1..], index, visiting)
  }

  lemma ProjectForwards(G: Graph, T: Tuples, v: Value, index: int, visiting: set<nat>)
    requires v.Res? && v.id !in visiting && v.id !in T && v.id in G
    ensures Project(G, T, v, index, visiting) == ProjectAll(G, T, G[v.id], index, visiting + {v.id})
  {
    hide ProjectAll;
  }

  lemma ProjectAllFrom(G: Graph, T: Tuples, vs: seq<Value>, k: nat, index: int, visiting: set<nat>)
    requires k < |vs|
    ensures ProjectAll(G, T, vs[k..], index, visiting) ==
            Project(G, T, vs[k], index, visiting) + ProjectAll(G, T, vs[k + 1..], index, visiting)
  {
    hide Project;
    assert vs[k..][1..] == vs[k + 1..];
  }

  lemma ProjectAllNone(G: Graph, T: Tuples, vs: seq<Value>, index: int, visiting: set<nat>)
    requires vs == []
    ensures ProjectAll(G, T, vs, index, visiting) == []
  {
  }

  /** Element `index` of some tuple among `us`. */
  ghost predicate ElementOf(T: Tuples, us: set<Value>, index: int, s: Value) {
    exists u: Value :: u in us && u.Res? && u.id in T && 0 <= index < |T[u.id]| && s == T[u.id][index]
  }

  /** Projecting is searching for tuples and taking their element. */
  lemma {:induction false} ProjectIsElement(G: Graph, T: Tuples, v: Value, index: int, visiting: set<nat>, s: Value)
    requires visiting !! T.Keys
    ensures s in Project(G, T, v, index, visiting) <==> ElementOf(T, Resolve(G, IsTuple(T), v, visiting), index, s)
    decreases |G.Keys - visiting|, 0
  {
    if v.Res? && v.id !in visiting && v.id !in T && v.id in G {
      Smaller(G.Keys - (visiting + {v.id}), G.Keys - visiting, v.id);
      ProjectAllIsElement(G, T, G[v.id], index, visiting + {v.id}, s);
    }
    if IsTuple(T)(v) { assert v in Resolve(G, IsTuple(T), v, visiting); }
  }

  lemma {:induction false} ProjectAllIsElement(G: Graph, T: Tuples, vs: seq<Value>, index: int, visiting: set<nat>,
                                               s: Value)
    requires visiting !! T.Keys
    ensures s in ProjectAll(G, T, vs, index, visiting) <==>
      ElementOf(T, ResolveAll(G, IsTuple(T), vs, visiting), index, s)
    decreases |G.Keys - visiting|, 1, |vs|
  {
    if vs != [] {
      ProjectIsElement(G, T, vs[0], index, visiting, s);
      ProjectAllIsElement(G, T, vs[1..], index, visiting, s);
    }
  }

  /** Possible sources are the elements of the tuples that forwarding edges lead to. */
  lemma {:induction false} ProjectIsReachability(G: Graph, T: Tuples, v: Value, index: int, s: Value)
    ensures s in Project(G, T, v, index, {}) <==>
      exists u: nat :: u in T && Reaches(G, IsTuple(T), v, Res(u)) && 0 <= index < |T[u]| && s == T[u][index]
  {
    ProjectIsElement(G, T, v, index, {}, s);
    var us := Resolve(G, IsTuple(T), v, {});
    forall w ensures w in us <==> Reaches(G, IsTuple(T), v, w) { ResolveIsReachability(G, IsTuple(T), v, w); }
    if ElementOf(T, us, index, s) {
      var u: Value :| u in us && u.Res? && u.id in T && 0 <= index < |T[u.id]| && s == T[u.id][index];
      assert Res(u.id) == u;
    }
    if u: nat :| u in T && Reaches(G, IsTuple(T), v, Res(u)) && 0 <= index < |T[u]| && s == T[u][index] {
      assert Res(u) in us;
    }
  }

  // ---------------------------------------------------------------- building the graph

  /** Which results are tuples, and of what. */
  function TuplesOf(nodes: seq<Node>): Tuples {
    if nodes == [] then map[]
    else
      var T := TuplesOf(nodes[..|nodes| - 1]);
      var n := nodes[|nodes| - 1];
      if n.OpNode? && n.op.TupleOp? then T[n.op.res := n.op.elems] else T
  }

  /** A conditional's result stands for what either branch yields. */
  function IfSources(thn: Region, els: Option<Region>, j: nat): seq<Value> {
    (if j < |thn.yielded| then [thn.yielded[j]] else []) +
    (if els.Some? && j < |els.value.yielded| then [els.value.yielded[j]] else [])
  }

  /** A loop's result stands for the initial value or what the body yields. */
  function ForSources(iters: seq<Carried>, body: Region, j: nat): seq<Value> {
    (if j < |iters| then [iters[j].init] else []) + (if j < |body.yielded| then [body.yielded[j]] else [])
  }

  /** Edges of several results, by position. */
  function AddSources(G: Graph, results: seq<nat>, sources: nat -> seq<Value>, j: nat): Graph
    requires j <= |results|
    decreases |results| - j
  {
    if j == |results| then G else AddSources(G[results[j] := sources(j)], results, sources, j + 1)
  }

  /** The edges after one more op. */
  function Connect(G: Graph, T: Tuples, n: Node): Graph {
    if !n.OpNode? then G
    else
      match n.op
      case TupleOp(res, elems) => G[res := elems]
      case ViewOp(res, base, _, _, _, _) => G[res := [base]]
      case ItemOp(res, tup, index) => G[res := Project(G, T, tup, index, {})]
      case IfOp(results, _, thn, els) => AddSources(G, results, (j: nat) => IfSources(thn, els, j), 0)
      case ForOp(results, _, _, iters, body) => AddSources(G, results, (j: nat) => ForSources(iters, body, j), 0)
      case _ => G
  }

  function Edges(nodes: seq<Node>, T: Tuples): Graph {
    if nodes == [] then map[] else Connect(Edges(nodes[..|nodes| - 1], T), T, nodes[|nodes| - 1])
  }

  class Analysis {
    const tuples: Tuples
    var forwardEdges: Graph
    var visiting: set<nat>

    /** Adds the edges of every op, in order. */
    constructor (nodes: seq<Node>)
      ensures tuples == TuplesOf(nodes) && forwardEdges == Edges(nodes, tuples) && visiting == {}
    {
      tuples := TuplesOf(nodes);
      forwardEdges := map[];
      visiting := {};
      new;
      assert nodes[..0] == [];
      for i := 0 to |nodes|
        modifies this
        invariant forwardEdges == Edges(nodes[..i], tuples) && visiting == {}
      {
        assert nodes[..i + 1][..i] == nodes[..i];
        if nodes[i].OpNode? { AddOp(nodes[i].op); }
      }
      assert nodes[..|nodes|] == nodes;
    }

    method AddOp(op: Op)
      requires visiting == {}
      modifies this
      ensures forwardEdges == Connect(old(forwardEdges), tuples, OpNode(op)) && visiting == {}
    {
      match op {
        case TupleOp(res, elems) => forwardEdges := forwardEdges[res := elems];
        case ViewOp(res, base, _, _, _, _) => forwardEdges := forwardEdges[res := [base]];
        case ItemOp(res, tup, index) =>
          var sources := ProjectTupleItem(tup, index);
          forwardEdges := forwardEdges[res := sources];
        case IfOp(results, _, thn, els) => AddResults(results, (j: nat) => IfSources(thn, els, j));
        case ForOp(results, _, _, iters, body) => AddResults(results, (j: nat) => ForSources(iters, body, j));
        case _ =>
      }
    }

    method AddResults(results: seq<nat>, sources: nat -> seq<Value>)
      modifies this`forwardEdges
      ensures forwardEdges == AddSources(old(forwardEdges), results, sources, 0)
    {
      for j := 0 to |results|
        invariant AddSources(forwardEdges, results, sources, j) == AddSources(old(forwardEdges), results, sources, 0)
      {
        forwardEdges := forwardEdges[results[j] := sources(j)];
      }
    }

    /** Marks the value while its sources are searched. */
    method ProjectTupleItem(v: Value, index: int) returns (sources: seq<Value>)
      modifies this`visiting
      ensures sources == Project(forwardEdges, tuples, v, index, old(visiting)) && visiting == old(visiting)
      decreases |forwardEdges.Keys - visiting|
    {
      if !v.Res? || v.id in visiting { return []; }
      if v.id in tuples { return if 0 <= index < |tuples[v.id]| then [tuples[v.id][index]] else []; }
      if v.id !in forwardEdges { return []; }
      ghost var before := visiting;
      visiting := visiting + {v.id};
      Smaller(forwardEdges.Keys - visiting, forwardEdges.Keys - before, v.id);
      var edges := forwardEdges[v.id];
      ProjectForwards(forwardEdges, tuples, v, index, before);
      hide Project, ProjectAll;
      sources := [];
      assert edges[0..] == edges;
      for k := 0 to |edges|
        modifies this`visiting
        invariant visiting == before + {v.id}
        invariant sources + ProjectAll(forwardEdges, tuples, edges[k..], index, visiting) ==
                  ProjectAll(forwardEdges, tuples, edges, index, before + {v.id})
      {
        ProjectAllFrom(forwardEdges, tuples, edges, k, index, visiting);
        var more := ProjectTupleItem(edges[k], index);
        ghost var rest := ProjectAll(forwardEdges, tuples, edges[k + 1..], index, visiting);
        assert sources + (more + rest) == (sources + more) + rest;
        sources := sources + more;
      }
      ProjectAllNone(forwardEdges, tuples, edges[|edges|..], index, visiting);
      visiting := visiting - {v.id};
      assert visiting == before;
    }

    method ResolveMatching(v: Value, P: Matcher) returns (found: set<Value>)
      modifies this`visiting
      ensures found == Resolve(forwardEdges, P, v, old(visiting)) && visiting == old(visiting)
      decreases |forwardEdges.Keys - visiting|
    {
      if P(v) { return {v}; }
      if !v.Res? || v.id in visiting || v.id !in forwardEdges { return {}; }
      ghost var before := visiting;
      visiting := visiting + {v.id};
      Smaller(forwardEdges.Keys - visiting, forwardEdges.Keys - before, v.id);
      var edges := forwardEdges[v.id];
      found := {};
      assert edges[0..] == edges;
      for k := 0 to |edges|
        modifies this`visiting
        invariant visiting == before + {v.id}
        invariant found + ResolveAll(forwardEdges, P, edges[k..], visiting) == ResolveAll(forwardEdges, P, edges,
          before + {v.id})
      {
        assert edges[k..][1..] == edges[k + 1..];
        var more := ResolveMatching(edges[k], P);
        found := found + more;
      }
      assert edges[|edges|..] == [];
      visiting := visiting - {v.id};
      assert visiting == before;
    }
  }
}

/** Which forwarding edges there are, stated on the ops themselves (python/devproc2/ir/analysis.py). */
module AliasEdges {
  import opened Bytecode
  import opened IRValues
  import opened TensorIR
  import opened AliasAnalysis
  import opened AliasSound

  /** Position j of a region's yield. */
  predicate YieldsAt(r: Region, j: nat, s: Value) {
    j < |r.yielded| && r.yielded[j] == s
  }

  /** Result j of a conditional or a loop may be this value: what a branch or the body yields there, or what the loop
      starts with. */
  predicate ComesFrom(op: Op, j: nat, s: Value) {
    match op
    case IfOp(_, _, thn, els) => YieldsAt(thn, j, s) || (els.Some? && YieldsAt(els.value, j, s))
    case ForOp(_, _, _, iters, body) => (j < |iters| && iters[j].init == s) || YieldsAt(body, j, s)
    case _ => false
  }

  /** The tuple at hand has this element at that position. */
  ghost predicate ElementAt(G: Graph, T: Tuples, tup: Value, index: int, s: Value) {
    exists u: nat :: u in T && Reaches(G, IsTuple(T), tup, Res(u)) && 0 <= index < |T[u]| && s == T[u][index]
  }

  /** Result `id` comes from s at its position. */
  ghost predicate ResultFrom(op: Op, results: seq<nat>, id: nat, s: Value) {
    exists j :: 0 <= j < |results| && results[j] == id && ComesFrom(op, j, s)
  }

  /** The op's result `id` may stand for s, given the edges of the ops before it. */
  ghost predicate Forwards(G: Graph, T: Tuples, n: Node, id: nat, s: Value) {
    n.OpNode? &&
    match n.op
    case TupleOp(res, elems) => id == res && s in elems
    case ViewOp(res, base, _, _, _, _) => id == res && s == base
    case ItemOp(res, tup, index) => id == res && ElementAt(G, T, tup, index, s)
    case IfOp(results, _, _, _) => ResultFrom(n.op, results, id, s)
    case ForOp(results, _, _, _, _) => ResultFrom(n.op, results, id, s)
    case _ => false
  }

  predicate Edge(G: Graph, id: nat, s: Value) {
    id in G && s in G[id]
  }

  function RegionSources(op: Op, j: nat): seq<Value>
    requires op.IfOp? || op.ForOp?
  {
    if op.IfOp? then IfSources(op.thn, op.els, j) else ForSources(op.iters, op.body, j)
  }

  lemma SourcesAre(op: Op, j: nat, s: Value)
    requires op.IfOp? || op.ForOp?
    ensures s in RegionSources(op, j) <==> ComesFrom(op, j, s)
  {
  }

  lemma AddedEdges(G: Graph, op: Op, results: seq<nat>, sources: nat -> seq<Value>, id: nat, s: Value)
    requires (op.IfOp? || op.ForOp?) && NoRepeat(results) && id in results
    requires forall j: nat :: sources(j) == RegionSources(op, j)
    ensures Edge(AddSources(G, results, sources, 0), id, s) <==> ResultFrom(op, results, id, s)
  {
    hide ComesFrom, RegionSources, AddSources;
    AddSourcesIs(G, results, sources, 0);
    assert results[0..] == results;
    var k :| 0 <= k < |results| && results[k] == id;
    SourcesAre(op, k, s);
  }

  lemma RegionEdges(G: Graph, T: Tuples, op: Op, id: nat, s: Value)
    requires (op.IfOp? || op.ForOp?) && NoRepeat(op.results) && id in op.results
    ensures Edge(Connect(G, T, OpNode(op)), id, s) <==> Forwards(G, T, OpNode(op), id, s)
  {
    hide Edge, ComesFrom, IfSources, ForSources, AddSources, NoRepeat;
    if op.IfOp? {
      AddedEdges(G, op, op.results, (j: nat) => IfSources(op.thn, op.els, j), id, s);
    } else {
      AddedEdges(G, op, op.results, (j: nat) => ForSources(op.iters, op.body, j), id, s);
    }
  }

  /** An op gives its own results new edges and no others. */
  lemma ConnectIs(G: Graph, T: Tuples, n: Node, id: nat, s: Value)
    requires NoRepeat(ResultsAt(n)) && (id in ResultsAt(n) ==> id !in G)
    ensures Edge(Connect(G, T, n), id, s) <==> Edge(G, id, s) || Forwards(G, T, n, id, s)
  {
    hide AddSources, ElementAt, Project;
    ConnectAdds(G, T, n);
    if id in ResultsAt(n) {
      match n.op
      case ItemOp(res, tup, index) => ItemEdges(G, T, tup, index, s);
      case IfOp(_, _, _, _) => RegionEdges(G, T, n.op, id, s);
      case ForOp(_, _, _, _, _) => RegionEdges(G, T, n.op, id, s);
      case _ =>
    }
  }

  lemma ItemEdges(G: Graph, T: Tuples, tup: Value, index: int, s: Value)
    ensures s in Project(G, T, tup, index, {}) <==> ElementAt(G, T, tup, index, s)
  {
    ProjectIsReachability(G, T, tup, index, s);
  }

  /** An earlier op forwards to the value. */
  ghost predicate ForwardsBefore(nodes: seq<Node>, i: nat, id: nat, s: Value)
    requires i <= |nodes|
  {
    exists k :: 0 <= k < i && Forwards(GraphAt(nodes, k), TuplesOf(nodes), nodes[k], id, s)
  }

  /** The edges are those of the ops, no more and no fewer. */
  lemma {:induction false} EdgesExactly(nodes: seq<Node>, i: nat, id: nat, s: Value)
    requires UniqueResults(nodes) && i <= |nodes|
    ensures Edge(GraphAt(nodes, i), id, s) <==> ForwardsBefore(nodes, i, id, s)
    decreases i
  {
    hide UniqueResults, Forwards, GraphAt, Edge;
    if i == 0 {
      NoEdges(nodes, id, s);
    } else {
      EdgesExactly(nodes, i - 1, id, s);
      NewResultIsFree(nodes, i - 1, id);
      GraphNext(nodes, i - 1);
      ConnectIs(GraphAt(nodes, i - 1), TuplesOf(nodes), nodes[i - 1], id, s);
    }
  }

  lemma NoEdges(nodes: seq<Node>, id: nat, s: Value)
    ensures !Edge(GraphAt(nodes, 0), id, s)
  {
  }

  lemma NewResultIsFree(nodes: seq<Node>, i: nat, id: nat)
    requires UniqueResults(nodes) && i < |nodes|
    ensures NoRepeat(ResultsAt(nodes[i])) && (id in ResultsAt(nodes[i]) ==> id !in GraphAt(nodes, i))
  {
    GraphKeys(nodes, i, id);
  }

  /** A tuple is what its op makes it of. */
  lemma {:induction false} TuplesExactly(nodes: seq<Node>, id: nat, elems: seq<Value>)
    requires UniqueResults(nodes)
    ensures id in TuplesOf(nodes) && TuplesOf(nodes)[id] == elems <==>
      exists k :: 0 <= k < |nodes| && nodes[k] == OpNode(TupleOp(id, elems))
    decreases |nodes|
  {
    if nodes != [] {
      var init, n := nodes[..|nodes| - 1], nodes[|nodes| - 1];
      assert UniqueResults(init);
      TuplesExactly(init, id, elems);
      assert forall k :: 0 <= k < |init| ==> init[k] == nodes[k];
      if n.OpNode? && n.op.TupleOp? && n.op.res == id {
        forall k | 0 <= k < |init| ensures init[k] != OpNode(TupleOp(id, elems)) {
          assert id in ResultsAt(n) && id !in ResultsAt(nodes[k]);
        }
      }
    }
  }
}

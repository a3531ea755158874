/** On every run, a value only ever holds tensors that alias analysis finds for it. */
module AliasSound {
  import opened Bytecode
  import opened IRValues
  import opened TensorIR
  import opened AliasAnalysis
  import opened TensorSemantics
  import opened Lifetimes

  // ---------------------------------------------------------------- covering

  /** The value holds a tensor the program created. */
  ghost predicate Holds(val: TVal) {
    exists t :: t in Tensors(val) && t.store.Own?
  }

  /** The tensors in val are found from v; for a tuple, those in each element are found from what
      the analysis takes for that element. */
  ghost predicate Covers(G: Graph, P: Matcher, T: Tuples, v: Value, val: TVal)
    decreases val
  {
    (forall t <- Tensors(val) :: t.store.Own? ==> Reaches(G, P, v, Res(t.store.res))) &&
    (val.TTuple? ==> forall k :: 0 <= k < |val.fields| && Holds(val.fields[k]) ==> ElementCovered(G, P, T, v, val, k))
  }

  ghost predicate ElementCovered(G: Graph, P: Matcher, T: Tuples, v: Value, val: TVal, k: nat)
    requires val.TTuple? && k < |val.fields|
    decreases val, 0
  {
    exists s :: s in Project(G, T, v, k, {}) && Covers(G, P, T, s, val.fields[k])
  }

  lemma {:induction false} NothingHeldCovers(G: Graph, P: Matcher, T: Tuples, v: Value, val: TVal)
    requires !Holds(val)
    ensures Covers(G, P, T, v, val)
  {
    if val.TTuple? {
      forall k | 0 <= k < |val.fields| ensures !Holds(val.fields[k]) {
        if Holds(val.fields[k]) {
          var t :| t in Tensors(val.fields[k]) && t.store.Own?;
          AllTensorsAt(val.fields, k, t);
        }
      }
    }
  }

  /** One forwarding edge back. */
  lemma {:induction false} CoversEdge(G: Graph, P: Matcher, T: Tuples, id: nat, s: Value, val: TVal)
    requires id in G && s in G[id] && !P(Res(id)) && id !in T && Covers(G, P, T, s, val)
    ensures Covers(G, P, T, Res(id), val)
  {
    var r := Res(id);
    forall t | t in Tensors(val) && t.store.Own? ensures Reaches(G, P, r, Res(t.store.res)) {
      ReachesStep(G, P, r, s, Res(t.store.res));
    }
    if val.TTuple? {
      forall k | 0 <= k < |val.fields| && Holds(val.fields[k]) ensures ElementCovered(G, P, T, r, val, k) {
        assert ElementCovered(G, P, T, s, val, k);
        var e :| e in Project(G, T, s, k, {}) && Covers(G, P, T, e, val.fields[k]);
        ProjectEdge(G, T, id, s, k, e);
      }
    }
  }

  lemma {:induction false} ProjectEdge(G: Graph, T: Tuples, id: nat, s: Value, k: nat, e: Value)
    requires id in G && s in G[id] && id !in T && e in Project(G, T, s, k, {})
    ensures e in Project(G, T, Res(id), k, {})
  {
    ProjectIsReachability(G, T, s, k, e);
    ProjectIsReachability(G, T, Res(id), k, e);
    var u: nat :| u in T && Reaches(G, IsTuple(T), s, Res(u)) && 0 <= k < |T[u]| && e == T[u][k];
    ReachesStep(G, IsTuple(T), Res(id), s, Res(u));
  }

  /** More edges never hurt. */
  lemma {:induction false} CoversMore(G: Graph, H: Graph, P: Matcher, T: Tuples, v: Value, val: TVal)
    requires SubGraph(G, H) && Covers(G, P, T, v, val)
    ensures Covers(H, P, T, v, val)
    decreases val
  {
    forall t | t in Tensors(val) && t.store.Own? ensures Reaches(H, P, v, Res(t.store.res)) {
      ReachesMore(G, H, P, v, Res(t.store.res));
    }
    if val.TTuple? {
      forall k | 0 <= k < |val.fields| && Holds(val.fields[k]) ensures ElementCovered(H, P, T, v, val, k) {
        assert ElementCovered(G, P, T, v, val, k);
        var e :| e in Project(G, T, v, k, {}) && Covers(G, P, T, e, val.fields[k]);
        CoversMore(G, H, P, T, e, val.fields[k]);
        ProjectMore(G, H, T, v, k, e);
      }
    }
  }

  lemma {:induction false} ProjectMore(G: Graph, H: Graph, T: Tuples, v: Value, k: nat, e: Value)
    requires SubGraph(G, H) && e in Project(G, T, v, k, {})
    ensures e in Project(H, T, v, k, {})
  {
    ProjectIsReachability(G, T, v, k, e);
    ProjectIsReachability(H, T, v, k, e);
    var u: nat :| u in T && Reaches(G, IsTuple(T), v, Res(u)) && 0 <= k < |T[u]| && e == T[u][k];
    ReachesMore(G, H, IsTuple(T), v, Res(u));
  }

  /** A freshly made tuple is covered by its elements. */
  lemma {:induction false} CoversTuple(G: Graph, P: Matcher, T: Tuples, id: nat, elems: seq<Value>, vals: seq<TVal>)
    requires id in G && G[id] == elems && id in T && T[id] == elems && !P(Res(id)) && |vals| == |elems|
    requires forall k :: 0 <= k < |elems| ==> Covers(G, P, T, elems[k], vals[k])
    ensures Covers(G, P, T, Res(id), TTuple(vals))
  {
    var r, val := Res(id), TTuple(vals);
    forall t | t in Tensors(val) && t.store.Own? ensures Reaches(G, P, r, Res(t.store.res)) {
      var k := AllTensorsFrom(vals, t);
      assert Covers(G, P, T, elems[k], vals[k]);
      ReachesStep(G, P, r, elems[k], Res(t.store.res));
    }
    forall k | 0 <= k < |vals| && Holds(vals[k]) ensures ElementCovered(G, P, T, r, val, k) {
      assert Project(G, T, r, k, {}) == [elems[k]];
      assert elems[k] in Project(G, T, r, k, {}) && Covers(G, P, T, elems[k], val.fields[k]);
    }
  }

  // ---------------------------------------------------------------- the graph while it grows

  function GraphAt(nodes: seq<Node>, i: nat): Graph
    requires i <= |nodes|
  {
    Edges(nodes[..i], TuplesOf(nodes))
  }

  lemma {:induction false} AddSourcesIs(G: Graph, results: seq<nat>, sources: nat -> seq<Value>, j: nat)
    requires j <= |results| && NoRepeat(results)
    ensures var H := AddSources(G, results, sources, j);
      (forall id :: id in H <==> id in G || id in results[j..]) &&
      (forall id :: id in G && id !in results[j..] ==> H[id] == G[id]) &&
      forall k :: j <= k < |results| ==> H[results[k]] == sources(k)
    decreases |results| - j
  {
    if j < |results| {
      AddSourcesIs(G[results[j] := sources(j)], results, sources, j + 1);
      assert results[j..] == [results[j]] + results[j + 1..];
    }
  }

  /** One op adds edges for its own results only. */
  lemma ConnectAdds(G: Graph, T: Tuples, n: Node)
    requires NoRepeat(ResultsAt(n))
    ensures var H := Connect(G, T, n);
      (forall id :: id in H ==> id in G || id in ResultsAt(n)) &&
      forall id :: id in G && id !in ResultsAt(n) ==> id in H && H[id] == G[id]
  {
    if n.OpNode? {
      match n.op
      case IfOp(results, _, thn, els) =>
        AddSourcesIs(G, results, (j: nat) => IfSources(thn, els, j), 0);
        assert results[0..] == results;
      case ForOp(results, _, _, iters, body) =>
        AddSourcesIs(G, results, (j: nat) => ForSources(iters, body, j), 0);
        assert results[0..] == results;
      case _ =>
    }
  }

  lemma {:induction false} GraphNext(nodes: seq<Node>, i: nat)
    requires i < |nodes|
    ensures GraphAt(nodes, i + 1) == Connect(GraphAt(nodes, i), TuplesOf(nodes), nodes[i])
  {
    assert nodes[..i + 1][..i] == nodes[..i];
  }

  lemma {:induction false} GraphKeys(nodes: seq<Node>, i: nat, id: nat)
    requires UniqueResults(nodes) && i <= |nodes|
    ensures id in GraphAt(nodes, i) ==> exists k :: 0 <= k < i && id in ResultsAt(nodes[k])
    decreases i
  {
    if i > 0 {
      GraphNext(nodes, i - 1);
      ConnectAdds(GraphAt(nodes, i - 1), TuplesOf(nodes), nodes[i - 1]);
      if id !in ResultsAt(nodes[i - 1]) { GraphKeys(nodes, i - 1, id); }
    }
  }

  /** Edges once added stay. */
  lemma {:induction false} GraphGrows(nodes: seq<Node>, i: nat, j: nat)
    requires UniqueResults(nodes) && i <= j <= |nodes|
    ensures SubGraph(GraphAt(nodes, i), GraphAt(nodes, j))
    decreases j
  {
    hide Connect, Edges, UniqueResults, TuplesOf;
    if i < j {
      GraphGrows(nodes, i, j - 1);
      GraphNext(nodes, j - 1);
      NoRepeatAt(nodes, j - 1);
      ConnectAdds(GraphAt(nodes, j - 1), TuplesOf(nodes), nodes[j - 1]);
      forall id | id in GraphAt(nodes, i) ensures id !in ResultsAt(nodes[j - 1]) {
        GraphKeys(nodes, i, id);
        var k :| 0 <= k < i && id in ResultsAt(nodes[k]);
        OneDefinition(nodes, k, j - 1, id);
      }
    }
  }

  lemma NoRepeatAt(nodes: seq<Node>, i: nat)
    requires UniqueResults(nodes) && i < |nodes|
    ensures NoRepeat(ResultsAt(nodes[i]))
  {
  }

  lemma OneDefinition(nodes: seq<Node>, i: nat, j: nat, id: nat)
    requires UniqueResults(nodes) && i < j < |nodes| && id in ResultsAt(nodes[i])
    ensures id !in ResultsAt(nodes[j])
  {
  }

  /** Tuples are recognised by their results. */
  lemma {:induction false} TuplesAre(nodes: seq<Node>, id: nat)
    requires UniqueResults(nodes)
    ensures id in TuplesOf(nodes) <==> exists i :: 0 <= i < |nodes| && TupleAt(nodes[i], id)
    ensures forall i :: 0 <= i < |nodes| && TupleAt(nodes[i], id) ==>
      id in TuplesOf(nodes) && TuplesOf(nodes)[id] == nodes[i].op.elems
    decreases |nodes|
  {
    if nodes != [] {
      var init, n := nodes[..|nodes| - 1], nodes[|nodes| - 1];
      forall i, j, x | 0 <= i < j < |init| && x in ResultsAt(init[i]) ensures x !in ResultsAt(init[j]) {
        assert init[i] == nodes[i] && init[j] == nodes[j];
      }
      TuplesAre(init, id);
      forall i | 0 <= i < |nodes| && TupleAt(nodes[i], id)
        ensures id in TuplesOf(nodes) && TuplesOf(nodes)[id] == nodes[i].op.elems
      {
        if i < |init| {
          assert init[i] == nodes[i] && TupleAt(init[i], id);
          assert id in ResultsAt(nodes[i]);
        }
      }
      if id in TuplesOf(init) {
        var i :| 0 <= i < |init| && TupleAt(init[i], id);
        assert TupleAt(nodes[i], id);
      } else if id in TuplesOf(nodes) {
        assert TupleAt(nodes[|nodes| - 1], id);
      }
    }
  }

  predicate TupleAt(n: Node, id: nat) {
    n.OpNode? && n.op.TupleOp? && n.op.res == id
  }

  /** A result of another op is neither a tuple nor a created tensor. */
  lemma {:induction false} ResultKind(nodes: seq<Node>, i: nat, id: nat)
    requires UniqueResults(nodes) && i < |nodes| && id in ResultsAt(nodes[i])
    ensures id in TuplesOf(nodes) <==> TupleAt(nodes[i], id)
    ensures TupleAt(nodes[i], id) ==> TuplesOf(nodes)[id] == nodes[i].op.elems
    ensures id in ResIds(Creations(nodes)) <==> nodes[i].op.CreateOp?
  {
    TuplesAre(nodes, id);
    if k :| 0 <= k < |nodes| && TupleAt(nodes[k], id) {
      assert id in ResultsAt(nodes[k]);
      assert k == i;
    }
    if c :| c in Creations(nodes) && c.res == id {
      assert id in ResultsAt(nodes[c.index]);
      assert c.index == i;
    }
  }

  /** The edges of the op at position i, seen from any later position. */
  lemma {:induction false} EdgesOf(nodes: seq<Node>, i: nat, j: nat)
    requires UniqueResults(nodes) && i < j <= |nodes| && nodes[i].OpNode?
    ensures var H := GraphAt(nodes, j); var op := nodes[i].op;
      match op
      case TupleOp(res, elems) => res in H && H[res] == elems
      case ViewOp(res, base, _, _, _, _) => res in H && H[res] == [base]
      case ItemOp(res, tup, index) => res in H && H[res] == Project(GraphAt(nodes, i), TuplesOf(nodes), tup, index, {})
      case IfOp(results, _, thn, els) => forall k :: 0 <= k < |results| ==>
        results[k] in H && H[results[k]] == IfSources(thn, els, k)
      case ForOp(results, _, _, iters, body) => forall k :: 0 <= k < |results| ==>
        results[k] in H && H[results[k]] == ForSources(iters, body, k)
      case _ => true
  {
    GraphNext(nodes, i);
    GraphGrows(nodes, i + 1, j);
    assert NoRepeat(ResultsAt(nodes[i]));
    if nodes[i].op.IfOp? {
      var op := nodes[i].op;
      AddSourcesIs(GraphAt(nodes, i), op.results, (k: nat) => IfSources(op.thn, op.els, k), 0);
      assert op.results[0..] == op.results;
    } else if nodes[i].op.ForOp? {
      var op := nodes[i].op;
      AddSourcesIs(GraphAt(nodes, i), op.results, (k: nat) => ForSources(op.iters, op.body, k), 0);
      assert op.results[0..] == op.results;
    }
  }

  // ---------------------------------------------------------------- runs

  predicate VarsAre(vs: seq<Value>, params: set<nat>) {
    forall v <- vs :: v.Var? ==> v.id in params
  }

  /** Parameters are no results, and every variable is a parameter. */
  predicate ParamsOnly(nodes: seq<Node>, params: set<nat>) {
    forall n <- nodes :: VarsAre(Refs(n), params) && forall id <- ResultsAt(n) :: id !in params
  }

  /** The loop carries no tensor that the program created: the analysis finds none for what it starts
      with or yields. */
  predicate CarriesNone(nodes: seq<Node>, op: Op)
    requires op.ForOp?
  {
    forall v <- Inits(op.iters) + op.body.yielded :: FindsNone(nodes, v)
  }

  predicate FindsNone(nodes: seq<Node>, v: Value) {
    Resolve(GraphAt(nodes, |nodes|), IsCreated(Creations(nodes)), v, {}) == {}
  }

  /** No op, yield or return refers to the name. */
  predicate Unread(nodes: seq<Node>, id: nat) {
    forall n <- nodes, v <- Refs(n) :: v.Imm? || v.id != id
  }

  /** What is required of every loop; its variables count as parameters. */
  predicate PlainLoops(nodes: seq<Node>, params: set<nat>) {
    forall n <- nodes :: n.OpNode? && n.op.ForOp? ==>
      n.op.loopVar in params && (forall id <- Vars(n.op.iters) :: id in params) && CarriesNone(nodes, n.op)
  }

  /** A carried tensor that the program created is on its way to the results only: nothing reads the variable. */
  predicate ReadsNone(nodes: seq<Node>, op: Op)
    requires op.ForOp?
  {
    forall j :: 0 <= j < |op.iters| ==>
      Unread(nodes, op.iters[j].v) ||
      (FindsNone(nodes, op.iters[j].init) && (j < |op.body.yielded| ==> FindsNone(nodes, op.body.yielded[j])))
  }

  /** What alias analysis needs of every loop. */
  predicate ReadLoops(nodes: seq<Node>, params: set<nat>) {
    forall n <- nodes :: n.OpNode? && n.op.ForOp? ==>
      n.op.loopVar in params && (forall id <- Vars(n.op.iters) :: id in params) && ReadsNone(nodes, n.op)
  }

  lemma PlainLoopsRead(nodes: seq<Node>, params: set<nat>)
    requires PlainLoops(nodes, params)
    ensures ReadLoops(nodes, params)
  {
    hide FindsNone, Unread;
    forall n | n in nodes && n.OpNode? && n.op.ForOp? ensures ReadsNone(nodes, n.op) { CarriesNoneReads(nodes, n.op); }
  }

  lemma CarriesNoneReads(nodes: seq<Node>, op: Op)
    requires op.ForOp? && CarriesNone(nodes, op)
    ensures ReadsNone(nodes, op)
  {
    hide FindsNone, Unread;
    forall j | 0 <= j < |op.iters| ensures FindsNone(nodes, op.iters[j].init) {
      assert Inits(op.iters)[j] in Inits(op.iters) + op.body.yielded;
    }
  }

  /** The variables that a loop binds. */
  function BoundAt(n: Node): set<nat> {
    if n.OpNode? && n.op.ForOp? then {n.op.loopVar} + (set v <- Vars(n.op.iters)) else {}
  }

  ghost predicate EnvCovered(nodes: seq<Node>, params: set<nat>, i: nat, E: TEnv)
    requires i <= |nodes|
  {
    forall id :: id in E ==>
      if id in params then Unread(nodes, id) || !Holds(E[id])
      else Covers(GraphAt(nodes, i), IsCreated(Creations(nodes)), TuplesOf(nodes), Res(id), E[id])
  }

  lemma EnvCoveredLater(nodes: seq<Node>, params: set<nat>, i: nat, j: nat, E: TEnv)
    requires UniqueResults(nodes) && i <= j <= |nodes| && EnvCovered(nodes, params, i, E)
    ensures EnvCovered(nodes, params, j, E)
  {
    GraphGrows(nodes, i, j);
    forall id | id in E && id !in params
      ensures Covers(GraphAt(nodes, j), IsCreated(Creations(nodes)), TuplesOf(nodes), Res(id), E[id])
    {
      CoversMore(GraphAt(nodes, i), GraphAt(nodes, j), IsCreated(Creations(nodes)), TuplesOf(nodes), Res(id), E[id]);
    }
  }

  /** What an operand holds is found from it. */
  lemma {:induction false} OperandCovered(nodes: seq<Node>, params: set<nat>, i: nat, E: TEnv, v: Value)
    requires i <= |nodes| && EnvCovered(nodes, params, i, E) && EvalV(v, E).Some? && (v.Var? ==> v.id in params)
    requires !v.Imm? ==> !Unread(nodes, v.id)
    ensures Covers(GraphAt(nodes, i), IsCreated(Creations(nodes)), TuplesOf(nodes), v, EvalV(v, E).value)
  {
    hide Unread;
    var val := EvalV(v, E).value;
    if v.Imm? || v.id in params { NothingHeldCovers(GraphAt(nodes, i), IsCreated(Creations(nodes)), TuplesOf(nodes), v,
                                                    val); }
  }

  /** Binding one more result. */
  lemma {:induction false} EnvCoveredBind(nodes: seq<Node>, params: set<nat>, i: nat, E: TEnv, id: nat, val: TVal)
    requires i <= |nodes| && EnvCovered(nodes, params, i, E) && id !in params
    requires Covers(GraphAt(nodes, i), IsCreated(Creations(nodes)), TuplesOf(nodes), Res(id), val)
    ensures EnvCovered(nodes, params, i, E[id := val])
  {
  }

  lemma OperandOf(nodes: seq<Node>, params: set<nat>, i: nat, v: Value)
    requires i < |nodes| && ParamsOnly(nodes, params) && v in Refs(nodes[i])
    ensures v.Var? ==> v.id in params
    ensures !v.Imm? ==> !Unread(nodes, v.id)
  {
    assert nodes[i] in nodes;
  }

  /** What holds around the op at position i. */
  ghost predicate Around(nodes: seq<Node>, params: set<nat>, i: nat, op: Op, E: TEnv) {
    UniqueResults(nodes) && ParamsOnly(nodes, params) && i < |nodes| && nodes[i] == OpNode(op) &&
      EnvCovered(nodes, params, i, E)
  }

  lemma CreateCovered(C: Context, nodes: seq<Node>, params: set<nat>, i: nat, op: Op, st: TState)
    requires Around(nodes, params, i, op, st.env) && op.CreateOp? && DoCreate(C, op, st).Some?
    ensures EnvCovered(nodes, params, i + 1, DoCreate(C, op, st).value.env)
  {
    hide Covers, EnvCovered, UniqueResults, ParamsOnly, Filled;
    EnvCoveredLater(nodes, params, i, i + 1, st.env);
    ResultNotParam(nodes, params, i);
    ResultKind(nodes, i, op.res);
    var val := DoCreate(C, op, st).value.env[op.res];
    CreatedCovers(GraphAt(nodes, i + 1), IsCreated(Creations(nodes)), TuplesOf(nodes), op.res, val);
    EnvCoveredBind(nodes, params, i + 1, st.env, op.res, val);
  }

  lemma ViewCovered(C: Context, nodes: seq<Node>, params: set<nat>, i: nat, op: Op, st: TState)
    requires Around(nodes, params, i, op, st.env) && op.ViewOp? && DoView(C, op, st).Some?
    ensures EnvCovered(nodes, params, i + 1, DoView(C, op, st).value.env)
  {
    hide Covers, EnvCovered, UniqueResults, ParamsOnly;
    EnvCoveredLater(nodes, params, i, i + 1, st.env);
    EdgesOf(nodes, i, i + 1);
    ResultNotParam(nodes, params, i);
    ResultKind(nodes, i, op.res);
    assert op.base in Refs(nodes[i]);
    OperandOf(nodes, params, i, op.base);
    OperandCovered(nodes, params, i + 1, st.env, op.base);
    var view := DoView(C, op, st).value.env[op.res];
    ViewCovers(GraphAt(nodes, i + 1), IsCreated(Creations(nodes)), TuplesOf(nodes), op.res, op.base,
               EvalV(op.base, st.env).value, view);
    EnvCoveredBind(nodes, params, i + 1, st.env, op.res, view);
  }

  lemma {:induction false} TupleCovered(nodes: seq<Node>, params: set<nat>, i: nat, op: Op, E: TEnv)
    requires Around(nodes, params, i, op, E) && op.TupleOp? && EvalVs(op.elems, E).Some?
    ensures EnvCovered(nodes, params, i + 1, E[op.res := TTuple(EvalVs(op.elems, E).value)])
  {
    hide Covers, EnvCovered, UniqueResults, ParamsOnly;
    var P, T, G := IsCreated(Creations(nodes)), TuplesOf(nodes), GraphAt(nodes, i + 1);
    EnvCoveredLater(nodes, params, i, i + 1, E);
    EdgesOf(nodes, i, i + 1);
    ResultNotParam(nodes, params, i);
    ResultKind(nodes, i, op.res);
    var vals := EvalVs(op.elems, E).value;
    forall k | 0 <= k < |op.elems| ensures Covers(G, P, T, op.elems[k], vals[k]) {
      assert op.elems[k] in Refs(nodes[i]);
      OperandOf(nodes, params, i, op.elems[k]);
      OperandCovered(nodes, params, i + 1, E, op.elems[k]);
    }
    CoversTuple(G, P, T, op.res, op.elems, vals);
    EnvCoveredBind(nodes, params, i + 1, E, op.res, TTuple(vals));
  }

  lemma ItemCovered(nodes: seq<Node>, params: set<nat>, i: nat, op: Op, st: TState)
    requires Around(nodes, params, i, op, st.env) && op.ItemOp? && DoItem(op, st).Some?
    ensures EnvCovered(nodes, params, i + 1, DoItem(op, st).value.env)
  {
    hide Covers, EnvCovered, UniqueResults, ParamsOnly;
    EnvCoveredLater(nodes, params, i, i + 1, st.env);
    ResultNotParam(nodes, params, i);
    assert op.tup in Refs(nodes[i]);
    OperandOf(nodes, params, i, op.tup);
    OperandCovered(nodes, params, i, st.env, op.tup);
    var val := EvalV(op.tup, st.env).value;
    ItemCovers(nodes, i, op.res, op.tup, op.index, val);
    EnvCoveredBind(nodes, params, i + 1, st.env, op.res, val.fields[op.index]);
  }

  /** The result of a straight-line op is covered. */
  lemma {:induction false} ResultCovered(C: Context, nodes: seq<Node>, params: set<nat>, i: nat, op: Op, st: TState)
    requires UniqueResults(nodes) && ParamsOnly(nodes, params) && i < |nodes| && nodes[i] == OpNode(op)
    requires Lowered(op) && !op.IfOp? && !op.ForOp?
    requires EnvCovered(nodes, params, i, st.env) && Exec(C, op, st).Some?
    ensures EnvCovered(nodes, params, i + 1, Exec(C, op, st).value.env)
  {
    hide DoCreate, DoView, DoCall, DoItem, EnvCovered, UniqueResults, ParamsOnly;
    match op
    case CreateOp(_, _, _, _, _) => CreateCovered(C, nodes, params, i, op, st);
    case ViewOp(_, _, _, _, _, _) => ViewCovered(C, nodes, params, i, op, st);
    case TupleOp(_, _) => TupleCovered(nodes, params, i, op, st.env);
    case ItemOp(_, _, _) => ItemCovered(nodes, params, i, op, st);
    case CallOp(_, _, _, _) =>
      CallKeepsEnv(C, op, st);
      EnvCoveredLater(nodes, params, i, i + 1, st.env);
    case CheckOp(_, _, _) => EnvCoveredLater(nodes, params, i, i + 1, st.env);
  }

  lemma CallKeepsEnv(C: Context, op: Op, st: TState)
    requires op.CallOp? && DoCall(C, op, st).Some?
    ensures DoCall(C, op, st).value.env == st.env
  {
  }

  lemma ResultNotParam(nodes: seq<Node>, params: set<nat>, i: nat)
    requires i < |nodes| && ParamsOnly(nodes, params)
    ensures forall id <- ResultsAt(nodes[i]) :: id !in params
  {
    assert nodes[i] in nodes;
  }

  lemma {:induction false} CreatedCovers(G: Graph, P: Matcher, T: Tuples, res: nat, val: TVal)
    requires P(Res(res)) && val.TTensor? && val.t.store.Own? && val.t.store.res == res
    ensures Covers(G, P, T, Res(res), val)
  {
    ReachesSelf(G, P, Res(res));
  }

  lemma {:induction false} ViewCovers(G: Graph, P: Matcher, T: Tuples, res: nat, base: Value, val: TVal, view: TVal)
    requires res in G && G[res] == [base] && !P(Res(res)) && res !in T && Covers(G, P, T, base, val)
    requires val.TTensor? && view.TTensor? && view.t.store == val.t.store
    ensures Covers(G, P, T, Res(res), view)
  {
    CoversEdge(G, P, T, res, base, val);
  }

  /** The edges of a projection were computed from the graph at that point. */
  lemma {:induction false} ItemCovers(nodes: seq<Node>, i: nat, res: nat, tup: Value, index: int, val: TVal)
    requires UniqueResults(nodes) && i < |nodes| && nodes[i] == OpNode(ItemOp(res, tup, index))
    requires val.TTuple? && 0 <= index < |val.fields|
    requires Covers(GraphAt(nodes, i), IsCreated(Creations(nodes)), TuplesOf(nodes), tup, val)
    ensures Covers(GraphAt(nodes, i + 1), IsCreated(Creations(nodes)), TuplesOf(nodes), Res(res), val.fields[index])
  {
    var P, T, G, H := IsCreated(Creations(nodes)), TuplesOf(nodes), GraphAt(nodes, i), GraphAt(nodes, i + 1);
    EdgesOf(nodes, i, i + 1);
    ResultKind(nodes, i, res);
    GraphGrows(nodes, i, i + 1);
    if Holds(val.fields[index]) {
      assert ElementCovered(G, P, T, tup, val, index);
      var s :| s in Project(G, T, tup, index, {}) && Covers(G, P, T, s, val.fields[index]);
      CoversMore(G, H, P, T, s, val.fields[index]);
      CoversEdge(H, P, T, res, s, val.fields[index]);
    } else {
      NothingHeldCovers(H, P, T, Res(res), val.fields[index]);
    }
  }

  // ---------------------------------------------------------------- control flow

  /** A stretch of the linear order. */
  predicate Segment(nodes: seq<Node>, i: nat, part: seq<Node>) {
    i + |part| <= |nodes| && nodes[i..i + |part|] == part
  }

  lemma SegmentParts(nodes: seq<Node>, i: nat, a: seq<Node>, b: seq<Node>)
    requires Segment(nodes, i, a + b)
    ensures Segment(nodes, i, a) && Segment(nodes, i + |a|, b)
  {
    var whole := nodes[i..i + |a + b|];
    assert whole[..|a|] == a && whole[|a|..] == b;
    assert nodes[i..i + |a|] == whole[..|a|];
    assert nodes[i + |a|..i + |a| + |b|] == whole[|a|..];
  }

  lemma SegmentHead(nodes: seq<Node>, i: nat, part: seq<Node>)
    requires Segment(nodes, i, part) && part != []
    ensures i < |nodes| && nodes[i] == part[0]
  {
    assert nodes[i..i + |part|][0] == nodes[i];
  }

  /** Where the branches of a conditional lie. */
  lemma {:induction false} BranchSegments(nodes: seq<Node>, i: nat, op: Op)
    requires op.IfOp? && Segment(nodes, i, OpNodes(op))
    ensures i < |nodes| && nodes[i] == OpNode(op)
    ensures Segment(nodes, i + 1, RegionNodes(op.thn)) && i + 1 + |RegionNodes(op.thn)| <= i + |OpNodes(op)|
    ensures op.els.Some? ==> Segment(nodes, i + 1 + |RegionNodes(op.thn)|, RegionNodes(op.els.value))
    ensures op.els.Some? ==> i + 1 + |RegionNodes(op.thn)| + |RegionNodes(op.els.value)| == i + |OpNodes(op)|
    ensures op.els.None? ==> i + 1 + |RegionNodes(op.thn)| == i + |OpNodes(op)|
  {
    var rest := RegionNodes(op.thn) + (if op.els.Some? then RegionNodes(op.els.value) else []);
    assert OpNodes(op) == [OpNode(op)] + rest;
    SegmentHead(nodes, i, OpNodes(op));
    SegmentParts(nodes, i, [OpNode(op)], rest);
    SegmentParts(nodes, i + 1, RegionNodes(op.thn), if op.els.Some? then RegionNodes(op.els.value) else []);
  }

  /** Where the ops of a region and its yield lie. */
  lemma {:induction false} RegionSegments(nodes: seq<Node>, i: nat, r: Region)
    requires Segment(nodes, i, RegionNodes(r))
    ensures Segment(nodes, i, OpsNodes(r.ops)) && i + |OpsNodes(r.ops)| < |nodes|
    ensures nodes[i + |OpsNodes(r.ops)|] == YieldNode(r.yielded) && |RegionNodes(r)| == |OpsNodes(r.ops)| + 1
  {
    SegmentParts(nodes, i, OpsNodes(r.ops), [YieldNode(r.yielded)]);
    SegmentHead(nodes, i + |OpsNodes(r.ops)|, [YieldNode(r.yielded)]);
  }

  lemma {:induction false} BindValsCovered(nodes: seq<Node>, params: set<nat>, i: nat, E: TEnv, ids: seq<nat>,
                                           vals: seq<TVal>)
    requires i <= |nodes| && EnvCovered(nodes, params, i, E) && |ids| == |vals| && forall id <- ids :: id !in params
    requires forall k :: 0 <= k < |ids| ==>
      Covers(GraphAt(nodes, i), IsCreated(Creations(nodes)), TuplesOf(nodes), Res(ids[k]), vals[k])
    ensures EnvCovered(nodes, params, i, BindVals(E, ids, vals))
    decreases |ids|
  {
    if ids != [] {
      EnvCoveredBind(nodes, params, i, E, ids[0], vals[0]);
      BindValsCovered(nodes, params, i, E[ids[0] := vals[0]], ids[1..], vals[1..]);
    }
  }

  /** What a branch yields covers the results of the conditional. */
  lemma {:induction false} YieldsCovered(nodes: seq<Node>, params: set<nat>, i: nat, j: nat, op: Op, r: Region, E: TEnv,
                                         vals: seq<TVal>)
    requires UniqueResults(nodes) && ParamsOnly(nodes, params) && i < j <= |nodes| && nodes[i] == OpNode(op) && op.IfOp?
    requires (r == op.thn || (op.els.Some? && r == op.els.value)) && YieldNode(r.yielded) in nodes
    requires EnvCovered(nodes, params, j, E) && EvalVs(r.yielded, E) == Some(vals) && |vals| == |op.results|
    ensures forall k :: 0 <= k < |op.results| ==>
      Covers(GraphAt(nodes, j), IsCreated(Creations(nodes)), TuplesOf(nodes), Res(op.results[k]), vals[k])
  {
    hide Covers, EnvCovered, UniqueResults, Creations;
    var P, T, G := IsCreated(Creations(nodes)), TuplesOf(nodes), GraphAt(nodes, j);
    EdgesOf(nodes, i, j);
    forall k | 0 <= k < |op.results| ensures Covers(G, P, T, Res(op.results[k]), vals[k]) {
      var v := r.yielded[k];
      assert v in Refs(YieldNode(r.yielded));
      if !v.Imm? { YieldedRead(nodes, r.yielded, v); }
      OperandCovered(nodes, params, j, E, v);
      ResultKind(nodes, i, op.results[k]);
      assert v in IfSources(op.thn, op.els, k);
      CoversEdge(G, P, T, op.results[k], v, vals[k]);
    }
  }

  lemma YieldedRead(nodes: seq<Node>, yielded: seq<Value>, v: Value)
    requires YieldNode(yielded) in nodes && v in yielded && !v.Imm?
    ensures !Unread(nodes, v.id)
  {
    assert v in Refs(YieldNode(yielded));
  }

  lemma {:induction false} RegionCovered(C: Context, nodes: seq<Node>, params: set<nat>, i: nat, s: nat, e: nat, op: Op,
                                         r: Region, st: TState)
    requires UniqueResults(nodes) && ParamsOnly(nodes, params) && ReadLoops(nodes, params)
    requires i < s && i < |nodes| && nodes[i] == OpNode(op)
    requires op.IfOp? && (r == op.thn || (op.els.Some? && r == op.els.value)) && LoweredOps(r.ops)
    requires Segment(nodes, s, RegionNodes(r)) && s + |RegionNodes(r)| <= e <= |nodes|
    requires EnvCovered(nodes, params, i, st.env) && ExecRegion(C, r, op.results, st).Some?
    ensures EnvCovered(nodes, params, e, ExecRegion(C, r, op.results, st).value.env)
    decreases r, 0
  {
    hide Covers, EnvCovered, UniqueResults, ExecOps, Creations, RegionNodes, OpsNodes, ReadLoops;
    RegionSegments(nodes, s, r);
    EnvCoveredLater(nodes, params, i, s, st.env);
    OpsCovered(C, nodes, params, s, r.ops, st);
    var inner := ExecOps(C, r.ops, st).value;
    var vals := EvalVs(r.yielded, inner.env).value;
    EnvCoveredLater(nodes, params, s + |OpsNodes(r.ops)|, e, inner.env);
    EnvCoveredLater(nodes, params, i, e, st.env);
    YieldsCovered(nodes, params, i, e, op, r, inner.env, vals);
    ResultNotParam(nodes, params, i);
    BindValsCovered(nodes, params, e, st.env, op.results, vals);
  }

  // ---------------------------------------------------------------- loops

  /** Where the body of a loop and its yield lie. */
  lemma {:induction false} LoopSegments(nodes: seq<Node>, i: nat, op: Op)
    requires op.ForOp? && Segment(nodes, i, OpNodes(op))
    ensures i < |nodes| && nodes[i] == OpNode(op) && |OpNodes(op)| == |OpsNodes(op.body.ops)| + 2
    ensures Segment(nodes, i + 1, OpsNodes(op.body.ops)) && i + |OpNodes(op)| <= |nodes|
    ensures nodes[i + 1 + |OpsNodes(op.body.ops)|] == YieldNode(op.body.yielded)
  {
    SegmentHead(nodes, i, OpNodes(op));
    SegmentParts(nodes, i, [OpNode(op)], RegionNodes(op.body));
    RegionSegments(nodes, i + 1, op.body);
  }

  lemma PlainLoop(nodes: seq<Node>, params: set<nat>, i: nat, op: Op)
    requires PlainLoops(nodes, params) && i < |nodes| && nodes[i] == OpNode(op) && op.ForOp?
    ensures op.loopVar in params && (forall id <- Vars(op.iters) :: id in params) && CarriesNone(nodes, op)
  {
    assert nodes[i] in nodes;
  }

  lemma ReadLoop(nodes: seq<Node>, params: set<nat>, i: nat, op: Op)
    requires ReadLoops(nodes, params) && i < |nodes| && nodes[i] == OpNode(op) && op.ForOp?
    ensures op.loopVar in params && (forall id <- Vars(op.iters) :: id in params) && ReadsNone(nodes, op)
  {
    assert nodes[i] in nodes;
  }

  /** A value for which the analysis finds no created tensor holds none. */
  lemma {:induction false} NoneFoundNoneHeld(nodes: seq<Node>, params: set<nat>, i: nat, E: TEnv, v: Value)
    requires UniqueResults(nodes) && i <= |nodes| && EnvCovered(nodes, params, i, E)
    requires EvalV(v, E).Some? && (v.Var? ==> v.id in params) && (!v.Imm? ==> !Unread(nodes, v.id))
    requires FindsNone(nodes, v)
    ensures !Holds(EvalV(v, E).value)
  {
    hide EnvCovered, UniqueResults, Reaches, Resolve, IsCreated, Edges, Unread;
    OperandCovered(nodes, params, i, E, v);
    var P, val := IsCreated(Creations(nodes)), EvalV(v, E).value;
    if Holds(val) {
      var t :| t in Tensors(val) && t.store.Own?;
      GraphGrows(nodes, i, |nodes|);
      ReachesMore(GraphAt(nodes, i), GraphAt(nodes, |nodes|), P, v, Res(t.store.res));
      ResolveIsReachability(GraphAt(nodes, |nodes|), P, v, Res(t.store.res));
    }
  }

  lemma {:induction false} CarriedHoldNone(nodes: seq<Node>, params: set<nat>, i: nat, op: Op, E: TEnv, vs: seq<Value>,
                                           n: nat)
    requires UniqueResults(nodes) && ParamsOnly(nodes, params) && i <= |nodes| && EnvCovered(nodes, params, i, E)
    requires op.ForOp? && CarriesNone(nodes, op) && (vs == Inits(op.iters) || vs == op.body.yielded)
    requires n < |nodes| && (forall v <- vs :: v in Refs(nodes[n])) && EvalVs(vs, E).Some?
    ensures forall val <- EvalVs(vs, E).value :: !Holds(val)
  {
    hide EnvCovered, UniqueResults, ParamsOnly, FindsNone, Holds, Creations, IsCreated, Refs, Unread;
    forall val | val in EvalVs(vs, E).value ensures !Holds(val) {
      var k :| 0 <= k < |vs| && EvalVs(vs, E).value[k] == val;
      OperandOf(nodes, params, n, vs[k]);
      NoneFoundNoneHeld(nodes, params, i, E, vs[k]);
    }
  }

  /** What a loop carries: each value is found from the initial one or from the yielded one, and a variable that is
      read holds no created tensor. */
  ghost predicate CarriedCovered(nodes: seq<Node>, e: nat, op: Op, vals: seq<TVal>)
    requires e <= |nodes| && op.ForOp?
  {
    forall k :: 0 <= k < |vals| ==>
      SourceCovers(nodes, e, op, k, vals[k]) && (k < |op.iters| ==> Unread(nodes, op.iters[k].v) || !Holds(vals[k]))
  }

  ghost predicate SourceCovers(nodes: seq<Node>, e: nat, op: Op, k: nat, val: TVal)
    requires e <= |nodes| && op.ForOp?
  {
    exists s :: s in ForSources(op.iters, op.body, k) &&
      Covers(GraphAt(nodes, e), IsCreated(Creations(nodes)), TuplesOf(nodes), s, val)
  }

  /** The values of the initial operands, or of those a round yields. */
  lemma {:induction false} OperandsCarried(nodes: seq<Node>, params: set<nat>, i: nat, e: nat, op: Op, E: TEnv,
                                           vs: seq<Value>, n: nat)
    requires UniqueResults(nodes) && ParamsOnly(nodes, params) && i <= e <= |nodes| && EnvCovered(nodes, params, i, E)
    requires op.ForOp? && ReadsNone(nodes, op) && (vs == Inits(op.iters) || vs == op.body.yielded)
    requires n < |nodes| && (forall v <- vs :: v in Refs(nodes[n])) && EvalVs(vs, E).Some?
    ensures CarriedCovered(nodes, e, op, EvalVs(vs, E).value)
  {
    hide EnvCovered, UniqueResults, ParamsOnly, FindsNone, Holds, Creations, IsCreated, Refs, Unread, Covers;
    var vals := EvalVs(vs, E).value;
    GraphGrows(nodes, i, e);
    forall k | 0 <= k < |vals|
      ensures SourceCovers(nodes, e, op, k, vals[k])
      ensures (k < |op.iters| ==> Unread(nodes, op.iters[k].v) || !Holds(vals[k]))
    {
      OperandOf(nodes, params, n, vs[k]);
      OperandCovered(nodes, params, i, E, vs[k]);
      CoversMore(GraphAt(nodes, i), GraphAt(nodes, e), IsCreated(Creations(nodes)), TuplesOf(nodes), vs[k], vals[k]);
      assert vs[k] in ForSources(op.iters, op.body, k);
      if k < |op.iters| && !Unread(nodes, op.iters[k].v) { NoneFoundNoneHeld(nodes, params, i, E, vs[k]); }
    }
  }

  lemma {:induction false} BindVarsCovered(nodes: seq<Node>, params: set<nat>, i: nat, E: TEnv, ids: seq<nat>,
                                           vals: seq<TVal>)
    requires i <= |nodes| && EnvCovered(nodes, params, i, E) && |ids| == |vals| && forall id <- ids :: id in params
    requires forall k :: 0 <= k < |ids| ==> Unread(nodes, ids[k]) || !Holds(vals[k])
    ensures EnvCovered(nodes, params, i, BindVals(E, ids, vals))
    decreases |ids|
  {
    hide Covers, Holds, Unread;
    if ids != [] { BindVarsCovered(nodes, params, i, E[ids[0] := vals[0]], ids[1..], vals[1..]); }
  }

  /** Every round starts with a covered environment. */
  lemma EnterCovered(nodes: seq<Node>, params: set<nat>, i: nat, op: Op, x: int, vals: seq<TVal>, k: nat, st: TState)
    requires op.ForOp? && |vals| == |op.iters| && i <= |nodes| && EnvCovered(nodes, params, i, st.env)
    requires op.loopVar in params && (forall id <- Vars(op.iters) :: id in params)
    requires forall j :: 0 <= j < |vals| ==> Unread(nodes, op.iters[j].v) || !Holds(vals[j])
    ensures EnvCovered(nodes, params, i, EnterBody(op, x, vals, k, st).env)
  {
    hide Covers, Unread;
    BindVarsCovered(nodes, params, i, st.env[op.loopVar := TScalar(Int(x))], Vars(op.iters), vals);
  }

  /** Whatever number of rounds a loop makes, what it carries is found from its sources. */
  lemma {:induction false} LoopCovered(C: Context, nodes: seq<Node>, params: set<nat>, i: nat, op: Op, range: Range,
                                       vals: seq<TVal>, k: nat, st: TState)
    requires UniqueResults(nodes) && ParamsOnly(nodes, params) && ReadLoops(nodes, params)
    requires op.ForOp? && Segment(nodes, i, OpNodes(op)) && Lowered(op) && i + |OpNodes(op)| <= |nodes|
    requires EnvCovered(nodes, params, i + 1, st.env) && CarriedCovered(nodes, i + |OpNodes(op)|, op, vals)
    requires ExecLoop(C, op, range, vals, k, st).Some?
    ensures CarriedCovered(nodes, i + |OpNodes(op)|, op, ExecLoop(C, op, range, vals, k, st).value.0)
    decreases op, 0, if range.end >= range.start then range.end - range.start else 0
  {
    hide EnvCovered, UniqueResults, ParamsOnly, ReadLoops, ReadsNone, Holds, ExecOps, OpNodes, OpsNodes, LoweredOps,
         Segment, Unread, SourceCovers, EvalVs;
    if range.start < range.end {
      LoopSegments(nodes, i, op);
      ReadLoop(nodes, params, i, op);
      var start := EnterBody(op, range.start, vals, k, st);
      EnterCovered(nodes, params, i + 1, op, range.start, vals, k, st);
      OpsCovered(C, nodes, params, i + 1, op.body.ops, start);
      var inner := ExecOps(C, op.body.ops, start).value;
      var e := i + 1 + |OpsNodes(op.body.ops)|;
      OperandsCarried(nodes, params, e, i + |OpNodes(op)|, op, inner.env, op.body.yielded, e);
      LoopCovered(C, nodes, params, i, op, range.(start := range.start + range.step),
                  EvalVs(op.body.yielded, inner.env).value, k + 1, inner.(env := st.env, turn := st.turn));
    }
  }

  /** A result is found from whatever its value is found from. */
  lemma {:induction false} LoopResultsCovered(nodes: seq<Node>, i: nat, e: nat, op: Op, vals: seq<TVal>)
    requires UniqueResults(nodes) && i < e <= |nodes| && nodes[i] == OpNode(op) && op.ForOp?
    requires CarriedCovered(nodes, e, op, vals) && |vals| == |op.results|
    ensures forall k :: 0 <= k < |op.results| ==>
      Covers(GraphAt(nodes, e), IsCreated(Creations(nodes)), TuplesOf(nodes), Res(op.results[k]), vals[k])
  {
    hide Covers, UniqueResults, Unread, Holds;
    var P, T, G := IsCreated(Creations(nodes)), TuplesOf(nodes), GraphAt(nodes, e);
    EdgesOf(nodes, i, e);
    forall k | 0 <= k < |op.results| ensures Covers(G, P, T, Res(op.results[k]), vals[k]) {
      var s :| s in ForSources(op.iters, op.body, k) && Covers(G, P, T, s, vals[k]);
      ResultKind(nodes, i, op.results[k]);
      CoversEdge(G, P, T, op.results[k], s, vals[k]);
    }
  }

  lemma {:induction false} ForCovered(C: Context, nodes: seq<Node>, params: set<nat>, i: nat, op: Op, st: TState)
    requires UniqueResults(nodes) && ParamsOnly(nodes, params) && ReadLoops(nodes, params)
    requires op.ForOp? && Segment(nodes, i, OpNodes(op)) && Lowered(op)
    requires EnvCovered(nodes, params, i, st.env) && Exec(C, op, st).Some?
    ensures i + |OpNodes(op)| <= |nodes| && EnvCovered(nodes, params, i + |OpNodes(op)|, Exec(C, op, st).value.env)
    decreases op, 0
  {
    hide EnvCovered, UniqueResults, ParamsOnly, ReadLoops, ReadsNone, Holds, ExecLoop, OpNodes, Covers, Lowered,
         Segment, EvalVs, LoopRange, CarriedCovered;
    LoopSegments(nodes, i, op);
    ReadLoop(nodes, params, i, op);
    var e := i + |OpNodes(op)|;
    var inits := EvalVs(Inits(op.iters), st.env).value;
    InitsAreRefs(nodes, i, op);
    OperandsCarried(nodes, params, i, e, op, st.env, Inits(op.iters), i);
    EnvCoveredLater(nodes, params, i, i + 1, st.env);
    LoopCovered(C, nodes, params, i, op, LoopRange(op.bounds, st.env).value, inits, 0, st);
    var vals := ExecLoop(C, op, LoopRange(op.bounds, st.env).value, inits, 0, st).value.0;
    EnvCoveredLater(nodes, params, i, e, st.env);
    if op.results != [] {
      ResultNotParam(nodes, params, i);
      LoopResultsCovered(nodes, i, e, op, vals);
      BindValsCovered(nodes, params, e, st.env, op.results, vals);
    }
  }

  lemma InitsAreRefs(nodes: seq<Node>, i: nat, op: Op)
    requires i < |nodes| && nodes[i] == OpNode(op) && op.ForOp?
    ensures forall v <- Inits(op.iters) :: v in Refs(nodes[i])
  {
  }

  lemma {:induction false} OpCovered(C: Context, nodes: seq<Node>, params: set<nat>, i: nat, op: Op, st: TState)
    requires UniqueResults(nodes) && ParamsOnly(nodes, params) && ReadLoops(nodes, params)
    requires Segment(nodes, i, OpNodes(op))
    requires Lowered(op) && EnvCovered(nodes, params, i, st.env) && Exec(C, op, st).Some?
    ensures i + |OpNodes(op)| <= |nodes| && EnvCovered(nodes, params, i + |OpNodes(op)|, Exec(C, op, st).value.env)
    decreases op, 1
  {
    hide EnvCovered, UniqueResults, ParamsOnly, ReadLoops, ExecRegion, ExecLoop;
    SegmentHead(nodes, i, OpNodes(op));
    if op.IfOp? {
      BranchSegments(nodes, i, op);
      var e := i + |OpNodes(op)|;
      if EvalV(op.cond, st.env).value.c.b {
        RegionCovered(C, nodes, params, i, i + 1, e, op, op.thn, st);
      } else if op.els.Some? {
        RegionCovered(C, nodes, params, i, i + 1 + |RegionNodes(op.thn)|, e, op, op.els.value, st);
      } else {
        EnvCoveredLater(nodes, params, i, e, st.env);
      }
    } else if op.ForOp? {
      ForCovered(C, nodes, params, i, op, st);
    } else {
      ResultCovered(C, nodes, params, i, op, st);
    }
  }

  /** Alias analysis is sound: after any run of code whose loops read no variable that carries a created tensor, every
      created tensor a value holds, however deep inside tuples, is among those the analysis resolves the value to. */
  lemma {:induction false} OpsCovered(C: Context, nodes: seq<Node>, params: set<nat>, i: nat, ops: seq<Op>, st: TState)
    requires UniqueResults(nodes) && ParamsOnly(nodes, params) && ReadLoops(nodes, params)
    requires Segment(nodes, i, OpsNodes(ops))
    requires LoweredOps(ops) && EnvCovered(nodes, params, i, st.env) && ExecOps(C, ops, st).Some?
    ensures i + |OpsNodes(ops)| <= |nodes|
    ensures EnvCovered(nodes, params, i + |OpsNodes(ops)|, ExecOps(C, ops, st).value.env)
    decreases ops, 0
  {
    hide EnvCovered, UniqueResults, ParamsOnly, ReadLoops, Exec, OpNodes, Lowered;
    if ops != [] {
      SegmentParts(nodes, i, OpNodes(ops[0]), OpsNodes(ops[1..]));
      OpCovered(C, nodes, params, i, ops[0], st);
      OpsCovered(C, nodes, params, i + |OpNodes(ops[0])|, ops[1..], Exec(C, ops[0], st).value);
    }
  }

  // ---------------------------------------------------------------- whole functions

  /** The names a function knows that are no results: its parameters and the variables of its loops. */
  function FuncVars(fn: Func): set<nat> {
    (set p <- fn.params) + set n <- FuncNodes(fn), id <- BoundAt(n) :: id
  }

  predicate WfFunc(fn: Func) {
    UniqueResults(FuncNodes(fn)) && ParamsOnly(FuncNodes(fn), FuncVars(fn)) && LoweredOps(fn.body)
  }

  /** No loop of the function carries a created tensor. */
  predicate NoneCarried(fn: Func) {
    forall n <- FuncNodes(fn) :: n.OpNode? && n.op.ForOp? ==> CarriesNone(FuncNodes(fn), n.op)
  }

  lemma LoopsArePlain(fn: Func)
    requires NoneCarried(fn)
    ensures PlainLoops(FuncNodes(fn), FuncVars(fn))
  {
    hide CarriesNone, FuncNodes;
    forall n | n in FuncNodes(fn) && n.OpNode? && n.op.ForOp?
      ensures n.op.loopVar in FuncVars(fn) && forall id <- Vars(n.op.iters) :: id in FuncVars(fn)
    {
      assert BoundAt(n) <= FuncVars(fn);
    }
  }

  /** No loop of the function reads a variable that carries a created tensor. */
  predicate CarriedUnread(fn: Func) {
    forall n <- FuncNodes(fn) :: n.OpNode? && n.op.ForOp? ==> ReadsNone(FuncNodes(fn), n.op)
  }

  lemma LoopsAreRead(fn: Func)
    requires CarriedUnread(fn)
    ensures ReadLoops(FuncNodes(fn), FuncVars(fn))
  {
    hide ReadsNone, FuncNodes;
    forall n | n in FuncNodes(fn) && n.OpNode? && n.op.ForOp?
      ensures n.op.loopVar in FuncVars(fn) && forall id <- Vars(n.op.iters) :: id in FuncVars(fn)
    {
      assert BoundAt(n) <= FuncVars(fn);
    }
  }

  /** On every run of a function whose loops read no variable that carries a created tensor, a tensor that an operand
      of the return holds is one that `resolve_matching` returns for it. */
  lemma {:induction false} ReturnedIsResolved(C: Context, fn: Func, st: TState, v: Value, t: TensorRef)
    requires WfFunc(fn) && CarriedUnread(fn)
    requires st.env.Keys <= (set p <- fn.params) && (forall id <- st.env :: !Holds(st.env[id]))
    requires ExecOps(C, fn.body, st).Some? && v in fn.ret && EvalV(v, ExecOps(C, fn.body, st).value.env).Some?
    requires t in Tensors(EvalV(v, ExecOps(C, fn.body, st).value.env).value) && t.store.Own?
    ensures var nodes := FuncNodes(fn);
      Res(t.store.res) in Resolve(Edges(nodes, TuplesOf(nodes)), IsCreated(Creations(nodes)), v, {})
  {
    hide EnvCovered, ExecOps, UniqueResults, ParamsOnly, LoweredOps, ReadLoops, CarriedUnread, Edges, Resolve,
         IsCreated, Reaches, TuplesOf, Creations, OpsNodes, Unread;
    var nodes, params := FuncNodes(fn), FuncVars(fn);
    LoopsAreRead(fn);
    var n := |OpsNodes(fn.body)|;
    assert nodes[0..n] == OpsNodes(fn.body);
    assert nodes[..0] == [] && nodes[..|nodes|] == nodes;
    StartCovered(nodes, params, st.env);
    OpsCovered(C, nodes, params, 0, fn.body, st);
    var E := ExecOps(C, fn.body, st).value.env;
    EnvCoveredLater(nodes, params, n, |nodes|, E);
    assert nodes[n] == ReturnNode(fn.ret);
    OperandOf(nodes, params, n, v);
    OperandCovered(nodes, params, |nodes|, E, v);
    ResolveIsReachability(Edges(nodes, TuplesOf(nodes)), IsCreated(Creations(nodes)), v, Res(t.store.res));
  }

  lemma StartCovered(nodes: seq<Node>, params: set<nat>, E: TEnv)
    requires E.Keys <= params && forall id <- E :: !Holds(E[id])
    ensures EnvCovered(nodes, params, 0, E)
  {
  }
}

/** The planning pass: creations, lifetimes, sizes, then the greedy plan
    (python/devproc2/compiler/passes/memory_planning.py). */
module MemoryPlanning {
  import opened Bytecode
  import opened TensorIR
  import opened AliasAnalysis
  import opened ShapeBounds
  import opened Lifetimes
  import opened StoragePlan

  /** Bytes per element. */
  function ItemSize(spec: Spec): int {
    spec.dtype.bits / 8
  }

  /** The final forwarding graph of a function. */
  function GraphOf(fn: Func): Graph {
    var nodes := FuncNodes(fn);
    Edges(nodes, TuplesOf(nodes))
  }

  /** The tensor reaches a return, through tuples and conditionals as well. */
  ghost predicate Escapes(G: Graph, cs: seq<Creation>, nodes: seq<Node>, res: nat) {
    exists n :: n in nodes && n.ReturnNode? && Refers(G, IsCreated(cs), n, res)
  }

  /** A tensor with its exact lifetime. */
  ghost function TensorOf(G: Graph, cs: seq<Creation>, nodes: seq<Node>, c: Creation): Tensor {
    Describes(c, LastRef(G, IsCreated(cs), nodes, c.res, c.index, |nodes|), Escapes(G, cs, nodes, c.res))
  }

  ghost function TensorsOf(fn: Func): (ts: seq<Tensor>)
    ensures |ts| == |Creations(FuncNodes(fn))|
  {
    var nodes := FuncNodes(fn);
    var cs := Creations(nodes);
    seq(|cs|, k requires 0 <= k < |cs| => TensorOf(GraphOf(fn), cs, nodes, cs[k]))
  }

  /** A shape with a comparison in it has no size at all. */
  predicate Sizeable(cs: seq<Creation>) {
    forall c <- cs :: !ProductUpper(c.spec.shape).Unsupported?
  }

  predicate UniqueCreationNames(cs: seq<Creation>) {
    forall j, k :: 0 <= j < k < |cs| ==> cs[j].name != cs[k].name
  }

  predicate UniqueCreationResults(cs: seq<Creation>) {
    forall j, k :: 0 <= j < k < |cs| ==> cs[j].res != cs[k].res
  }

  method CheckUniqueNames(cs: seq<Creation>) returns (ok: bool)
    ensures ok <==> UniqueCreationNames(cs)
  {
    var seen: set<string> := {};
    for k := 0 to |cs|
      invariant seen == (set c <- cs[..k] :: c.name)
      invariant forall i, j :: 0 <= i < j < k ==> cs[i].name != cs[j].name
    {
      assert cs[..k + 1] == cs[..k] + [cs[k]];
      if cs[k].name in seen {
        var c :| c in cs[..k] && c.name == cs[k].name;
        return false;
      }
      seen := seen + {cs[k].name};
    }
    return true;
  }

  /** Creations that flow into a return. */
  method CollectReturned(nodes: seq<Node>, cs: seq<Creation>, aliases: Analysis) returns (returned: set<nat>)
    requires aliases.visiting == {}
    modifies aliases`visiting
    ensures aliases.visiting == {}
    ensures forall c <- cs :: c.res in returned <==> Escapes(aliases.forwardEdges, cs, nodes, c.res)
  {
    returned := {};
    ghost var G, P := aliases.forwardEdges, IsCreated(cs);
    for i := 0 to |nodes|
      modifies aliases`visiting
      invariant aliases.visiting == {}
      invariant forall c <- cs :: c.res in returned <==> Escapes(G, cs, nodes[..i], c.res)
    {
      ghost var before := returned;
      assert nodes[..i + 1] == nodes[..i] + [nodes[i]];
      if nodes[i].ReturnNode? {
        var values := nodes[i].values;
        for k := 0 to |values|
          modifies aliases`visiting
          invariant aliases.visiting == {}
          invariant forall c <- cs :: c.res in returned <==> c.res in before || Met(values, k, G, P, c.res)
        {
          var found := aliases.ResolveMatching(values[k], IsCreated(cs));
          forall w ensures w in found <==> Reaches(G, P, values[k], w) { ResolveIsReachability(G, P, values[k], w); }
          returned := returned + set v <- found | v.Res? :: v.id;
          forall c | c in cs ensures Met(values, k + 1, G, P, c.res) <==>
            Met(values, k, G, P, c.res) || c.res in (set v <- found | v.Res? :: v.id) {
            MetNext(values, k, G, P, c.res, found);
          }
        }
        forall c | c in cs ensures Met(values, |values|, G, P, c.res) <==> Refers(G, P, nodes[i], c.res) {
          MetAll(nodes[i], G, P, c.res);
        }
      }
      forall c | c in cs ensures Escapes(G, cs, nodes[..i + 1], c.res) <==>
        Escapes(G, cs, nodes[..i], c.res) || (nodes[i].ReturnNode? && Refers(G, P, nodes[i], c.res))
      {
        EscapesSnoc(G, cs, nodes[..i], nodes[i], c.res);
      }
    }
    assert nodes[..|nodes|] == nodes;
  }

  lemma EscapesSnoc(G: Graph, cs: seq<Creation>, nodes: seq<Node>, n: Node, res: nat)
    ensures Escapes(G, cs, nodes + [n], res) <==>
      Escapes(G, cs, nodes, res) || (n.ReturnNode? && Refers(G, IsCreated(cs), n, res))
  {
    if Escapes(G, cs, nodes, res) {
      var m :| m in nodes && m.ReturnNode? && Refers(G, IsCreated(cs), m, res);
      assert m in nodes + [n];
    }
    if n.ReturnNode? && Refers(G, IsCreated(cs), n, res) { assert n in nodes + [n]; }
  }

  /** Size, lifetime and reusability of one creation. */
  function Describes(c: Creation, last: int, returned: bool): Tensor {
    Tensor(c.name, c.spec.device, SizeBytes(c.spec.shape, ItemSize(c.spec)),
           PlannedSize(c.spec.shape, ItemSize(c.spec)),
           Interval(c.index, last), !returned)
  }

  /** One record per creation. */
  method Describe(cs: seq<Creation>, uses: map<string, int>, returned: set<nat>) returns (ts: seq<Tensor>)
    requires forall c <- cs :: c.name in uses
    ensures |ts| == |cs|
    ensures forall k :: 0 <= k < |cs| ==> ts[k] == Describes(cs[k], uses[cs[k].name], cs[k].res in returned)
  {
    ts := [];
    for k := 0 to |cs|
      invariant |ts| == k
      invariant forall j :: 0 <= j < k ==> ts[j] == Describes(cs[j], uses[cs[j].name], cs[j].res in returned)
    {
      var c := cs[k];
      assert c in cs;
      var size := SizeBytes(c.spec.shape, ItemSize(c.spec));
      var sizeExpr := PlannedSize(c.spec.shape, ItemSize(c.spec));
      ts := ts + [Tensor(c.name, c.spec.device, size, sizeExpr, Interval(c.index, uses[c.name]), c.res !in returned)];
    }
  }

  method CheckSizes(cs: seq<Creation>) returns (ok: bool)
    ensures ok <==> Sizeable(cs)
  {
    for k := 0 to |cs|
      invariant forall j :: 0 <= j < k ==> !ProductUpper(cs[j].spec.shape).Unsupported?
    {
      if ProductUpper(cs[k].spec.shape).Unsupported? {
        assert cs[k] in cs;
        return false;
      }
    }
    return true;
  }

  /** Lifetimes and sizes of all creations. */
  method AnalyseTensors(ghost fn: Func, nodes: seq<Node>, cs: seq<Creation>) returns (tensors: seq<Tensor>)
    requires nodes == FuncNodes(fn) && cs == Creations(nodes) && Unambiguous(cs)
    ensures tensors == TensorsOf(fn)
  {
    hide LastRef, Describes, Escapes, Creations, TuplesOf, Edges, LastUses;
    var aliases := new Analysis(nodes);
    ghost var G := aliases.forwardEdges;
    var returned := CollectReturned(nodes, cs, aliases);
    var uses := ExplicitLastUses(nodes, cs, aliases);
    var table := LastUsesWithEffects(nodes, cs, aliases, uses);
    LastUsesNames(table, cs, G, nodes);
    tensors := Describe(cs, table, returned);
    DescribedAre(fn, G, nodes, cs, table, returned, tensors);
  }

  lemma LastUsesNames(table: map<string, int>, cs: seq<Creation>, G: Graph, nodes: seq<Node>)
    requires LastUses(table, cs, G, nodes, |nodes|)
    ensures forall c <- cs :: c.name in table
    ensures forall k :: 0 <= k < |cs| ==> cs[k].name in table
  {
    forall k | 0 <= k < |cs| ensures cs[k].name in table { assert cs[k] in cs; }
  }

  /** The plan of one function; none when two creations share a name or a shape has no size. */
  method PlanFunction(fn: Func) returns (plan: Option<Plan>)
    requires UniqueCreationResults(Creations(FuncNodes(fn)))
    ensures plan.Some? <==> UniqueCreationNames(Creations(FuncNodes(fn))) && Sizeable(Creations(FuncNodes(fn)))
    ensures plan.Some? ==> plan.value == Greedy(TensorsOf(fn))
  {
    hide Creations, Greedy, Sort, TensorsOf, Sizeable;
    var nodes := CollectOps(fn);
    var cs := Creations(nodes);
    var ok := CheckUniqueNames(cs);
    if !ok { return None; }
    var tensors := AnalyseTensors(fn, nodes, cs);
    ok := CheckSizes(cs);
    if !ok { return None; }
    TensorsAreSorted(fn);
    SortSorted(tensors);
    var p := GreedyPlan(tensors);
    return Some(p);
  }

  lemma {:induction false} DescribedAre(fn: Func, G: Graph, nodes: seq<Node>, cs: seq<Creation>, uses: map<string, int>,
                                        returned: set<nat>, ts: seq<Tensor>)
    requires nodes == FuncNodes(fn) && cs == Creations(nodes) && G == GraphOf(fn)
    requires LastUses(uses, cs, G, nodes, |nodes|)
    requires forall c <- cs :: c.res in returned <==> Escapes(G, cs, nodes, c.res)
    requires |ts| == |cs|
    requires forall k :: 0 <= k < |cs| ==>
      cs[k].name in uses && ts[k] == Describes(cs[k], uses[cs[k].name], cs[k].res in returned)
    ensures ts == TensorsOf(fn)
  {
    hide Creations, Edges, LastRef, Describes;
    forall k | 0 <= k < |cs| ensures ts[k] == TensorsOf(fn)[k] { assert cs[k] in cs; }
  }

  /** Every op of the function, nested ones included, in linear order. */
  method CollectOps(fn: Func) returns (nodes: seq<Node>)
    ensures nodes == FuncNodes(fn)
  {
    nodes := IterOps(Region(fn.body, fn.ret));
    nodes := nodes[..|nodes| - 1] + [ReturnNode(fn.ret)];
  }

  lemma TensorsAreSorted(fn: Func)
    ensures Sorted(TensorsOf(fn))
    ensures UniqueCreationNames(Creations(FuncNodes(fn))) ==> DistinctTensors(TensorsOf(fn))
  {
    hide Creations, FuncNodes, Edges, TuplesOf, LastRef, Escapes, SizeBytes, PlannedSize;
  }

  // ---------------------------------------------------------------- what the plan guarantees

  /** The lifetime of a tensor covers its creation and every op that refers to it, and ends at one of them. */
  lemma LifetimeIsExact(fn: Func, k: nat)
    requires k < |Creations(FuncNodes(fn))|
    ensures var nodes := FuncNodes(fn); var cs := Creations(nodes); var t := TensorsOf(fn)[k]; var P := IsCreated(cs);
      t.interval.first == cs[k].index <= t.interval.last < |nodes| &&
      (t.interval.last == cs[k].index || Refers(GraphOf(fn), P, nodes[t.interval.last], cs[k].res)) &&
      forall i :: 0 <= i < |nodes| && Refers(GraphOf(fn), P, nodes[i], cs[k].res) ==> i <= t.interval.last
  {
    var nodes := FuncNodes(fn);
    var cs := Creations(nodes);
    assert cs[k] in cs;
    LastRefIsLast(GraphOf(fn), IsCreated(cs), nodes, cs[k].res, cs[k].index, |nodes|);
  }

  lemma {:induction false} OnlyTheLastReturns(ops: seq<Op>)
    ensures forall n <- OpsNodes(ops) :: !n.ReturnNode?
    decreases ops, 0
  {
    if ops != [] {
      OpHasNoReturn(ops[0]);
      OnlyTheLastReturns(ops[1..]);
    }
  }

  lemma {:induction false} OpHasNoReturn(op: Op)
    ensures forall n <- OpNodes(op) :: !n.ReturnNode?
    decreases op, 1
  {
    match op
    case IfOp(_, _, thn, els) =>
      OnlyTheLastReturns(thn.ops);
      if els.Some? { OnlyTheLastReturns(els.value.ops); }
    case ForOp(_, _, _, _, body) => OnlyTheLastReturns(body.ops);
    case _ =>
  }

  /** A returned tensor lives to the final return. */
  lemma ReturnedLivesToTheEnd(fn: Func, k: nat)
    requires k < |Creations(FuncNodes(fn))| && !TensorsOf(fn)[k].reusable
    ensures TensorsOf(fn)[k].interval.last == |FuncNodes(fn)| - 1
  {
    var nodes := FuncNodes(fn);
    var cs := Creations(nodes);
    var n :| n in nodes && n.ReturnNode? && Refers(GraphOf(fn), IsCreated(cs), n, cs[k].res);
    OnlyTheLastReturns(fn.body);
    assert nodes[|nodes| - 1] == n;
    LifetimeIsExact(fn, k);
  }

  /** No other tensor ever shares the storage of a returned one. */
  lemma ReturnedStorageIsPrivate(fn: Func, j: nat, k: nat)
    requires UniqueCreationNames(Creations(FuncNodes(fn))) && j < |TensorsOf(fn)| && k < |TensorsOf(fn)| && j != k
    requires !TensorsOf(fn)[j].reusable
    ensures var p := Greedy(TensorsOf(fn)); var a, b := TensorsOf(fn)[j], TensorsOf(fn)[k];
      a.name in p.slot && b.name in p.slot && p.slot[a.name] != p.slot[b.name]
  {
    var ts := TensorsOf(fn);
    TensorsAreSorted(fn);
    ReturnedLivesToTheEnd(fn, j);
    forall t | t in ts ensures t.interval.first <= t.interval.last && t.interval.first <= ts[j].interval.last {
      var i :| 0 <= i < |ts| && ts[i] == t;
      LifetimeIsExact(fn, i);
    }
    if j < k { assert ts[j].name != ts[k].name; } else { assert ts[k].name != ts[j].name; }
    ReturnedIsUnshared(ts, ts[j], ts[k]);
  }
}

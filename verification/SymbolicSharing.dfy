/** When storages of symbolic size can be shared (python/devproc2/compiler/passes/memory_planning.py,
    python/devproc2/ir/prim_expr.py): the planner compares sizes by the names of their variables. */
module SymbolicSharing {
  import opened Bytecode
  import opened Runtime
  import opened PrimExprs
  import opened IRValues
  import opened TensorIR
  import opened AliasAnalysis
  import opened TensorSemantics
  import opened ShapeBounds
  import opened Lifetimes
  import opened StoragePlan
  import opened MemoryPlanning
  import opened AliasSound
  import opened StorageSharing
  import opened PlannedProgram

  // ---------------------------------------------------------------- a function that reuses a storage

  const U8 := DType(1, 8, 1)

  function Matrix(z: PrimExpr, x: PrimExpr): Spec {
    Spec([z, x], U8, "cpu")
  }

  /** A tensor that is dead at once; a second one that can take its storage; a view of the second. */
  function Reuses(z: PrimExpr, x: PrimExpr, y: PrimExpr): Func {
    Func([], [CreateOp(0, "a", Empty, Matrix(z, x), None), CreateOp(1, "b", Empty, Matrix(z, y), None),
              ViewOp(2, Res(1), Imm(Int(0)), [z, y], 1, 0)], [])
  }

  /** A variable that holds n. */
  predicate Dim(E: Env, x: PrimExpr, n: int) {
    x.PrimVar? && x.id in E && E[x.id] == VInt(n) && n > 0
  }

  lemma {:induction false} Evaluates(C: Context, z: PrimExpr, x: PrimExpr, m: int, n: int)
    requires Dim(C.dims, z, m) && Dim(C.dims, x, n)
    ensures EvalPrim(C.host, Bin(Mul, x, Bin(Mul, z, IntImm(1))), C.dims) == Some(VInt(n * m))
    ensures EvalShape(C.host, [z, x], C.dims) == Some([m, n])
  {
    var part := Bin(Mul, z, IntImm(1));
    assert EvalPrim(C.host, part, C.dims) == Some(VInt(m * 1)) by { ShapeBounds.EvalOp(C.host, part, C.dims, m, 1); }
    ShapeBounds.EvalOp(C.host, Bin(Mul, x, part), C.dims, n, m);
    assert [x][1..] == [] && [z, x][1..] == [x];
    assert EvalShape(C.host, [], C.dims) == Some([]);
    EvalShapeCons(C.host, [x], C.dims);
    EvalShapeCons(C.host, [z, x], C.dims);
    assert [n] + [] == [n] && [m] + [n] == [m, n];
  }

  lemma MatrixBytes(m: int, n: int)
    requires n * m >= 0
    ensures PayloadBytes([m, n], U8) == n * m
  {
    assert [m, n][1..] == [n] && [n][1..] == [];
    assert Product([n]) == n * Product([]) == n;
    assert Product([m, n]) == m * n == n * m;
    assert (n * m * 8 * 1 + 7) / 8 == n * m;
  }

  lemma MatrixPlan(z: PrimExpr, x: PrimExpr)
    requires z.PrimVar? && z.upper.None?
    ensures SizeBytes([z, x], 1).None? && PlannedSize([z, x], 1) == Bin(Mul, x, Bin(Mul, z, IntImm(1)))
  {
    assert [z, x][1] == x && [z, x][..1] == [z] && [z][0] == z && [z][..0] == [];
    assert SizeExpr([z], 1) == Bin(Mul, z, SizeExpr([], 1));
    assert [z, x][0] == z;
  }

  lemma MatrixSize(C: Context, z: PrimExpr, x: PrimExpr, m: int, n: int)
    requires Dim(C.dims, z, m) && Dim(C.dims, x, n) && z.upper.None?
    ensures EvalSize(C, PlannedSize([z, x], 1)) == Some(n * m) && OwnSize(C, Matrix(z, x)) == Some(n * m)
    ensures EvalShape(C.host, [z, x], C.dims) == Some([m, n]) && PayloadBytes([m, n], U8) == n * m > 0
  {
    hide EvalPrim, EvalShape, PlannedSize, PayloadBytes;
    MatrixPlan(z, x);
    Evaluates(C, z, x, m, n);
    assert n * m > 0;
    MatrixBytes(m, n);
  }

  // ---------------------------------------------------------------- its plan

  lemma {:induction false} NodesCons(op: Op, rest: seq<Op>)
    requires !op.IfOp? && !op.ForOp?
    ensures OpsNodes([op] + rest) == [OpNode(op)] + OpsNodes(rest)
  {
    assert ([op] + rest)[1..] == rest;
  }

  lemma NodesOf(z: PrimExpr, x: PrimExpr, y: PrimExpr)
    ensures var b := Reuses(z, x, y).body;
      FuncNodes(Reuses(z, x, y)) == [OpNode(b[0]), OpNode(b[1]), OpNode(b[2]), ReturnNode([])]
  {
    hide OpNodes, OpsNodes;
    var b := Reuses(z, x, y).body;
    NodesCons(b[2], []);
    NodesCons(b[1], [b[2]]);
    NodesCons(b[0], [b[1], b[2]]);
    assert [b[2]] + [] == [b[2]] && [b[1]] + [b[2]] == [b[1], b[2]] && [b[0]] + [b[1], b[2]] == b;
    assert OpsNodes([]) == [] by { NoNodes(); }
  }

  lemma NoNodes()
    ensures OpsNodes([]) == []
  {
  }

  /** What one more node adds to the creations. */
  function Picked(n: Node, i: nat): seq<Creation> {
    if n.OpNode? && n.op.CreateOp? then [Creation(n.op.res, n.op.name, n.op.spec, i)] else []
  }

  lemma {:induction false} CreationsSnoc(ns: seq<Node>, n: Node)
    ensures Creations(ns + [n]) == Creations(ns) + Picked(n, |ns|)
  {
    assert (ns + [n])[..|ns + [n]| - 1] == ns;
  }

  lemma FourNodes(n0: Node, n1: Node, n2: Node, n3: Node)
    ensures Creations([n0, n1, n2, n3]) == [] + Picked(n0, 0) + Picked(n1, 1) + Picked(n2, 2) + Picked(n3, 3)
  {
    hide Creations, Picked;
    NoCreations();
    CreationsSnoc([], n0);
    CreationsSnoc([n0], n1);
    CreationsSnoc([n0, n1], n2);
    CreationsSnoc([n0, n1, n2], n3);
    assert [] + [n0] == [n0] && [n0] + [n1] == [n0, n1] && [n0, n1] + [n2] == [n0, n1, n2];
    assert [n0, n1, n2] + [n3] == [n0, n1, n2, n3];
  }

  lemma CreationsOf(z: PrimExpr, x: PrimExpr, y: PrimExpr)
    ensures Creations(FuncNodes(Reuses(z, x, y))) ==
      [Creation(0, "a", Matrix(z, x), 0), Creation(1, "b", Matrix(z, y), 1)]
  {
    hide Creations, FuncNodes;
    NodesOf(z, x, y);
    var b := Reuses(z, x, y).body;
    FourNodes(OpNode(b[0]), OpNode(b[1]), OpNode(b[2]), ReturnNode([]));
  }

  lemma NoCreations()
    ensures Creations([]) == []
  {
  }

  lemma WithoutRefs(G: Graph, P: Matcher, n: Node, res: nat)
    requires Refs(n) == []
    ensures !Refers(G, P, n, res)
  {
  }

  lemma ViewRefersToItsBase(G: Graph, P: Matcher, n: Node, base: Value, other: Value, res: nat)
    requires Refs(n) == [base, other, base] && P(base) && !other.Res? && base != Res(res)
    ensures !Refers(G, P, n, res)
  {
    hide Reaches;
    OnlyItself(G, P, base, Res(res));
    OnlyItself(G, P, other, Res(res));
  }

  lemma SecondIsCreated(z: PrimExpr, x: PrimExpr, y: PrimExpr)
    ensures IsCreated(Creations(FuncNodes(Reuses(z, x, y))))(Res(1))
  {
    hide Creations, FuncNodes;
    CreationsOf(z, x, y);
    var cs := Creations(FuncNodes(Reuses(z, x, y)));
    assert cs[1] in cs && cs[1].res == 1;
  }

  /** Nothing refers to the first tensor, and nothing is returned. */
  lemma FirstIsUnused(z: PrimExpr, x: PrimExpr, y: PrimExpr, G: Graph, i: nat)
    requires i < 4
    ensures var fn := Reuses(z, x, y);
      |FuncNodes(fn)| == 4 && !Refers(G, IsCreated(Creations(FuncNodes(fn))), FuncNodes(fn)[i], 0)
  {
    hide Creations, FuncNodes, Refers, IsCreated;
    NodesOf(z, x, y);
    var P, n := IsCreated(Creations(FuncNodes(Reuses(z, x, y)))), FuncNodes(Reuses(z, x, y))[i];
    if i == 2 {
      SecondIsCreated(z, x, y);
      assert Refs(n) == [Res(1), Imm(Int(0)), Res(1)];
      ViewRefersToItsBase(G, P, n, Res(1), Imm(Int(0)), 0);
    } else {
      WithoutRefs(G, P, n, 0);
    }
  }

  lemma NothingEscapes(z: PrimExpr, x: PrimExpr, y: PrimExpr, G: Graph, cs: seq<Creation>, res: nat)
    ensures !Escapes(G, cs, FuncNodes(Reuses(z, x, y)), res)
  {
    hide FuncNodes;
    NodesOf(z, x, y);
  }

  lemma IntervalsAre(z: PrimExpr, x: PrimExpr, y: PrimExpr)
    ensures |TensorsOf(Reuses(z, x, y))| == 2
    ensures var ts := TensorsOf(Reuses(z, x, y));
      (ts[0].interval == Interval(0, 0) && ts[1].interval.first == 1 && ts[1].reusable)
  {
    hide Creations, FuncNodes, LastRef, Edges, PlannedSize, SizeBytes, Refers, Escapes;
    var fn := Reuses(z, x, y);
    CreationsOf(z, x, y);
    LifetimeIsExact(fn, 0);
    LifetimeIsExact(fn, 1);
    FirstIsUnused(z, x, y, GraphOf(fn), 0);
    FirstIsUnused(z, x, y, GraphOf(fn), TensorsOf(fn)[0].interval.last);
    NothingEscapes(z, x, y, GraphOf(fn), Creations(FuncNodes(fn)), 1);
  }

  lemma TensorIs(z: PrimExpr, x: PrimExpr, y: PrimExpr, k: nat)
    requires z.PrimVar? && z.upper.None? && k < 2
    ensures |TensorsOf(Reuses(z, x, y))| == 2
    ensures var t, last := TensorsOf(Reuses(z, x, y))[k], if k == 0 then x else y;
      (t.name == (if k == 0 then "a" else "b") && t.device == "cpu" && t.size.None? &&
       t.sizeExpr == PlannedSize([z, last], 1))
  {
    hide Creations, FuncNodes, LastRef, Edges, PlannedSize, SizeBytes, Escapes;
    CreationsOf(z, x, y);
    MatrixPlan(z, x);
    MatrixPlan(z, y);
    TensorFields(Reuses(z, x, y), k);
  }

  /** What matches, or is no result, leads to nothing else. */
  lemma OnlyItself(G: Graph, P: Matcher, v: Value, w: Value)
    requires (P(v) || !v.Res?) && v != w
    ensures !Reaches(G, P, v, w)
  {
    ResolveIsReachability(G, P, v, w);
  }

  lemma {:induction false} SizesLookAlike(z: PrimExpr, x: PrimExpr, y: PrimExpr)
    requires SameExpr(x, y)
    ensures SameExpr(Bin(Mul, x, Bin(Mul, z, IntImm(1))), Bin(Mul, y, Bin(Mul, z, IntImm(1))))
  {
    SameExprSelf(Bin(Mul, z, IntImm(1)));
  }

  /** Both tensors get the one storage, which has the size of the first. */
  lemma {:induction false} PlanIs(z: PrimExpr, x: PrimExpr, y: PrimExpr)
    requires z.PrimVar? && z.upper.None? && SameExpr(x, y)
    ensures PlanOf(Reuses(z, x, y)).slot == map["a" := 0, "b" := 0] && |PlanOf(Reuses(z, x, y)).entries| == 1
    ensures PlanOf(Reuses(z, x, y)).entries[0].sizeExpr == PlannedSize([z, x], 1)
    ensures PlanOf(Reuses(z, x, y)).entries[0].device == "cpu"
  {
    hide PlannedSize, SizeBytes, TensorsOf, Greedy;
    IntervalsAre(z, x, y);
    TensorIs(z, x, y, 0);
    TensorIs(z, x, y, 1);
    var ts := TensorsOf(Reuses(z, x, y));
    MatrixPlan(z, x);
    MatrixPlan(z, y);
    SizesLookAlike(z, x, y);
    assert ts == [ts[0], ts[1]];
    TwoTensors(ts[0], ts[1]);
  }

  lemma TwoTensors(a: Tensor, b: Tensor)
    requires b.reusable && Fits(NewEntry(0, a), b) && a.device == b.device && !Overlap(b.interval, a.interval)
    requires a.name != b.name
    ensures Greedy([a, b]) == Plan([Join(NewEntry(0, a), b)], map[a.name := 0, b.name := 0])
  {
    hide Fits, Overlap;
    assert [a, b][..1] == [a] && [a][..0] == [];
    assert Greedy([a]) == Assign(NOTHING, a) == Plan([NewEntry(0, a)], map[a.name := 0]);
    assert Accepts(NewEntry(0, a), b);
    assert FirstFit([NewEntry(0, a)], b, 0) == 0;
  }

  // ---------------------------------------------------------------- its two runs

  lemma ResultsAreUnique(b: seq<Op>)
    requires |b| == 3 && Results(b[0]) == [0] && Results(b[1]) == [1] && Results(b[2]) == [2]
    ensures var nodes := [OpNode(b[0]), OpNode(b[1]), OpNode(b[2]), ReturnNode([])];
      UniqueResults(nodes) && forall n <- nodes, id <- ResultsAt(n) :: id < 3
  {
    hide Results;
  }

  /** A function with neither parameters nor loops. */
  lemma NoVariables(fn: Func)
    requires fn.params == [] && forall n <- FuncNodes(fn) :: !(n.OpNode? && n.op.ForOp?)
    ensures FuncVars(fn) == {} && SafeLoops(fn)
  {
    hide FuncNodes, SafeLoops;
    NoLoopsAreSafe(fn);
  }

  lemma NoParams(b: seq<Op>)
    requires |b| == 3 && forall k :: 0 <= k < 3 ==> VarsAre(Refs(OpNode(b[k])), {})
    ensures ParamsOnly([OpNode(b[0]), OpNode(b[1]), OpNode(b[2]), ReturnNode([])], {})
  {
    hide VarsAre;
    assert VarsAre(Refs(ReturnNode([])), {}) by { NoVars(); }
  }

  lemma NoVars()
    ensures VarsAre([], {})
  {
  }

  /** The planning pass takes the function. */
  lemma IsPlannable(z: PrimExpr, x: PrimExpr, y: PrimExpr)
    ensures SafeLoops(Reuses(z, x, y))
    ensures Plannable(Reuses(z, x, y)) && UninitialisedOps(Reuses(z, x, y).body) && FreshIds(Reuses(z, x, y), 3)
  {
    hide Creations, FuncNodes, UniqueResults, ParamsOnly, SafeLoops, FuncVars;
    var fn := Reuses(z, x, y);
    NodesOf(z, x, y);
    CreationsOf(z, x, y);
    NoVariables(fn);
    var b := fn.body;
    ResultsAreUnique(b);
    NoParams(b);
    SimpleOps(b[2..]);
    SimpleOps(b[1..]);
    SimpleOps(b);
  }

  lemma {:induction false} SimpleOps(ops: seq<Op>)
    requires ops != [] && (ops[0].ViewOp? || (ops[0].CreateOp? && ops[0].kind == Empty))
    requires LoweredOps(ops[1..]) && UninitialisedOps(ops[1..])
    ensures LoweredOps(ops) && UninitialisedOps(ops)
  {
  }

  lemma {:induction false} VarsAreBoth(z: PrimExpr, x: PrimExpr)
    requires z.PrimVar? && x.PrimVar?
    ensures VarsOf(Bin(Mul, x, Bin(Mul, z, IntImm(1)))) == {z, x}
  {
    assert VarsOf(Bin(Mul, z, IntImm(1))) == {z};
  }

  lemma {:induction false} SizesAreKnown(C: Context, z: PrimExpr, x: PrimExpr, y: PrimExpr, k: int, m: int, n: int)
    requires Dim(C.dims, z, k) && Dim(C.dims, x, m) && Dim(C.dims, y, n) && z.upper.None? && SameExpr(x, y)
    ensures SizesEvaluate(C, Reuses(z, x, y)) && SizeVars(Reuses(z, x, y)) == {z, x, y}
    ensures RoomOf(C, Reuses(z, x, y), 0) == m * k
  {
    hide Creations, FuncNodes, PlannedSize, PlanOf, EvalSize, OwnSize;
    CreationsOf(z, x, y);
    PlanIs(z, x, y);
    MatrixSize(C, z, x, k, m);
    MatrixSize(C, z, y, k, n);
    MatrixPlan(z, x);
    MatrixPlan(z, y);
    var cs := Creations(FuncNodes(Reuses(z, x, y)));
    assert cs[0] in cs && cs[1] in cs;
    VarsAreBoth(z, x);
    VarsAreBoth(z, y);
    assert ItemSize(Matrix(z, x)) == 1 && ItemSize(Matrix(z, y)) == 1;
  }

  /** A run in which each tensor has a storage of its own goes through. */
  lemma {:induction false} RunsAlone(C: Context, z: PrimExpr, x: PrimExpr, y: PrimExpr, k: int, m: int, n: int,
                                     st: TState)
    requires Dim(C.dims, z, k) && Dim(C.dims, x, m) && Dim(C.dims, y, n) && z.upper.None?
    ensures ExecOps(C, Reuses(z, x, y).body, st).Some?
  {
    hide EvalShape, OwnSize, PayloadBytes;
    MatrixSize(C, z, x, k, m);
    MatrixSize(C, z, y, k, n);
    var b := Reuses(z, x, y).body;
    assert b[1..][0] == b[1] && b[1..][1..] == b[2..] && b[2..][0] == b[2] && b[2..][1..] == [];
    var s1 := Exec(C, b[0], st).value;
    var s2 := Exec(C, b[1], s1).value;
    ViewRuns(C, b[2], s2, TensorRef(Own(1, s1.turn), n * k, 0, [k, n], U8), [k, n]);
    assert ExecOps(C, b[2..], s2).Some? <==> Exec(C, b[2], s2).Some?;
    assert ExecOps(C, b[1..], s1) == ExecOps(C, b[2..], s2);
  }

  /** A view of a whole tensor at the start of its storage needs the storage to have room for it. */
  lemma {:induction false} ViewRuns(C: Context, op: Op, st: TState, t: TensorRef, dims: seq<int>)
    requires op.ViewOp? && op == ViewOp(2, Res(1), Imm(Int(0)), op.shape, 1, 0) && 1 in st.env
    requires st.env[1] == TTensor(t)
    requires EvalShape(C.host, op.shape, C.dims) == Some(dims) && t.offset == 0 && t.nbytes > 0
    ensures Exec(C, op, st).Some? <==> PayloadBytes(dims, t.dtype) <= t.nbytes
  {
    hide EvalShape, PayloadBytes;
  }

  /** The lowered function: the storage, and both tensors in it. */
  lemma {:induction false} LoweredIs(z: PrimExpr, x: PrimExpr, y: PrimExpr)
    requires z.PrimVar? && z.upper.None? && SameExpr(x, y)
    ensures LoweredBody(Reuses(z, x, y), 3) ==
      [StorageOp(3, PlannedSize([z, x], 1), "cpu"), PlaceOp(0, Res(3), [z, x], U8), PlaceOp(1, Res(3), [z, y], U8),
       Reuses(z, x, y).body[2]]
  {
    hide PlanOf, FuncNodes, Creations, PlannedSize, SameExpr;
    var fn := Reuses(z, x, y);
    PlanIs(z, x, y);
    CreationsOf(z, x, y);
    var cs := Creations(FuncNodes(fn));
    var slot := PlanOf(fn).slot;
    assert cs[..2] == cs && cs[..1][..0] == [];
    assert HomesOf(slot, cs[..1], 3) == map[0 := 3];
    assert HomesOf(slot, cs, 3) == map[0 := 3, 1 := 3];
    var home := HomesOf(slot, cs, 3);
    var b := fn.body;
    assert b[1..][0] == b[1] && b[1..][1..] == b[2..] && b[2..][0] == b[2] && b[2..][1..] == [];
    assert LowerOps(home, b[2..]) == [b[2]] + LowerOps(home, []);
    assert LowerOps(home, b[1..]) == [LowerOp(home, b[1])] + LowerOps(home, b[2..]);
    assert LowerOps(home, b) == [LowerOp(home, b[0])] + LowerOps(home, b[1..]);
    assert StorageOps(PlanOf(fn).entries, 3) == [StorageOp(3, PlannedSize([z, x], 1), "cpu")];
  }

  /** In the shared storage the second tensor has room exactly when it is no larger than the first. */
  lemma {:induction false} RunsShared(C: Context, z: PrimExpr, x: PrimExpr, y: PrimExpr, k: int, m: int, n: int,
                                      st: TState)
    requires Dim(C.dims, z, k) && Dim(C.dims, x, m) && Dim(C.dims, y, n) && z.upper.None? && SameExpr(x, y)
    ensures ExecOps(C, LoweredBody(Reuses(z, x, y), 3), st).Some? <==> n <= m
  {
    hide EvalShape, OwnSize, PayloadBytes, EvalSize, LoweredBody, SameExpr;
    LoweredIs(z, x, y);
    MatrixSize(C, z, x, k, m);
    MatrixSize(C, z, y, k, n);
    var b := LoweredBody(Reuses(z, x, y), 3);
    var s1 := Exec(C, b[0], st).value;
    var s2 := Exec(C, b[1], s1).value;
    var s3 := Exec(C, b[2], s2).value;
    ViewRuns(C, b[3], s3, TensorRef(Own(3, st.turn), m * k, 0, [k, n], U8), [k, n]);
    assert n * k <= m * k <==> n <= m;
    assert b[1..][0] == b[1] && b[1..][1..] == b[2..] && b[2..][0] == b[2] && b[2..][1..] == b[3..] &&
      b[3..][0] == b[3] && b[3..][1..] == [];
    assert ExecOps(C, b[3..], s3).Some? <==> Exec(C, b[3], s3).Some?;
    assert ExecOps(C, b[2..], s2) == ExecOps(C, b[3..], s3);
    assert ExecOps(C, b[1..], s1) == ExecOps(C, b[2..], s2);
  }

  // ---------------------------------------------------------------- exactly when

  const BLANK: TState := TState(map[], NOWHERE, [], [])

  const NOWHERE: Memory := (s: Store, b: int) => None

  /** The function meets everything that the planner and its theorem ask for. */
  lemma {:induction false} IsPrivateRun(C: Context, z: PrimExpr, x: PrimExpr, y: PrimExpr, k: int, m: int, n: int)
    requires Dim(C.dims, z, k) && Dim(C.dims, x, m) && Dim(C.dims, y, n) && z.upper.None? && SameExpr(x, y)
    ensures PrivateRun(C, Reuses(z, x, y), 3, BLANK, NOWHERE) && SizeVars(Reuses(z, x, y)) == {z, x, y}
    ensures SafeLoops(Reuses(z, x, y))
  {
    hide Plannable, UninitialisedOps, FreshIds, SizesEvaluate, ExecOps, Creations, FuncNodes, SizeVars, SameExpr,
         SafeLoops;
    IsPlannable(z, x, y);
    SizesAreKnown(C, z, x, y, k, m, n);
    RunsAlone(C, z, x, y, k, m, n, BLANK);
  }

  ghost predicate SharesWell(C: Context, fn: Func, base: nat, st: TState, shared: Memory) {
    PrivateRun(C, fn, base, st, shared) && SafeLoops(fn) ==> SharedRunAgrees(C, fn, base, st, shared)
  }

  /** Sharing is invisible in every function whose symbolic sizes are over these variables. */
  ghost predicate SafeOver(C: Context, vars: set<PrimExpr>) {
    forall fn, base, st, shared :: SizeVars(fn) <= vars ==> SharesWell(C, fn, base, st, shared)
  }

  /** Every variable holds a positive integer, and there is one without a bound. */
  ghost predicate OpenDims(vars: set<PrimExpr>, E: Env) {
    (forall x <- vars :: x.PrimVar? && x.id in E && E[x.id].VInt? && E[x.id].i > 0) && exists z ::
      z in vars && z.PrimVar? && z.upper.None?
  }

  /** Sharing storages of symbolic size is invisible exactly when the variables that have one name
      and one bound have one value. */
  lemma SafeOverExactly(C: Context, vars: set<PrimExpr>)
    requires OpenDims(vars, C.dims) && Robust(C.kernel)
    ensures SafeOver(C, vars) <==> NamesakesAgree(vars, C.dims)
  {
    hide SharesWell, SizeVars, Robust, SameExpr;
    if NamesakesAgree(vars, C.dims) {
      forall fn, base, st, shared | SizeVars(fn) <= vars ensures SharesWell(C, fn, base, st, shared) {
        Shares(C, fn, base, st, shared);
      }
    }
    if SafeOver(C, vars) {
      var z :| z in vars && z.PrimVar? && z.upper.None?;
      forall x, y | x in vars && y in vars && SameExpr(x, y)
        ensures EvalPrim(Cpp, x, C.dims) == EvalPrim(Cpp, y, C.dims) {
        SafeMeansNoLarger(C, vars, z, x, y);
        SameExprBack(x, y);
        SafeMeansNoLarger(C, vars, z, y, x);
      }
    }
  }

  lemma Shares(C: Context, fn: Func, base: nat, st: TState, shared: Memory)
    requires NamesakesAgree(SizeVars(fn), C.dims) && Robust(C.kernel)
    ensures SharesWell(C, fn, base, st, shared)
  {
    hide Plannable, UninitialisedOps, FreshIds, CallerArgs, Untouched, CallerMemory, SharedRunAgrees, ExecOps, Robust,
         SafeLoops;
    if PrivateRun(C, fn, base, st, shared) && SafeLoops(fn) { SharedStoragesAreInvisible(C, fn, base, st, shared); }
  }

  lemma {:induction false} SharesRuns(C: Context, fn: Func, base: nat, st: TState, shared: Memory)
    requires SharesWell(C, fn, base, st, shared) && PrivateRun(C, fn, base, st, shared) && SafeLoops(fn)
    ensures ExecOps(C, LoweredBody(fn, base), st.(mem := shared)).Some?
  {
    hide Plannable, UninitialisedOps, FreshIds, CallerArgs, Untouched, CallerMemory, ExecOps, LoweredBody, SafeLoops;
  }

  lemma {:induction false} SafeMeansNoLarger(C: Context, vars: set<PrimExpr>, z: PrimExpr, x: PrimExpr, y: PrimExpr)
    requires SafeOver(C, vars) && OpenDims(vars, C.dims) && {z, x, y} <= vars && z.upper.None? && SameExpr(x, y)
    ensures C.dims[y.id].i <= C.dims[x.id].i
  {
    hide PrivateRun, SharesWell, SizeVars, SameExpr, LoweredBody, ExecOps, SafeLoops;
    var k, m, n := C.dims[z.id].i, C.dims[x.id].i, C.dims[y.id].i;
    IsPrivateRun(C, z, x, y, k, m, n);
    RunsShared(C, z, x, y, k, m, n, BLANK.(mem := NOWHERE));
    SharesRuns(C, Reuses(z, x, y), 3, BLANK, NOWHERE);
  }

  /** The hypotheses do meet symbolic sizes: two tensors of one unknown size in one storage. */
  lemma SymbolicStoragesAreShared(C: Context, x: PrimExpr, n: int)
    requires Dim(C.dims, x, n) && x.upper.None?
    ensures var fn := Reuses(x, x, x);
      PrivateRun(C, fn, 3, BLANK, NOWHERE) && SafeLoops(fn) && NamesakesAgree(SizeVars(fn), C.dims) &&
        SizeVars(fn) == {x} &&
      PlanOf(fn).slot == map["a" := 0, "b" := 0]
  {
    hide PrivateRun, SizeVars, PlanOf;
    SameExprSelf(x);
    IsPrivateRun(C, x, x, x, n, n, n);
    PlanIs(x, x, x);
  }
}

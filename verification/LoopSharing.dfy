/** Why storages are not shared safely around loops (python/devproc2/compiler/passes/memory_planning.py,
    python/devproc2/ir/analysis.py): lifetimes are positions in one walk over the ops, and a loop comes
    back to earlier positions; and nothing is known about what a loop variable stands for. */
module LoopSharing {
  import opened Bytecode
  import opened Runtime
  import opened PrimExprs
  import opened IRValues
  import opened TensorIR
  import opened AliasAnalysis
  import opened TensorSemantics
  import opened ShapeBounds
  import opened Lifetimes
  import opened StoragePlan
  import opened MemoryPlanning
  import opened AliasSound
  import opened StorageSharing
  import opened PlannedProgram
  import opened SymbolicSharing

  // ---------------------------------------------------------------- two loops

  const BYTE: Spec := Spec([IntImm(1)], U8, "cpu")

  const FILL: Op := CallOp("fill", [], [Res(0)], PURE)

  const WIPE: Op := CallOp("wipe", [], [Res(1)], PURE)

  function Use(v: Value): Op {
    CallOp("use", [v], [], PURE)
  }

  /** How the second tensor comes about, before and after lowering. */
  function Make(shared: bool): Op {
    if shared then PlaceOp(1, Res(9), BYTE.shape, U8) else CreateOp(1, "b", Empty, BYTE, None)
  }

  /** One round either reads the first tensor and then writes another, or writes another and then reads
      the first through a variable that the loop carries. */
  function Round(carried: bool, shared: bool): seq<Op> {
    if carried then [Make(shared), WIPE, Use(Var(3, "x"))] else [Use(Res(0)), Make(shared), WIPE]
  }

  function Loop(carried: bool, shared: bool, n: nat): Op {
    ForOp(if carried then [4] else [], 2, [Imm(Int(0)), Imm(Int(n)), Imm(Int(1))],
          if carried then [Carried(3, Res(0))]
            else [], Region(Round(carried, shared), if carried then [Var(3, "x")] else []))
  }

  /** One tensor is filled, then there are n rounds. */
  function Repeats(carried: bool, n: nat): Func {
    Func([], [CreateOp(0, "a", Empty, BYTE, None), FILL, Loop(carried, false, n)], [])
  }

  /** Foreign code that writes ones or twos whatever it is given. */
  const WRITES: Kernel := (h: History, e: CallEvent) =>
    Some((j: nat, k: nat) => Some(if e.target == "fill" then 1 else 2))

  // ---------------------------------------------------------------- their plan

  lemma ThreeNodes(a: Op, b: Op, c: Op)
    requires !a.IfOp? && !a.ForOp? && !b.IfOp? && !b.ForOp? && !c.IfOp? && !c.ForOp?
    ensures OpsNodes([a, b, c]) == [OpNode(a), OpNode(b), OpNode(c)]
  {
    hide OpNodes, OpsNodes;
    NoNodes();
    NodesCons(c, []);
    NodesCons(b, [c]);
    NodesCons(a, [b, c]);
    assert [c] + [] == [c] && [b] + [c] == [b, c] && [a] + [b, c] == [a, b, c];
  }

  lemma LoopNodes(carried: bool, n: nat)
    ensures var op := Loop(carried, false, n); var r := op.body.ops;
      OpsNodes([op]) == [OpNode(op), OpNode(r[0]), OpNode(r[1]), OpNode(r[2]),
                         YieldNode(op.body.yielded)] == OpNodes(op)
  {
    var op := Loop(carried, false, n);
    ThreeNodes(op.body.ops[0], op.body.ops[1], op.body.ops[2]);
    NoNodes();
    assert op.body.ops == [op.body.ops[0], op.body.ops[1], op.body.ops[2]];
    assert OpNodes(op) == [OpNode(op)] + RegionNodes(op.body);
    assert [op][1..] == [];
    assert OpsNodes([op]) == OpNodes(op) + OpsNodes([]);
  }

  lemma RepeatsNodes(carried: bool, n: nat)
    ensures var b := Repeats(carried, n).body; var r := b[2].body.ops;
      FuncNodes(Repeats(carried, n)) ==
      [OpNode(b[0]), OpNode(FILL), OpNode(b[2]), OpNode(r[0]), OpNode(r[1]), OpNode(r[2]), YieldNode(b[2].body.yielded),
       ReturnNode([])]
  {
    hide OpNodes, OpsNodes, Loop;
    var b := Repeats(carried, n).body;
    LoopNodes(carried, n);
    NodesCons(FILL, [b[2]]);
    NodesCons(b[0], [FILL, b[2]]);
    assert [FILL] + [b[2]] == [FILL, b[2]] && [b[0]] + [FILL, b[2]] == b;
  }

  lemma LaterNodes(n0: Node, n1: Node, n2: Node, n3: Node, n4: Node, n5: Node, n6: Node, n7: Node)
    ensures Creations([n0, n1, n2, n3, n4, n5, n6, n7]) ==
      Creations([n0, n1, n2, n3]) + Picked(n4, 4) + Picked(n5, 5) + Picked(n6, 6) + Picked(n7, 7)
  {
    hide Creations, Picked;
    CreationsSnoc([n0, n1, n2, n3], n4);
    CreationsSnoc([n0, n1, n2, n3, n4], n5);
    CreationsSnoc([n0, n1, n2, n3, n4, n5], n6);
    CreationsSnoc([n0, n1, n2, n3, n4, n5, n6], n7);
    assert [n0, n1, n2, n3] + [n4] == [n0, n1, n2, n3, n4];
    assert [n0, n1, n2, n3, n4] + [n5] == [n0, n1, n2, n3, n4, n5];
    assert [n0, n1, n2, n3, n4, n5] + [n6] == [n0, n1, n2, n3, n4, n5, n6];
    assert [n0, n1, n2, n3, n4, n5, n6] + [n7] == [n0, n1, n2, n3, n4, n5, n6, n7];
  }

  /** Where the second tensor is created. */
  function SecondAt(carried: bool): nat {
    if carried then 3 else 4
  }

  lemma RepeatsCreations(carried: bool, n: nat)
    ensures Creations(FuncNodes(Repeats(carried, n))) ==
      [Creation(0, "a", BYTE, 0), Creation(1, "b", BYTE, SecondAt(carried))]
  {
    hide Creations, FuncNodes;
    RepeatsNodes(carried, n);
    var b := Repeats(carried, n).body;
    var r := b[2].body.ops;
    FourNodes(OpNode(b[0]), OpNode(FILL), OpNode(b[2]), OpNode(r[0]));
    LaterNodes(OpNode(b[0]), OpNode(FILL), OpNode(b[2]), OpNode(r[0]), OpNode(r[1]), OpNode(r[2]),
               YieldNode(b[2].body.yielded), ReturnNode([]));
  }

  lemma SecondIsMade(carried: bool, n: nat)
    ensures var P := IsCreated(Creations(FuncNodes(Repeats(carried, n)))); P(Res(0)) && P(Res(1))
  {
    hide Creations, FuncNodes;
    RepeatsCreations(carried, n);
    var cs := Creations(FuncNodes(Repeats(carried, n)));
    assert cs[0] in cs && cs[0].res == 0 && cs[1] in cs && cs[1].res == 1;
    assert 0 in ResIds(cs) && 1 in ResIds(cs);
  }

  lemma OthersOnly(G: Graph, P: Matcher, n: Node)
    requires P(Res(1)) && forall v <- Refs(n) :: v == Res(1) || !v.Res?
    ensures !Refers(G, P, n, 0)
  {
    hide Reaches;
    forall v | v in Refs(n) ensures !Reaches(G, P, v, Res(0)) { OnlyItself(G, P, v, Res(0)); }
  }

  /** From where the second tensor is created, nothing refers to the first one any more. */
  lemma UnusedLater(carried: bool, n: nat, i: nat)
    requires SecondAt(carried) <= i < 8
    ensures var fn := Repeats(carried, n);
      |FuncNodes(fn)| == 8 && !Refers(GraphOf(fn), IsCreated(Creations(FuncNodes(fn))), FuncNodes(fn)[i], 0)
  {
    hide Creations, FuncNodes, Refers, Edges;
    RepeatsNodes(carried, n);
    SecondIsMade(carried, n);
    var node := FuncNodes(Repeats(carried, n))[i];
    UseOrWipe(node, carried);
    OthersOnly(GraphOf(Repeats(carried, n)), IsCreated(Creations(FuncNodes(Repeats(carried, n)))), node);
  }

  lemma UseOrWipe(n: Node, carried: bool)
    requires n in [OpNode(Make(false)), OpNode(WIPE), YieldNode([]), ReturnNode([])] ||
      (carried && n in [OpNode(Use(Var(3, "x"))), YieldNode([Var(3, "x")])])
    ensures forall v <- Refs(n) :: v == Res(1) || !v.Res?
  {
  }

  /** Before that, the loop still uses it. */
  lemma UsedInLoop(carried: bool, n: nat)
    ensures var fn := Repeats(carried, n); var i := if carried then 2 else 3;
      |FuncNodes(fn)| == 8 && Refers(GraphOf(fn), IsCreated(Creations(FuncNodes(fn))), FuncNodes(fn)[i], 0)
  {
    hide Creations, FuncNodes, Edges, Reaches, Refs, IsCreated, TuplesOf;
    RepeatsNodes(carried, n);
    SecondIsMade(carried, n);
    var i := if carried then 2 else 3;
    var node := FuncNodes(Repeats(carried, n))[i];
    ReachesSelf(GraphOf(Repeats(carried, n)), IsCreated(Creations(FuncNodes(Repeats(carried, n)))), Res(0));
    FirstIsRef(carried, n);
    assert Res(0) in Refs(node);
  }

  lemma FirstIsRef(carried: bool, n: nat)
    ensures Res(0) in Refs(if carried then OpNode(Loop(true, false, n)) else OpNode(Use(Res(0))))
  {
    if carried {
      var op := Loop(true, false, n);
      assert Inits(op.iters)[0] == Res(0);
      assert Operands(op) == op.bounds + Inits(op.iters);
      assert Operands(op)[3] == Res(0);
    }
  }

  lemma NotReturned(carried: bool, n: nat, res: nat)
    ensures var fn := Repeats(carried, n); !Escapes(GraphOf(fn), Creations(FuncNodes(fn)), FuncNodes(fn), res)
  {
    hide FuncNodes, Creations, Edges;
    RepeatsNodes(carried, n);
  }

  lemma TensorsAre(carried: bool, n: nat)
    ensures |TensorsOf(Repeats(carried, n))| == 2
    ensures var a, b := TensorsOf(Repeats(carried, n))[0], TensorsOf(Repeats(carried, n))[1];
      a.name == "a" && b.name == "b" && a.device == b.device == "cpu" && a.size == b.size && b.reusable &&
      a.size == SizeBytes(BYTE.shape, 1) && a.sizeExpr == PlannedSize(BYTE.shape, 1) &&
      a.interval == Interval(0, if carried then 2 else 3) && b.interval.first == SecondAt(carried)
  {
    hide Creations, FuncNodes, LastRef, Edges, PlannedSize, SizeBytes, Refers, Escapes;
    var fn := Repeats(carried, n);
    RepeatsCreations(carried, n);
    LifetimeIsExact(fn, 0);
    LifetimeIsExact(fn, 1);
    TensorFields(fn, 0);
    TensorFields(fn, 1);
    NotReturned(carried, n, 1);
    UsedInLoop(carried, n);
    var last := TensorsOf(fn)[0].interval.last;
    if last >= SecondAt(carried) { UnusedLater(carried, n, last); }
  }

  lemma ByteSize()
    ensures SizeBytes(BYTE.shape, 1) == Some(256) && PlannedSize(BYTE.shape, 1) == IntImm(256)
  {
    assert BYTE.shape[..0] == [];
  }

  /** The two tensors get one storage. */
  lemma RepeatsPlan(carried: bool, n: nat)
    ensures var p := PlanOf(Repeats(carried, n));
      p.slot == map["a" := 0, "b" := 0] && |p.entries| == 1 && p.entries[0].sizeExpr == IntImm(256) &&
      p.entries[0].device == "cpu"
  {
    hide TensorsOf, Greedy, SizeBytes, PlannedSize;
    TensorsAre(carried, n);
    ByteSize();
    var ts := TensorsOf(Repeats(carried, n));
    assert ts == [ts[0], ts[1]];
    TwoTensors(ts[0], ts[1]);
  }

  // ---------------------------------------------------------------- why they are not safe

  /** The first loop carries nothing, but it uses up a tensor from before it. */
  lemma ReadingIsNotSafe(n: nat)
    ensures NoneCarried(Repeats(false, n)) && !SafeLoops(Repeats(false, n))
  {
    hide FuncNodes, TensorsOf, CarriesNone, OpNodes;
    var fn := Repeats(false, n);
    RepeatsNodes(false, n);
    TensorsAre(false, n);
    LoopNodes(false, n);
    CarriesNothing(n);
    assert !LoopApart(FuncNodes(fn)[2], TensorsOf(fn)[0].interval, 2);
  }

  lemma CarriesNothing(n: nat)
    ensures CarriesNone(FuncNodes(Repeats(false, n)), Loop(false, false, n))
  {
  }

  /** The second one uses nothing up, but it carries a created tensor. */
  lemma CarryingIsNotSafe(n: nat)
    ensures !NoneCarried(Repeats(true, n)) && !SafeLoops(Repeats(true, n))
    ensures |TensorsOf(Repeats(true, n))| == 2
    ensures LifeApart(TensorsOf(Repeats(true, n))[0].interval, 2, 1 + |OpNodes(Loop(true, false, n))|)
  {
    hide FuncNodes, TensorsOf, Edges, Resolve, Reaches, Creations, OpNodes, TuplesOf, IsCreated, Round;
    var fn := Repeats(true, n);
    var op := Loop(true, false, n);
    RepeatsNodes(true, n);
    TensorsAre(true, n);
    SecondIsMade(true, n);
    var nodes := FuncNodes(fn);
    ReachesSelf(GraphAt(nodes, |nodes|), IsCreated(Creations(nodes)), Res(0));
    ResolveIsReachability(GraphAt(nodes, |nodes|), IsCreated(Creations(nodes)), Res(0), Res(0));
    assert (Inits(op.iters) + op.body.yielded)[0] == Res(0);
    assert !FindsNone(nodes, Res(0));
    assert nodes[2] == OpNode(op) && !CarriesNone(nodes, op);
  }

  // ---------------------------------------------------------------- their lowering

  lemma RepeatsHomes(carried: bool, n: nat)
    ensures var fn := Repeats(carried, n); HomesOf(PlanOf(fn).slot, Creations(FuncNodes(fn)), 9) == map[0 := 9, 1 := 9]
  {
    hide PlanOf, FuncNodes, Creations;
    RepeatsPlan(carried, n);
    RepeatsCreations(carried, n);
    var cs, slot := Creations(FuncNodes(Repeats(carried, n))), PlanOf(Repeats(carried, n)).slot;
    assert cs[..2] == cs && cs[..1][..0] == [];
    assert HomesOf(slot, cs[..1], 9) == map[0 := 9];
  }

  lemma {:induction false} LowerCons(home: map<nat, nat>, op: Op, rest: seq<Op>)
    ensures LowerOps(home, [op] + rest) == [LowerOp(home, op)] + LowerOps(home, rest)
  {
    hide LowerOp;
    assert ([op] + rest)[1..] == rest;
  }

  lemma {:induction false} ThreeLowered(home: map<nat, nat>, a: Op, b: Op, c: Op)
    ensures LowerOps(home, [a, b, c]) == [LowerOp(home, a), LowerOp(home, b), LowerOp(home, c)]
  {
    hide LowerOp, LowerOps;
    assert LowerOps(home, []) == [] by { NothingLowered(home); }
    LowerCons(home, c, []);
    LowerCons(home, b, [c]);
    LowerCons(home, a, [b, c]);
    assert [c] + [] == [c] && [b] + [c] == [b, c] && [a] + [b, c] == [a, b, c];
  }

  lemma {:induction false} NothingLowered(home: map<nat, nat>)
    ensures LowerOps(home, []) == []
  {
  }

  lemma RoundLowered(carried: bool)
    ensures LowerOps(map[0 := 9, 1 := 9], Round(carried, false)) == Round(carried, true)
  {
    hide LowerOps;
    var home, r := map[0 := 9, 1 := 9], Round(carried, false);
    assert r == [r[0], r[1], r[2]];
    ThreeLowered(home, r[0], r[1], r[2]);
  }

  /** The lowered function: the storage, and both tensors in it. */
  lemma RepeatsLowered(carried: bool, n: nat)
    ensures LoweredBody(Repeats(carried, n), 9) ==
      [StorageOp(9, IntImm(256), "cpu"), PlaceOp(0, Res(9), BYTE.shape, U8), FILL, Loop(carried, true, n)]
  {
    hide PlanOf, FuncNodes, Creations, HomesOf, LowerOps, Round;
    RepeatsPlan(carried, n);
    RepeatsHomes(carried, n);
    var fn := Repeats(carried, n);
    var b, home := fn.body, map[0 := 9, 1 := 9];
    RoundLowered(carried);
    ThreeLowered(home, b[0], FILL, b[2]);
    assert LowerOp(home, b[2]) == Loop(carried, true, n);
    assert StorageOps(PlanOf(fn).entries, 9) == [StorageOp(9, IntImm(256), "cpu")];
  }

  // ---------------------------------------------------------------- one round

  /** The first tensor, and the second one in a given turn of the loop. */
  function First(shared: bool): TensorRef {
    TensorRef(Own(if shared then 9 else 0, []), 256, 0, [1], U8)
  }

  function Second(shared: bool, k: nat): TensorRef {
    TensorRef(if shared then Own(9, []) else Own(1, [k]), 256, 0, [1], U8)
  }

  function ByteAt(mem: Memory, t: TensorRef): Option<int> {
    mem(t.store, t.offset)
  }

  function Seen(target: string, times: nat, x: Option<int>): CallEvent {
    CallEvent(target, seq(times, _ => DTensor([1], U8)), seq(times, _ => [x]))
  }

  /** Both environments know the first tensor; the lowered one also the storage. */
  predicate InLoop(shared: bool, st: TState) {
    0 in st.env && st.env[0] == TTensor(First(shared)) && st.turn == [] &&
    (shared ==> 9 in st.env && st.env[9] == TStorage(Own(9, []), 256))
  }

  lemma ByteReads(mem: Memory, t: TensorRef)
    requires t.shape == [1] && t.dtype == U8
    ensures Size(t) == 1 && Read(mem, t) == [ByteAt(mem, t)]
  {
    assert [1][1..] == [];
    assert Product([1]) == 1 * Product([]) == 1;
    assert PayloadBytes([1], U8) == 1;
    assert Read(mem, t)[0] == ByteAt(mem, t);
  }

  lemma {:induction false} OneValue(v: Value, E: TEnv, t: TensorRef)
    requires EvalV(v, E) == Some(TTensor(t))
    ensures EvalVs([v], E) == Some([TTensor(t)]) && AllTensors([TTensor(t)]) == [t]
    ensures DescribeAll([TTensor(t)]) == [DTensor(t.shape, t.dtype)]
  {
    assert [v][1..] == [] && [TTensor(t)][1..] == [] && EvalVs([], E) == Some([]);
    assert [TTensor(t)] + [] == [TTensor(t)] && [t] + [] == [t];
    assert AllTensors([]) == [] && DescribeAll([]) == [];
  }

  lemma {:induction false} TwoValues(v: Value, E: TEnv, t: TensorRef)
    requires EvalV(v, E) == Some(TTensor(t))
    ensures EvalVs([v, v], E) == Some([TTensor(t), TTensor(t)]) && AllTensors([TTensor(t), TTensor(t)]) == [t, t]
    ensures DescribeAll([TTensor(t), TTensor(t)]) == [DTensor(t.shape, t.dtype), DTensor(t.shape, t.dtype)]
  {
    OneValue(v, E, t);
    assert [v, v][1..] == [v] && [TTensor(t), TTensor(t)][1..] == [TTensor(t)];
    assert [TTensor(t)] + [TTensor(t)] == [TTensor(t), TTensor(t)] && [t] + [t] == [t, t];
    assert EvalVs([v, v], E) == Some([TTensor(t)] + [TTensor(t)]);
    assert AllTensors([TTensor(t), TTensor(t)]) == [t] + [t];
  }

  lemma {:induction false} UseRuns(C: Context, v: Value, st: TState, t: TensorRef)
    requires C.kernel == WRITES && EvalV(v, st.env) == Some(TTensor(t)) && t.shape == [1] && t.dtype == U8
    ensures Exec(C, Use(v), st) == Some(st.(hist := st.hist + [Seen("use", 1, ByteAt(st.mem, t))]))
  {
    hide Read, Size, EvalVs, AllTensors, DescribeAll, EvalV;
    ByteReads(st.mem, t);
    OneValue(v, st.env, t);
    assert Operands(Use(v)) + EffectOf(Use(v)).reading + EffectOf(Use(v)).writing == [v];
    assert EffectOf(Use(v)).writing == [] && EvalVs([], st.env) == Some([]) by { NoValues(st.env); }
    NoTensors();
    var e := Seen("use", 1, ByteAt(st.mem, t));
    assert [DTensor([1], U8)] == e.args && ReadAll(st.mem, [t]) == e.contents;
  }

  lemma {:induction false} NoValues(E: TEnv)
    ensures EvalVs([], E) == Some([])
  {
  }

  lemma NoTensors()
    ensures AllTensors([]) == []
  {
  }

  lemma WritesOnce(target: string, id: nat)
    ensures var op := CallOp(target, [], [Res(id)], PURE);
      EffectOf(op).writing == [Res(id)] && Operands(op) + EffectOf(op).reading + [Res(id)] == [Res(id), Res(id)]
  {
    assert [Res(id)][1..] == [] && Missing([], []) == [];
    assert Missing([Res(id)], []) == [Res(id)];
  }

  /** A call that writes one tensor sees it twice: as output and as written. */
  lemma {:induction false} WriteRuns(C: Context, target: string, id: nat, st: TState, t: TensorRef)
    requires C.kernel == WRITES && id in st.env && st.env[id] == TTensor(t) && t.shape == [1] && t.dtype == U8
    ensures var r := Exec(C, CallOp(target, [], [Res(id)], PURE), st);
      r.Some? && r.value.env == st.env && r.value.turn == st.turn &&
      r.value.hist == st.hist + [Seen(target, 2, ByteAt(st.mem, t))] &&
      ByteAt(r.value.mem, t) == Some(if target == "fill" then 1 else 2) &&
      forall s, b :: s != t.store ==> r.value.mem(s, b) == st.mem(s, b)
  {
    hide Read, Size, EvalVs, AllTensors, DescribeAll, EffectOf, Operands;
    ByteReads(st.mem, t);
    WritesOnce(target, id);
    OneValue(Res(id), st.env, t);
    TwoValues(Res(id), st.env, t);
    var e := Seen(target, 2, ByteAt(st.mem, t));
    assert [DTensor([1], U8), DTensor([1], U8)] == e.args && ReadAll(st.mem, [t, t]) == e.contents;
    var bytes := WRITES(st.hist, e).value;
    assert WriteAll(st.mem, [t], bytes, 0) == WriteAll(WriteOne(st.mem, t, Row(bytes, 0)), [t], bytes, 1) ==
      WriteOne(st.mem, t, Row(bytes, 0));
  }

  lemma {:induction false} MakeRuns(C: Context, shared: bool, k: nat, st: TState)
    requires st.turn == [k] && (shared ==> 9 in st.env && st.env[9] == TStorage(Own(9, []), 256))
    ensures Exec(C, Make(shared), st) == Some(st.(env := st.env[1 := TTensor(Second(shared, k))]))
  {
    hide PlannedSize;
    ByteSize();
    ByteShape(C);
  }

  lemma ByteShape(C: Context)
    ensures EvalShape(C.host, BYTE.shape, C.dims) == Some([1]) && OwnSize(C, BYTE) == Some(256)
  {
    hide PlannedSize;
    ByteSize();
    assert BYTE.shape[1..] == [] && EvalShape(C.host, [], C.dims) == Some([]);
    EvalShapeCons(C.host, BYTE.shape, C.dims);
    assert EvalPrim(C.host, IntImm(1), C.dims) == Some(VInt(1)) && [1] + [] == [1];
    assert EvalPrim(C.host, IntImm(256), C.dims) == Some(VInt(256));
  }

  lemma {:induction false} ThreeRun(C: Context, b: seq<Op>, s0: TState, s1: TState, s2: TState, s3: TState)
    requires |b| == 3 && Exec(C, b[0], s0) == Some(s1) && Exec(C, b[1], s1) == Some(s2) && Exec(C, b[2], s2) == Some(s3)
    ensures ExecOps(C, b, s0) == Some(s3)
  {
    hide Exec;
    assert b[1..][0] == b[1] && b[1..][1..] == b[2..] && b[2..][0] == b[2] && b[2..][1..] == [];
    assert ExecOps(C, b[2..], s2) == Some(s3);
    assert ExecOps(C, b[1..], s1) == Some(s3);
  }

  /** What the two calls of a round see, in order. */
  function Calls(carried: bool, shared: bool, k: nat, mem: Memory): seq<CallEvent> {
    if carried
    then [Seen("wipe", 2, ByteAt(mem, Second(shared, k))),
          Seen("use", 1, if shared then Some(2) else ByteAt(mem, First(shared)))]
    else [Seen("use", 1, ByteAt(mem, First(shared))), Seen("wipe", 2, ByteAt(mem, Second(shared, k)))]
  }

  /** A round keeps the environment except for the second tensor, and memory except for its storage. */
  ghost predicate RoundIs(carried: bool, shared: bool, k: nat, st: TState, r: TState) {
    r.hist == st.hist + Calls(carried, shared, k, st.mem) && r.turn == [k] &&
    r.env == st.env[1 := TTensor(Second(shared, k))] && ByteAt(r.mem, Second(shared, k)) == Some(2) &&
    forall s, b :: s != Second(shared, k).store ==> r.mem(s, b) == st.mem(s, b)
  }

  lemma {:induction false} RoundRuns(C: Context, carried: bool, shared: bool, k: nat, st: TState)
    requires C.kernel == WRITES && InLoop(shared, st.(turn := [])) && st.turn == [k]
    requires carried ==> 3 in st.env && st.env[3] == TTensor(First(shared))
    ensures var r := ExecOps(C, Round(carried, shared), st); r.Some? && RoundIs(carried, shared, k, st, r.value)
  {
    hide Exec, ExecOps;
    var b, second := Round(carried, shared), TTensor(Second(shared, k));
    if carried {
      MakeRuns(C, shared, k, st);
      var s1 := st.(env := st.env[1 := second]);
      WriteRuns(C, "wipe", 1, s1, Second(shared, k));
      var s2 := Exec(C, b[1], s1).value;
      UseRuns(C, Var(3, "x"), s2, First(shared));
      ThreeRun(C, b, st, s1, s2, Exec(C, b[2], s2).value);
    } else {
      UseRuns(C, Res(0), st, First(shared));
      var s1 := Exec(C, b[0], st).value;
      MakeRuns(C, shared, k, s1);
      var s2 := s1.(env := s1.env[1 := second]);
      WriteRuns(C, "wipe", 1, s2, Second(shared, k));
      ThreeRun(C, b, st, s1, s2, Exec(C, b[2], s2).value);
    }
  }

  // ---------------------------------------------------------------- all rounds

  /** What the loop carries. */
  function Vals(carried: bool, shared: bool): seq<TVal> {
    if carried then [TTensor(First(shared))] else []
  }

  ghost function Rest(C: Context, carried: bool, shared: bool, n: nat, k: nat, st: TState)
    : Option<(seq<TVal>, TState)>
  {
    ExecLoop(C, Loop(carried, shared, n), Range(k, n, 1), Vals(carried, shared), k, st)
  }

  function Start(carried: bool, shared: bool, k: nat, st: TState): TState {
    EnterBody(Loop(carried, shared, 0), k, Vals(carried, shared), k, st)
  }

  lemma StartIs(carried: bool, shared: bool, n: nat, k: nat, st: TState)
    requires InLoop(shared, st)
    ensures EnterBody(Loop(carried, shared, n), k, Vals(carried, shared), k, st) == Start(carried, shared, k, st)
    ensures var s := Start(carried, shared, k, st);
      InLoop(shared, s.(turn := [])) && s.turn == [k] && s.mem == st.mem && s.hist == st.hist &&
      (carried ==> 3 in s.env && s.env[3] == TTensor(First(shared)))
  {
    if carried {
      assert Vars([Carried(3, Res(0))]) == [3];
      assert [3][1..] == [] && Vals(carried, shared)[1..] == [];
    } else {
      assert Vars([]) == [];
    }
  }

  /** The state after round k. */
  ghost function After(C: Context, carried: bool, shared: bool, k: nat, st: TState): (r: TState)
    requires C.kernel == WRITES && InLoop(shared, st)
    ensures InLoop(shared, r) && r.hist == st.hist + Calls(carried, shared, k, st.mem)
    ensures ByteAt(r.mem, First(shared)) == if shared then Some(2) else ByteAt(st.mem, First(shared))
  {
    StartIs(carried, shared, 0, k, st);
    RoundRuns(C, carried, shared, k, Start(carried, shared, k, st));
    ExecOps(C, Round(carried, shared), Start(carried, shared, k, st)).value.(env := st.env, turn := st.turn)
  }

  lemma NextRound(C: Context, carried: bool, shared: bool, n: nat, k: nat, st: TState)
    requires C.kernel == WRITES && InLoop(shared, st) && k < n
    ensures Rest(C, carried, shared, n, k, st) ==
      Rest(C, carried, shared, n, k + 1, After(C, carried, shared, k, st))
  {
    hide ExecOps, Start, InLoop;
    StartIs(carried, shared, n, k, st);
    var start := Start(carried, shared, k, st);
    RoundRuns(C, carried, shared, k, start);
    var inner := ExecOps(C, Round(carried, shared), start).value;
    if carried {
      OneValue(Var(3, "x"), inner.env, First(shared));
    } else {
      NoValues(inner.env);
    }
    assert EvalVs(Loop(carried, shared, n).body.yielded, inner.env) == Some(Vals(carried, shared));
  }

  lemma {:induction false} RestRuns(C: Context, carried: bool, shared: bool, n: nat, k: nat, st: TState)
    requires C.kernel == WRITES && InLoop(shared, st) && k <= n
    ensures var r := Rest(C, carried, shared, n, k, st);
      r.Some? && st.hist <= r.value.1.hist && r.value.0 == Vals(carried, shared)
    decreases n - k
  {
    hide After;
    if k < n {
      NextRound(C, carried, shared, n, k, st);
      RestRuns(C, carried, shared, n, k + 1, After(C, carried, shared, k, st));
    }
  }

  lemma {:induction false} OneMore(v: Value, vs: seq<Value>, E: TEnv)
    requires EvalV(v, E).Some? && EvalVs(vs, E).Some?
    ensures EvalVs([v] + vs, E) == Some([EvalV(v, E).value] + EvalVs(vs, E).value)
  {
    assert ([v] + vs)[1..] == vs;
  }

  lemma RangeIs(carried: bool, shared: bool, n: nat, E: TEnv)
    ensures LoopRange(Loop(carried, shared, n).bounds, E) == Some(Range(0, n, 1))
  {
    var bounds := Loop(carried, shared, n).bounds;
    NoValues(E);
    OneMore(Imm(Int(1)), [], E);
    OneMore(Imm(Int(n)), [Imm(Int(1))], E);
    OneMore(Imm(Int(0)), [Imm(Int(n)), Imm(Int(1))], E);
    assert [Imm(Int(1))] + [] == [Imm(Int(1))] && [Imm(Int(n))] + [Imm(Int(1))] == [Imm(Int(n)), Imm(Int(1))];
    assert [Imm(Int(0))] + [Imm(Int(n)), Imm(Int(1))] == bounds;
  }

  lemma {:induction false} LoopRuns(C: Context, carried: bool, shared: bool, n: nat, st: TState)
    requires C.kernel == WRITES && InLoop(shared, st)
    ensures var r := Exec(C, Loop(carried, shared, n), st); var rest := Rest(C, carried, shared, n, 0, st);
      r.Some? && rest.Some? && r.value.hist == rest.value.1.hist
  {
    hide ExecLoop, LoopRange, Round;
    RestRuns(C, carried, shared, n, 0, st);
    RangeIs(carried, shared, n, st.env);
    if carried {
      OneValue(Res(0), st.env, First(shared));
      assert Inits([Carried(3, Res(0))]) == [Res(0)];
    } else {
      NoValues(st.env);
      assert Inits([]) == [];
    }
  }

  // ---------------------------------------------------------------- the two runs

  /** What both loops start with: the first tensor has just been filled. */
  ghost predicate JustFilled(shared: bool, st: TState) {
    InLoop(shared, st) && |st.hist| == 1 && ByteAt(st.mem, First(shared)) == Some(1) &&
    (!shared ==> st.hist[0] == Seen("fill", 2, None) && ByteAt(st.mem, Second(false, 0)) == None) &&
    (shared ==> exists x :: st.hist[0] == Seen("fill", 2, x))
  }

  lemma RunsAloneTo(C: Context, carried: bool, n: nat) returns (st: TState)
    requires C.kernel == WRITES
    ensures JustFilled(false, st)
    ensures ExecOps(C, Repeats(carried, n).body, BLANK) == Exec(C, Loop(carried, false, n), st)
  {
    hide ExecLoop, OwnSize, Loop;
    ByteShape(C);
    var b := Repeats(carried, n).body;
    var s1 := Exec(C, b[0], BLANK).value;
    WriteRuns(C, "fill", 0, s1, First(false));
    st := Exec(C, b[1], s1).value;
    assert [] + [Seen("fill", 2, None)] == [Seen("fill", 2, None)];
    RunOne(C, b[2], st);
    assert b[1..][0] == b[1] && b[1..][1..] == [b[2]];
    assert ExecOps(C, b[1..], s1) == ExecOps(C, [b[2]], st);
  }

  lemma RunsSharedTo(C: Context, carried: bool, n: nat, shared: Memory) returns (st: TState)
    requires C.kernel == WRITES
    ensures JustFilled(true, st)
    ensures ExecOps(C, LoweredBody(Repeats(carried, n), 9), BLANK.(mem := shared)) == Exec(C, Loop(carried, true, n),
      st)
  {
    hide ExecLoop, OwnSize, LoweredBody, EvalShape, WriteAll, Repeats, Loop;
    ByteShape(C);
    RepeatsLowered(carried, n);
    var b := LoweredBody(Repeats(carried, n), 9);
    var s0 := BLANK.(mem := shared);
    var s1 := Exec(C, b[0], s0).value;
    var s2 := Exec(C, b[1], s1).value;
    WriteRuns(C, "fill", 0, s2, First(true));
    st := Exec(C, b[2], s2).value;
    var x := ByteAt(shared, First(true));
    assert st.hist[0] == Seen("fill", 2, x);
    RunOne(C, b[3], st);
    assert b[1..][0] == b[1] && b[1..][1..] == b[2..] && b[2..][0] == b[2] && b[2..][1..] == [b[3]];
    assert ExecOps(C, b[2..], s2) == ExecOps(C, [b[3]], st);
    assert ExecOps(C, b[1..], s1) == ExecOps(C, b[2..], s2);
  }

  /** The rounds that cannot be told apart: one if the tensor is read by name, none if it is carried. */
  function Harmless(carried: bool): nat {
    if carried then 0 else 1
  }

  lemma DifferAt(h: History, h': History, i: nat)
    requires i < |h| && i < |h'| && h[i] == Seen("use", 1, Some(1)) && h'[i] == Seen("use", 1, Some(2))
    ensures !HistLeq(h, h')
  {
    assert h[i].contents[0] == [Some(1)] && h'[i].contents[0] == [Some(2)];
    assert !Leq(h[i].contents[0][0], h'[i].contents[0][0]);
  }

  lemma HistoriesCompare(C: Context, carried: bool, n: nat, st: TState, st': TState)
    requires C.kernel == WRITES && JustFilled(false, st) && JustFilled(true, st')
    ensures var r, r' := Rest(C, carried, false, n, 0, st), Rest(C, carried, true, n, 0, st');
      r.Some? && r'.Some? && (HistLeq(r.value.1.hist, r'.value.1.hist) <==> n <= Harmless(carried))
  {
    hide After, Rest;
    RestRuns(C, carried, false, n, 0, st);
    RestRuns(C, carried, true, n, 0, st');
    if n == 0 {
      NoRounds(C, carried, false, 0, st);
      NoRounds(C, carried, true, 0, st');
    } else {
      NextRound(C, carried, false, n, 0, st);
      NextRound(C, carried, true, n, 0, st');
      var a, a' := After(C, carried, false, 0, st), After(C, carried, true, 0, st');
      RestRuns(C, carried, false, n, 1, a);
      RestRuns(C, carried, true, n, 1, a');
      var h, h' := Rest(C, carried, false, n, 0, st).value.1.hist, Rest(C, carried, true, n, 0, st').value.1.hist;
      if carried {
        assert h[2] == a.hist[2] && h'[2] == a'.hist[2];
        DifferAt(h, h', 2);
      } else if n == 1 {
        NoRounds(C, carried, false, 1, a);
        NoRounds(C, carried, true, 1, a');
      } else {
        NextRound(C, carried, false, n, 1, a);
        NextRound(C, carried, true, n, 1, a');
        RestRuns(C, carried, false, n, 2, After(C, carried, false, 1, a));
        RestRuns(C, carried, true, n, 2, After(C, carried, true, 1, a'));
        DifferAt(h, h', 3);
      }
    }
  }

  lemma NoRounds(C: Context, carried: bool, shared: bool, n: nat, st: TState)
    ensures Rest(C, carried, shared, n, n, st) == Some((Vals(carried, shared), st))
  {
  }

  /** The planner puts both tensors into one storage, although the loop is not safe, and this is visible
      in what calls see exactly when the loop goes round more often than is harmless. */
  lemma {:induction false} LoopsBreakSharing(C: Context, carried: bool, n: nat, shared: Memory)
    requires C.kernel == WRITES
    ensures Robust(C.kernel) && PlanOf(Repeats(carried, n)).slot == map["a" := 0, "b" := 0]
    ensures !SafeLoops(Repeats(carried, n)) && (NoneCarried(Repeats(carried, n)) <==> !carried)
    ensures var r := ExecOps(C, Repeats(carried, n).body, BLANK);
      var r' := ExecOps(C, LoweredBody(Repeats(carried, n), 9), BLANK.(mem := shared));
      r.Some? && r'.Some? && (HistLeq(r.value.hist, r'.value.hist) <==> n <= if carried then 0 else 1)
  {
    hide PlanOf, LoweredBody, ExecOps, Exec, HistLeq, JustFilled, SafeLoops, NoneCarried;
    RepeatsPlan(carried, n);
    if carried { CarryingIsNotSafe(n); } else { ReadingIsNotSafe(n); }
    var st := RunsAloneTo(C, carried, n);
    var st' := RunsSharedTo(C, carried, n, shared);
    HistoriesCompare(C, carried, n, st, st');
    FilledIsInLoop(false, st);
    FilledIsInLoop(true, st');
    LoopRuns(C, carried, false, n, st);
    LoopRuns(C, carried, true, n, st');
    WritesIsRobust();
  }

  lemma FilledIsInLoop(shared: bool, st: TState)
    requires JustFilled(shared, st)
    ensures InLoop(shared, st)
  {
  }

  lemma WritesIsRobust()
    ensures Robust(WRITES)
  {
  }
}

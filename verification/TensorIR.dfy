/** The tensor-level IR of the passes before code generation (python/devproc2/ir/ops.py,
    python/devproc2/ir/nodes.py): functional calls, tensor creation, destination-passing calls. */
module TensorIR {
  import opened Bytecode
  import opened Runtime
  import opened PrimExprs
  import opened IRValues

  datatype CreateKind = Empty | Zeros | Full | EmptyLike

  datatype Effect = Effect(reading: seq<Value>, writing: seq<Value>, isOpaque: bool)

  /** One block with its yield. */
  datatype Region = Region(ops: seq<Op>, yielded: seq<Value>)

  datatype Carried = Carried(v: nat, init: Value)

  /** What is known statically about a tensor. */
  datatype Spec = Spec(shape: seq<PrimExpr>, dtype: DType, device: string)

  datatype Op =
    | ComputeOp(res: nat, name: string, fn: string, args: seq<Value>, spec: Spec)
    | CreateOp(res: nat, name: string, kind: CreateKind, spec: Spec, like: Option<Value>)
    | StorageOp(res: nat, size: PrimExpr, device: string)
    | PlaceOp(res: nat, storage: Value, shape: seq<PrimExpr>, dtype: DType)
    | ViewOp(res: nat, base: Value, byteOffset: Value, shape: seq<PrimExpr>, byteStride: int, baseOffset: int)
    | CallOp(target: string, inputs: seq<Value>, outputs: seq<Value>, effect: Effect)
    | CheckOp(tensor: Value, dim: int, upper: int)
    | TupleOp(res: nat, elems: seq<Value>)
    | ItemOp(res: nat, tup: Value, index: int)
    | IfOp(results: seq<nat>, cond: Value, thn: Region, els: Option<Region>)
    | ForOp(results: seq<nat>, loopVar: nat, bounds: seq<Value>, iters: seq<Carried>, body: Region)

  datatype Func = Func(params: seq<nat>, body: seq<Op>, ret: seq<Value>)

  function Results(op: Op): seq<nat> {
    match op
    case ComputeOp(res, _, _, _, _) => [res]
    case CreateOp(res, _, _, _, _) => [res]
    case StorageOp(res, _, _) => [res]
    case PlaceOp(res, _, _, _) => [res]
    case ViewOp(res, _, _, _, _, _) => [res]
    case CallOp(_, _, _, _) => []
    case CheckOp(_, _, _) => []
    case TupleOp(res, _) => [res]
    case ItemOp(res, _, _) => [res]
    case IfOp(results, _, _, _) => results
    case ForOp(results, _, _, _, _) => results
  }

  function Inits(iters: seq<Carried>): (vs: seq<Value>)
    ensures |vs| == |iters| && forall k :: 0 <= k < |iters| ==> vs[k] == iters[k].init
  {
    seq(|iters|, k requires 0 <= k < |iters| => iters[k].init)
  }

  function Vars(iters: seq<Carried>): (ids: seq<nat>)
    ensures |ids| == |iters| && forall k :: 0 <= k < |iters| ==> ids[k] == iters[k].v
  {
    seq(|iters|, k requires 0 <= k < |iters| => iters[k].v)
  }

  function Operands(op: Op): seq<Value> {
    match op
    case ComputeOp(_, _, _, args, _) => args
    case CreateOp(_, _, _, _, like) => if like.Some? then [like.value] else []
    case StorageOp(_, _, _) => []
    case PlaceOp(_, storage, _, _) => [storage]
    case ViewOp(_, base, byteOffset, _, _, _) => [base, byteOffset]
    case CallOp(_, inputs, outputs, _) => inputs + outputs
    case CheckOp(tensor, _, _) => [tensor]
    case TupleOp(_, elems) => elems
    case ItemOp(_, tup, _) => [tup]
    case IfOp(_, cond, _, _) => [cond]
    case ForOp(_, _, bounds, iters, _) => bounds + Inits(iters)
  }

  // ---------------------------------------------------------------- effects

  const PURE := Effect([], [], false)

  /** Outputs that the given effect does not list are added to its writes. */
  function Missing(outputs: seq<Value>, listed: seq<Value>): (vs: seq<Value>)
    ensures forall v :: v in vs <==> v in outputs && v !in listed
  {
    if outputs == [] then []
    else (if outputs[0] in listed then [] else [outputs[0]]) + Missing(outputs[1..], listed)
  }

  function Both(e: Effect, f: Effect): Effect {
    Effect(e.reading + f.reading, e.writing + f.writing, e.isOpaque || f.isOpaque)
  }

  function EffectOf(op: Op): Effect
    decreases op, 1
  {
    match op
    case ViewOp(_, base, _, _, _, _) => Effect([base], [], false)
    case CheckOp(tensor, _, _) => Effect([tensor], [], false)
    case CallOp(_, _, outputs, effect) => effect.(writing := effect.writing + Missing(outputs, effect.writing))
    case IfOp(_, _, thn, els) => if els.Some? then Both(OpsEffect(thn.ops), OpsEffect(els.value.ops))
      else OpsEffect(thn.ops)
    case ForOp(_, _, _, _, body) => OpsEffect(body.ops)
    case _ => PURE
  }

  function OpsEffect(ops: seq<Op>): Effect
    decreases ops, 0
  {
    if ops == [] then PURE else Both(EffectOf(ops[0]), OpsEffect(ops[1..]))
  }

  // ---------------------------------------------------------------- linear order

  /** An op, or the terminator of a block. */
  datatype Node = OpNode(op: Op) | YieldNode(values: seq<Value>) | ReturnNode(values: seq<Value>)

  /** Depth first: an op, then the ops of its regions. */
  function OpNodes(op: Op): (ns: seq<Node>)
    ensures |ns| > 0 && ns[0] == OpNode(op)
    decreases op, 1
  {
    [OpNode(op)] +
    match op
    case IfOp(_, _, thn, els) => RegionNodes(thn) + (if els.Some? then RegionNodes(els.value) else [])
    case ForOp(_, _, _, _, body) => RegionNodes(body)
    case _ => []
  }

  function RegionNodes(r: Region): seq<Node>
    decreases r, 0
  {
    OpsNodes(r.ops) + [YieldNode(r.yielded)]
  }

  function OpsNodes(ops: seq<Op>): seq<Node>
    decreases ops, 0
  {
    if ops == [] then [] else OpNodes(ops[0]) + OpsNodes(ops[1..])
  }

  function FuncNodes(fn: Func): seq<Node> {
    OpsNodes(fn.body) + [ReturnNode(fn.ret)]
  }

  lemma {:induction false} OpsNodesAppend(a: seq<Op>, b: seq<Op>)
    ensures OpsNodes(a + b) == OpsNodes(a) + OpsNodes(b)
  {
    if a == [] {
      assert a + b == b;
    } else {
      assert (a + b)[1..] == a[1..] + b;
      OpsNodesAppend(a[1..], b);
      assert OpNodes(a[0]) + (OpsNodes(a[1..]) + OpsNodes(b)) == OpNodes(a[0]) + OpsNodes(a[1..]) + OpsNodes(b);
    }
  }

  // ---------------------------------------------------------------- what has an effect

  /** The op itself, regions apart, reads this value. */
  predicate ReadsIt(op: Op, v: Value) {
    (op.ViewOp? && v == op.base) || (op.CheckOp? && v == op.tensor) || (op.CallOp? && v in op.effect.reading)
  }

  /** A call writes its outputs, whether its effect lists them or not. */
  predicate WritesIt(op: Op, v: Value) {
    op.CallOp? && (v in op.effect.writing || v in op.outputs)
  }

  ghost predicate SomeReads(nodes: seq<Node>, v: Value) {
    exists n :: n in nodes && n.OpNode? && ReadsIt(n.op, v)
  }

  ghost predicate SomeWrites(nodes: seq<Node>, v: Value) {
    exists n :: n in nodes && n.OpNode? && WritesIt(n.op, v)
  }

  ghost predicate SomeOpaque(nodes: seq<Node>) {
    exists n :: n in nodes && n.OpNode? && n.op.CallOp? && n.op.effect.isOpaque
  }

  /** The effect is what the nodes do. */
  ghost predicate IsEffect(e: Effect, nodes: seq<Node>, v: Value) {
    (v in e.reading <==> SomeReads(nodes, v)) && (v in e.writing <==> SomeWrites(nodes, v)) &&
    (e.isOpaque <==> SomeOpaque(nodes))
  }

  lemma EffectsJoin(a: Effect, b: Effect, ns: seq<Node>, ms: seq<Node>, v: Value)
    requires IsEffect(a, ns, v) && IsEffect(b, ms, v)
    ensures IsEffect(Both(a, b), ns + ms, v)
  {
    hide ReadsIt, WritesIt;
    if SomeReads(ns, v) { var n :| n in ns && n.OpNode? && ReadsIt(n.op, v); assert n in ns + ms; }
    if SomeReads(ms, v) { var n :| n in ms && n.OpNode? && ReadsIt(n.op, v); assert n in ns + ms; }
    if SomeWrites(ns, v) { var n :| n in ns && n.OpNode? && WritesIt(n.op, v); assert n in ns + ms; }
    if SomeWrites(ms, v) { var n :| n in ms && n.OpNode? && WritesIt(n.op, v); assert n in ns + ms; }
    if SomeOpaque(ns) { var n :| n in ns && n.OpNode? && n.op.CallOp? && n.op.effect.isOpaque; assert n in ns + ms; }
    if SomeOpaque(ms) { var n :| n in ms && n.OpNode? && n.op.CallOp? && n.op.effect.isOpaque; assert n in ns + ms; }
  }

  lemma NoEffect(nodes: seq<Node>, v: Value)
    requires forall n <- nodes :: !n.OpNode? || (!n.op.CallOp? && !n.op.ViewOp? && !n.op.CheckOp?)
    ensures IsEffect(PURE, nodes, v)
  {
  }

  lemma {:induction false} RegionEffect(r: Region, v: Value)
    ensures IsEffect(OpsEffect(r.ops), RegionNodes(r), v)
    decreases r, 0
  {
    hide IsEffect;
    OpsEffectExactly(r.ops, v);
    NoEffect([YieldNode(r.yielded)], v);
    EffectsJoin(OpsEffect(r.ops), PURE, OpsNodes(r.ops), [YieldNode(r.yielded)], v);
    BothPure(OpsEffect(r.ops));
  }

  lemma BothPure(e: Effect)
    ensures Both(e, PURE) == e && Both(PURE, e) == e
  {
    assert e.reading + [] == e.reading && e.writing + [] == e.writing;
    assert [] + e.reading == e.reading && [] + e.writing == e.writing;
  }

  /** The effect of an op is that of the ops in it, however deep: no more and no less. */
  lemma {:induction false} EffectExactly(op: Op, v: Value)
    ensures IsEffect(EffectOf(op), OpNodes(op), v)
    decreases op, 1
  {
    match op
    case IfOp(_, _, thn, els) =>
      hide IsEffect;
      RegionEffect(thn, v);
      NoEffect([OpNode(op)], v);
      var inner := RegionNodes(thn);
      if els.Some? {
        RegionEffect(els.value, v);
        EffectsJoin(OpsEffect(thn.ops), OpsEffect(els.value.ops), inner, RegionNodes(els.value), v);
        EffectsJoin(PURE, EffectOf(op), [OpNode(op)], inner + RegionNodes(els.value), v);
      } else {
        assert inner + [] == inner;
        EffectsJoin(PURE, EffectOf(op), [OpNode(op)], inner, v);
      }
      BothPure(EffectOf(op));
    case ForOp(_, _, _, _, body) =>
      hide IsEffect;
      RegionEffect(body, v);
      NoEffect([OpNode(op)], v);
      EffectsJoin(PURE, EffectOf(op), [OpNode(op)], RegionNodes(body), v);
      BothPure(EffectOf(op));
    case _ =>
      assert OpNodes(op) == [OpNode(op)];
      assert forall n <- OpNodes(op) :: n == OpNode(op);
      assert OpNode(op) in OpNodes(op);
  }

  lemma {:induction false} OpsEffectExactly(ops: seq<Op>, v: Value)
    ensures IsEffect(OpsEffect(ops), OpsNodes(ops), v)
    decreases ops, 0
  {
    hide IsEffect;
    if ops == [] {
      NoEffect([], v);
    } else {
      EffectExactly(ops[0], v);
      OpsEffectExactly(ops[1..], v);
      EffectsJoin(EffectOf(ops[0]), OpsEffect(ops[1..]), OpNodes(ops[0]), OpsNodes(ops[1..]), v);
    }
  }

  /** iter_ops over a region. */
  method IterOps(r: Region) returns (nodes: seq<Node>)
    ensures nodes == RegionNodes(r)
    decreases r
  {
    nodes := [];
    for k := 0 to |r.ops|
      invariant nodes == OpsNodes(r.ops[..k])
    {
      var op := r.ops[k];
      var sub: seq<Node> := [OpNode(op)];
      match op {
        case IfOp(_, _, thn, els) =>
          var inner := IterOps(thn);
          sub := sub + inner;
          if els.Some? {
            inner := IterOps(els.value);
            sub := sub + inner;
          }
        case ForOp(_, _, _, _, body) =>
          var inner := IterOps(body);
          sub := sub + inner;
        case _ =>
      }
      assert sub == OpNodes(op);
      assert r.ops[..k + 1] == r.ops[..k] + [op];
      OpsNodesAppend(r.ops[..k], [op]);
      assert OpsNodes([op]) == OpNodes(op) + [];
      nodes := nodes + sub;
    }
    assert r.ops[..|r.ops|] == r.ops;
    nodes := nodes + [YieldNode(r.yielded)];
  }

  /** The op results a node refers to, through operands or effects. */
  function Refs(n: Node): seq<Value> {
    match n
    case OpNode(op) => Operands(op) + EffectOf(op).reading + EffectOf(op).writing
    case YieldNode(values) => values
    case ReturnNode(values) => values
  }

  // ---------------------------------------------------------------- stages

  function ResultsAt(n: Node): seq<nat> {
    if n.OpNode? then Results(n.op) else []
  }

  predicate NoRepeat(ids: seq<nat>) {
    forall i, j :: 0 <= i < j < |ids| ==> ids[i] != ids[j]
  }

  /** Every result object belongs to one op. */
  predicate UniqueResults(nodes: seq<Node>) {
    (forall i :: 0 <= i < |nodes| ==> NoRepeat(ResultsAt(nodes[i]))) &&
    forall i, j, id :: 0 <= i < j < |nodes| && id in ResultsAt(nodes[i]) ==> id !in ResultsAt(nodes[j])
  }

  /** Destination-passing code before storages are placed. */
  predicate Lowered(op: Op)
    decreases op, 1
  {
    match op
    case ComputeOp(_, _, _, _, _) => false
    case StorageOp(_, _, _) => false
    case PlaceOp(_, _, _, _) => false
    case ForOp(_, _, _, _, body) => LoweredOps(body.ops)
    case IfOp(_, _, thn, els) => LoweredOps(thn.ops) && (els.Some? ==> LoweredOps(els.value.ops))
    case _ => true
  }

  predicate LoweredOps(ops: seq<Op>)
    decreases ops, 0
  {
    ops == [] || (Lowered(ops[0]) && LoweredOps(ops[1..]))
  }
}

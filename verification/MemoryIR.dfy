/** The structured, memory-explicit IR that code generation consumes
    (python/devproc2/ir/nodes.py, python/devproc2/ir/ops.py).

    The shape the verifier enforces, one block per region with its only terminator at the end,
    is built into `Block` and `Function`. */
module MemoryIR {
  import opened Bytecode
  import opened Runtime
  import opened Builtins
  import opened PrimExprs
  import opened IRValues

  datatype IterArg = IterArg(v: nat, name: string, init: Value)

  datatype Block = Block(ops: seq<Op>, yielded: seq<Value>)

  datatype Op =
    | AllocStorageOp(res: nat, size: PrimExpr, alignment: int, devType: int, devId: int)
    | AllocTensorOp(res: nat, storage: Value, offset: int, shape: seq<PrimExpr>, dtype: DType)
    | TensorViewOp(res: nat, base: Value, byteOffset: Value, shape: seq<PrimExpr>, byteStride: int, baseOffset: int)
    | CallDPSOp(kind: CalleeKind, name: Name, inputs: seq<Value>, outputs: seq<Value>, launch: seq<PrimExpr>)
    | ShapeAssertOp(tensor: Value, dim: int, upper: int)
    | TupleOp(res: nat, elems: seq<Value>)
    | TupleGetItemOp(res: nat, tup: Value, index: int)
    | IfOp(results: seq<nat>, cond: Value, thn: Block, els: Option<Block>)
    | ForOp(results: seq<nat>, loopVar: nat, loopName: string,
            start: Value, end: Value, step: Value, iters: seq<IterArg>, body: Block)

  /** What is known statically about a parameter. */
  datatype ParamInfo = NotTensor | KnownShape(shape: seq<PrimExpr>) | UnknownShape

  datatype Param = Param(id: nat, name: string, info: ParamInfo)

  datatype Function = Function(params: seq<Param>, body: seq<Op>, ret: seq<Value>)

  function IterVars(iters: seq<IterArg>): (ids: seq<nat>)
    ensures |ids| == |iters|
    ensures forall k :: 0 <= k < |iters| ==> ids[k] == iters[k].v
  {
    seq(|iters|, k requires 0 <= k < |iters| => iters[k].v)
  }

  function IterInits(iters: seq<IterArg>): (vs: seq<Value>)
    ensures |vs| == |iters|
    ensures forall k :: 0 <= k < |iters| ==> vs[k] == iters[k].init
  {
    seq(|iters|, k requires 0 <= k < |iters| => iters[k].init)
  }

  /** Loop bounds given as constants are coerced to integers at compile time. */
  function RangeConst(c: Const): Option<int> {
    match c
    case Int(i) => Some(i)
    case Bool(b) => Some(if b then 1 else 0)
    case _ => None
  }

  /** The dimensions of one parameter that are variables not met in an earlier parameter. */
  function UnseenDims(shape: seq<PrimExpr>, seen: set<nat>, k: nat): (dims: seq<(nat, PrimExpr)>)
    requires k <= |shape|
    ensures forall d <- dims :: d.1.PrimVar?
    decreases |shape| - k
  {
    if k == |shape| then []
    else if shape[k].PrimVar? && shape[k].id !in seen then [(k, shape[k])] + UnseenDims(shape, seen, k + 1)
    else UnseenDims(shape, seen, k + 1)
  }

  function DimIds(dims: seq<(nat, PrimExpr)>): set<nat>
    requires forall d <- dims :: d.1.PrimVar?
  {
    set d <- dims :: d.1.id
  }

  function ParamIds(params: seq<Param>): (ids: seq<nat>)
    ensures |ids| == |params|
    ensures forall k :: 0 <= k < |params| ==> ids[k] == params[k].id
  {
    seq(|params|, k requires 0 <= k < |params| => params[k].id)
  }

  /** Every symbolic dimension that appears by itself in a parameter's shape. */
  function ShapeIds(params: seq<Param>): set<nat> {
    set p <- params, d <- (if p.info.KnownShape? then p.info.shape else []) | d.PrimVar? :: d.id
  }

  lemma DimIdsCons(dims: seq<(nat, PrimExpr)>)
    requires dims != [] && forall d <- dims :: d.1.PrimVar?
    ensures DimIds(dims) == {dims[0].1.id} + DimIds(dims[1..])
  {
    assert dims == [dims[0]] + dims[1..];
  }

  /** The dimensions entry code reads from one parameter. */
  function Unseen(p: Param, seen: set<nat>): (dims: seq<(nat, PrimExpr)>)
    ensures forall d <- dims :: d.1.PrimVar?
  {
    if p.info.KnownShape? then UnseenDims(p.info.shape, seen, 0) else []
  }

  lemma {:induction false} UnseenIds(shape: seq<PrimExpr>, seen: set<nat>, k: nat)
    requires k <= |shape|
    ensures DimIds(UnseenDims(shape, seen, k)) == set d <- shape[k..] | d.PrimVar? && d.id !in seen :: d.id
    decreases |shape| - k
  {
    if k < |shape| {
      UnseenIds(shape, seen, k + 1);
      assert shape[k..] == [shape[k]] + shape[k + 1..];
      if shape[k].PrimVar? && shape[k].id !in seen {
        DimIdsCons(UnseenDims(shape, seen, k));
        assert UnseenDims(shape, seen, k)[1..] == UnseenDims(shape, seen, k + 1);
      }
    }
  }

  lemma NoShapeIds()
    ensures ShapeIds([]) == {}
  {
  }

  lemma ShapeIdsCons(params: seq<Param>)
    requires params != []
    ensures ShapeIds(params) == ShapeIds([params[0]]) + ShapeIds(params[1..])
  {
    assert params == [params[0]] + params[1..];
  }

  /** After one parameter, its dimensions are known. */
  lemma UnseenCovers(p: Param, seen: set<nat>)
    ensures seen + DimIds(Unseen(p, seen)) == seen + ShapeIds([p])
  {
    if p.info.KnownShape? {
      UnseenIds(p.info.shape, seen, 0);
      assert p.info.shape[0..] == p.info.shape;
      forall id | id in ShapeIds([p]) ensures id in seen + DimIds(Unseen(p, seen)) {
        var q, d :| q in [p] && d in (if q.info.KnownShape? then q.info.shape else []) && d.PrimVar? && d.id == id;
        assert q == p;
      }
      forall id | id in DimIds(Unseen(p, seen)) ensures id in ShapeIds([p]) {
        var d :| d in p.info.shape && d.PrimVar? && d.id == id;
        assert p in [p];
      }
    } else {
      assert ShapeIds([p]) == {};
    }
  }

  predicate Distinct(ids: seq<nat>) {
    forall i, j :: 0 <= i < j < |ids| ==> ids[i] != ids[j]
  }
}

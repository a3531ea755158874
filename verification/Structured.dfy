/** What a structured program means: an evaluator that knows nothing of registers or jumps.

    Loops may diverge, so evaluation takes fuel, one unit per loop iteration. */
module Structured {
  import opened Bytecode
  import opened Runtime
  import opened Builtins
  import opened PrimExprs
  import opened IRValues
  import opened MemoryIR

  /** The index of a loop with the bounds it was entered with. */
  datatype Count = Count(i: Val, end: Val, step: Val)

  datatype Outcome<+T> = Ok(value: T, w: World) | Raised(w: World) | OutOfFuel

  // ---------------------------------------------------------------- values

  function EvalValue(h: Host, v: Value, E: Env): Option<Val> {
    if v.Imm? then Some(Load(h, v.c)) else if v.id in E then Some(E[v.id]) else None
  }

  function EvalValues(h: Host, vs: seq<Value>, E: Env): (r: Option<seq<Val>>)
    ensures r.Some? ==> |r.value| == |vs|
  {
    if vs == [] then Some([])
    else
      var x, rest := EvalValue(h, vs[0], E), EvalValues(h, vs[1..], E);
      if x.Some? && rest.Some? then Some([x.value] + rest.value) else None
  }

  function BindAll(E: Env, ids: seq<nat>, vals: seq<Val>): Env
    requires |ids| == |vals|
    decreases |ids|
  {
    if ids == [] then E else BindAll(E[ids[0] := vals[0]], ids[1..], vals[1..])
  }

  // ---------------------------------------------------------------- straight-line ops

  function Perform(M: Machine, kind: CalleeKind, name: Name, args: seq<Val>, launch: seq<int>, w: World): Outcome<Val> {
    var r := Dispatch(M.host, M.ext, kind, name, args, launch, w);
    match r.result
    case Some(v) => Ok(v, r.w)
    case None => Raised(r.w)
  }

  function Define(res: nat, E: Env, r: Outcome<Val>): Outcome<Env> {
    match r
    case Ok(v, w) => Ok(E[res := v], w)
    case Raised(w) => Raised(w)
    case OutOfFuel => OutOfFuel
  }

  function Discard(E: Env, r: Outcome<Val>): Outcome<Env> {
    match r
    case Ok(_, w) => Ok(E, w)
    case Raised(w) => Raised(w)
    case OutOfFuel => OutOfFuel
  }

  function Pure(M: Machine, b: CoreBuiltin, args: seq<Val>, w: World): Outcome<Val> {
    Perform(M, Builtin, Core(b), args, [], w)
  }

  /** The byte offset of a view: scaled and displaced only when the op asks for it. */
  function ViewOffset(h: Host, v: Val, stride: int, base: int): Option<Val> {
    if stride == 1 && base == 0 then Some(v)
    else
      var i := AsInt(h, v);
      if i.Some? then Some(VInt(i.value * stride + base)) else None
  }

  function EvalSimple(M: Machine, op: Op, E: Env, w: World): Outcome<Env>
    requires !op.IfOp? && !op.ForOp?
  {
    match op
    case AllocStorageOp(res, size, alignment, devType, devId) =>
      var n := EvalPrim(M.host, size, E);
      if n.None? then Raised(w)
      else Define(res, E, Pure(M, AllocStorage, [n.value, VInt(alignment), VInt(devType), VInt(devId)], w))
    case AllocTensorOp(res, storage, offset, shape, dtype) =>
      var s, dims := EvalValue(M.host, storage, E), EvalShape(M.host, shape, E);
      if s.None? || dims.None? then Raised(w)
      else Define(res, E, Pure(M, AllocTensor,
             [s.value, VInt(offset), VShape(dims.value), VInt(dtype.code), VInt(dtype.bits), VInt(dtype.lanes)], w))
    case TensorViewOp(res, base, byteOffset, shape, stride, baseOffset) =>
      var b, o, dims := EvalValue(M.host, base, E), EvalValue(M.host, byteOffset, E), EvalShape(M.host, shape, E);
      if b.None? || o.None? || dims.None? then Raised(w)
      else
        var off := ViewOffset(M.host, o.value, stride, baseOffset);
        if off.None? then Raised(w)
        else Define(res, E, Pure(M, TensorView, [b.value, off.value, VShape(dims.value)], w))
    case CallDPSOp(kind, name, inputs, outputs, launch) =>
      var xs, ys, ls := EvalValues(M.host, inputs, E), EvalValues(M.host, outputs, E), EvalPrims(M.host, launch, E);
      if xs.None? || ys.None? || ls.None? then Raised(w)
      else
        var dims := LaunchArgs(M.host, ls.value);
        if dims.None? then Raised(w) else Discard(E, Perform(M, kind, name, xs.value + ys.value, dims.value, w))
    case ShapeAssertOp(tensor, dim, upper) =>
      var t := EvalValue(M.host, tensor, E);
      if t.None? then Raised(w) else Discard(E, Pure(M, ShapeAssert, [t.value, VInt(dim), VInt(upper)], w))
    case TupleOp(res, elems) =>
      var xs := EvalValues(M.host, elems, E);
      if xs.None? then Raised(w) else Define(res, E, Pure(M, MakeTuple, xs.value, w))
    case TupleGetItemOp(res, tup, index) =>
      var t := EvalValue(M.host, tup, E);
      if t.None? then Raised(w) else Define(res, E, Pure(M, TupleGetItem, [t.value, VInt(index)], w))
  }

  // ---------------------------------------------------------------- control flow

  function EvalBound(h: Host, v: Value, E: Env): Option<Val> {
    if v.Imm? then
      var i := RangeConst(v.c);
      if i.Some? then Some(VInt(i.value)) else None
    else EvalValue(h, v, E)
  }

  /** The values a block yields, given how its ops ended. */
  function Yielded(h: Host, values: seq<Value>, r: Outcome<Env>): Outcome<seq<Val>> {
    match r
    case Ok(E, w) =>
      var vs := EvalValues(h, values, E);
      if vs.Some? then Ok(vs.value, w) else Raised(w)
    case Raised(w) => Raised(w)
    case OutOfFuel => OutOfFuel
  }

  /** Binding a region's results in the enclosing scope; the region's own names are gone. */
  function BindResults(E: Env, results: seq<nat>, r: Outcome<seq<Val>>): Outcome<Env> {
    match r
    case Ok(vs, w) => if |vs| == |results| then Ok(BindAll(E, results, vs), w) else Raised(w)
    case Raised(w) => Raised(w)
    case OutOfFuel => OutOfFuel
  }

  function EvalOp(M: Machine, op: Op, E: Env, w: World, fuel: nat): Outcome<Env>
    decreases op, fuel, 1
  {
    if op.IfOp? then
      var c := EvalValue(M.host, op.cond, E);
      var taken := if c.Some? then AsBool(M.host, c.value) else None;
      if taken.None? then Raised(w)
      else if taken.value then BindResults(E, op.results, EvalBlock(M, op.thn, E, w, fuel))
      else if op.els.Some? then BindResults(E, op.results, EvalBlock(M, op.els.value, E, w, fuel))
      else Ok(E, w)
    else if op.ForOp? then
      var first, last := EvalBound(M.host, op.start, E), EvalBound(M.host, op.end, E);
      var inc, inits := EvalBound(M.host, op.step, E), EvalValues(M.host, IterInits(op.iters), E);
      if first.None? || last.None? || inc.None? || inits.None? then Raised(w)
      else
        var r := EvalLoop(M, op, Count(first.value, last.value, inc.value), inits.value, E, w, fuel);
        if op.results == [] && r.Ok? then Ok(E, r.w) else BindResults(E, op.results, r)
    else EvalSimple(M, op, E, w)
  }

  function EvalBlock(M: Machine, b: Block, E: Env, w: World, fuel: nat): Outcome<seq<Val>>
    decreases b, fuel, 0
  {
    Yielded(M.host, b.yielded, EvalOps(M, b.ops, E, w, fuel))
  }

  function EvalOps(M: Machine, ops: seq<Op>, E: Env, w: World, fuel: nat): Outcome<Env>
    decreases ops, fuel, 0
  {
    if ops == [] then Ok(E, w)
    else
      var r := EvalOp(M, ops[0], E, w, fuel);
      if r.Ok? then EvalOps(M, ops[1..], r.value, r.w, fuel) else r
  }

  /** The loop from a point where its counter is `c` and the carried values are `vals`. */
  function EvalLoop(M: Machine, op: Op, c: Count, vals: seq<Val>, E: Env, w: World, fuel: nat): Outcome<seq<Val>>
    requires op.ForOp?
    decreases op, fuel, 0
  {
    if |vals| != |op.iters| then Raised(w)
    else
      var more := CallBuiltin(M.host, LtI64, [c.i, c.end]);
      if more.None? || !more.value.VBool? then Raised(w)
      else if !more.value.b then Ok(vals, w)
      else if fuel == 0 then OutOfFuel
      else
        var r := EvalBlock(M, op.body, BindAll(E[op.loopVar := c.i], IterVars(op.iters), vals), w, fuel - 1);
        if !r.Ok? then r
        else
          var i' := CallBuiltin(M.host, AddI64, [c.i, c.step]);
          if i'.None? then Raised(r.w)
          else EvalLoop(M, op, Count(i'.value, c.end, c.step), r.value, E, r.w, fuel - 1)
  }

  // ---------------------------------------------------------------- functions

  /** Reads each dimension from the tensor's shape and checks it against its upper bound. */
  function EvalDims(h: Host, dims: seq<(nat, PrimExpr)>, shape: Val, E: Env): Option<Env>
    requires forall d <- dims :: d.1.PrimVar?
  {
    if dims == [] then Some(E)
    else
      var v, upper := CallBuiltin(h, GetShapeDim, [shape, VInt(dims[0].0)]), dims[0].1.upper;
      if v.None? then None
      else if upper.Some? && CallBuiltin(h, AssertLeI64, [v.value, VInt(upper.value)]).None? then None
      else EvalDims(h, dims[1..], shape, E[dims[0].1.id := v.value])
  }

  function EvalSetup(h: Host, params: seq<Param>, seen: set<nat>, E: Env): Option<Env> {
    if params == [] then Some(E)
    else
      var unseen := Unseen(params[0], seen);
      if unseen == [] then EvalSetup(h, params[1..], seen, E)
      else if params[0].id !in E then None
      else
        var shape := CallBuiltin(h, ShapeOf, [E[params[0].id]]);
        var E' := if shape.Some? then EvalDims(h, unseen, shape.value, E) else None;
        if E'.Some? then EvalSetup(h, params[1..], seen + DimIds(unseen), E'.value) else None
  }

  function Returned(h: Host, ret: seq<Value>, r: Outcome<Env>): Outcome<Val> {
    match r
    case Ok(E, w) =>
      if ret == [] then Ok(VNull, w)
      else (match EvalValue(h, ret[0], E) case Some(v) => Ok(v, w) case None => Raised(w))
    case Raised(w) => Raised(w)
    case OutOfFuel => OutOfFuel
  }

  function EvalFunction(M: Machine, fn: Function, args: seq<Val>, w: World, fuel: nat): Outcome<Val>
    requires |args| == |fn.params|
  {
    match EvalSetup(M.host, fn.params, {}, BindAll(map[], ParamIds(fn.params), args))
    case None => Raised(w)
    case Some(E) => Returned(M.host, fn.ret, EvalOps(M, fn.body, E, w, fuel))
  }

  /** What one dimension adds: its value, or nothing if it exceeds its bound. */
  ghost function EvalDim(h: Host, dim: (nat, PrimExpr), shape: Val, E: Env): Option<Env>
    requires dim.1.PrimVar?
  {
    match CallBuiltin(h, GetShapeDim, [shape, VInt(dim.0)])
    case None => None
    case Some(v) =>
      if dim.1.upper.Some? && CallBuiltin(h, AssertLeI64, [v, VInt(dim.1.upper.value)]).None? then None
      else Some(E[dim.1.id := v])
  }

  /** The comparison looks at its first two arguments; the third is the message. */
  lemma AssertIgnoresMessage(h: Host, v: Val, bound: Val, msg: Val)
    ensures CallBuiltin(h, AssertLeI64, [v, bound, msg]) == CallBuiltin(h, AssertLeI64, [v, bound])
  {
  }

  lemma {:induction false} EvalDimsCons(h: Host, dims: seq<(nat, PrimExpr)>, shape: Val, E: Env)
    requires dims != [] && forall d <- dims :: d.1.PrimVar?
    ensures EvalDims(h, dims, shape, E) ==
      match EvalDim(h, dims[0], shape, E)
      case Some(E') => EvalDims(h, dims[1..], shape, E')
      case None => None
    ensures EvalDim(h, dims[0], shape, E).Some? ==> EvalDim(h, dims[0], shape, E).value.Keys == E.Keys + {dims[0].1.id}
  {
  }

  lemma {:induction false} EvalDimsKeys(h: Host, dims: seq<(nat, PrimExpr)>, shape: Val, E: Env)
    requires forall d <- dims :: d.1.PrimVar?
    ensures EvalDims(h, dims, shape, E).Some? ==> EvalDims(h, dims, shape, E).value.Keys == E.Keys + DimIds(dims)
    decreases |dims|
  {
    if dims != [] {
      EvalDimsCons(h, dims, shape, E);
      DimIdsCons(dims);
      var d := EvalDim(h, dims[0], shape, E);
      if d.Some? { EvalDimsKeys(h, dims[1..], shape, d.value); }
    }
  }

  lemma {:induction false} EvalSetupCons(h: Host, params: seq<Param>, seen: set<nat>, E: Env)
    requires params != [] && params[0].id in E
    ensures var unseen := Unseen(params[0], seen);
      EvalSetup(h, params, seen, E) ==
      if unseen == [] then EvalSetup(h, params[1..], seen, E)
      else match CallBuiltin(h, ShapeOf, [E[params[0].id]])
        case None => None
        case Some(shape) =>
          match EvalDims(h, unseen, shape, E)
          case None => None
          case Some(E') => EvalSetup(h, params[1..], seen + DimIds(unseen), E')
  {
  }

  /** Entry code makes exactly the symbolic dimensions visible. */
  lemma {:induction false} EvalSetupKeys(h: Host, params: seq<Param>, seen: set<nat>, E: Env)
    requires seen <= E.Keys && forall p <- params :: p.id in E
    ensures EvalSetup(h, params, seen, E).Some? ==>
      EvalSetup(h, params, seen, E).value.Keys == E.Keys + ShapeIds(params)
    decreases |params|
  {
    hide EvalSetup, CallBuiltin;
    if params == [] {
      EvalSetupNone(h, seen, E);
    } else {
      var unseen := Unseen(params[0], seen);
      EvalSetupCons(h, params, seen, E);
      UnseenCovers(params[0], seen);
      ShapeIdsCons(params);
      if unseen == [] {
        EvalSetupKeys(h, params[1..], seen, E);
      } else {
        var sh := CallBuiltin(h, ShapeOf, [E[params[0].id]]);
        if sh.Some? && EvalDims(h, unseen, sh.value, E).Some? {
          EvalDimsKeys(h, unseen, sh.value, E);
          EvalSetupKeys(h, params[1..], seen + DimIds(unseen), EvalDims(h, unseen, sh.value, E).value);
        }
      }
    }
  }

  lemma {:induction false} EvalSetupNone(h: Host, seen: set<nat>, E: Env)
    ensures EvalSetup(h, [], seen, E) == Some(E)
  {
  }

  lemma {:induction false} BindAllOther(E: Env, ids: seq<nat>, vals: seq<Val>, id: nat)
    requires |ids| == |vals| && id !in ids && id in E
    ensures id in BindAll(E, ids, vals) && BindAll(E, ids, vals)[id] == E[id]
    decreases |ids|
  {
    if ids != [] { BindAllOther(E[ids[0] := vals[0]], ids[1..], vals[1..], id); }
  }

  lemma {:induction false} BindAllAt(E: Env, ids: seq<nat>, vals: seq<Val>, k: nat)
    requires |ids| == |vals| && Distinct(ids) && k < |ids|
    ensures ids[k] in BindAll(E, ids, vals) && BindAll(E, ids, vals)[ids[k]] == vals[k]
    decreases |ids|
  {
    if k == 0 {
      BindAllOther(E[ids[0] := vals[0]], ids[1..], vals[1..], ids[0]);
    } else {
      BindAllAt(E[ids[0] := vals[0]], ids[1..], vals[1..], k - 1);
    }
  }

  lemma {:induction false} EvalOpsAppend(M: Machine, a: seq<Op>, b: seq<Op>, E: Env, w: World, fuel: nat)
    ensures EvalOps(M, a + b, E, w, fuel) ==
      var r := EvalOps(M, a, E, w, fuel); if r.Ok? then EvalOps(M, b, r.value, r.w, fuel) else r
    decreases |a|
  {
    hide EvalOp;
    if a == [] {
      assert a + b == b;
    } else {
      assert (a + b)[1..] == a[1..] + b;
      var r := EvalOp(M, a[0], E, w, fuel);
      if r.Ok? { EvalOpsAppend(M, a[1..], b, r.value, r.w, fuel); }
    }
  }
}

/** Symbolic integer expressions and their values (python/devproc2/ir/prim_expr.py). */
module PrimExprs {
  import opened Bytecode
  import opened Runtime

  datatype BinOp = Add | Sub | Mul | FloorDiv | CeilDiv | Min | Max | EQ | LT | LE | GT | GE

  /** A variable is identified by object identity (`id`); its name is only a label. */
  datatype PrimExpr =
    | IntImm(value: int)
    | PrimVar(id: nat, name: string, upper: Option<int>)
    | Bin(op: BinOp, lhs: PrimExpr, rhs: PrimExpr)

  type Env = map<nat, Val>

  function BuiltinOf(op: BinOp): Option<CoreBuiltin> {
    match op
    case Add => Some(AddI64)
    case Sub => Some(SubI64)
    case Mul => Some(MulI64)
    case FloorDiv => Some(FloorDivI64)
    case CeilDiv => Some(CeilDivI64)
    case Min => Some(MinI64)
    case Max => Some(MaxI64)
    case _ => None
  }

  function EvalPrim(h: Host, e: PrimExpr, E: Env): Option<Val> {
    match e
    case IntImm(i) => Some(VInt(i))
    case PrimVar(id, _, _) => if id in E then Some(E[id]) else None
    case Bin(op, l, r) =>
      var x, y, b := EvalPrim(h, l, E), EvalPrim(h, r, E), BuiltinOf(op);
      if x.Some? && y.Some? && b.Some? then Arithmetic(h, b.value, [x.value, y.value]) else None
  }

  function EvalPrims(h: Host, es: seq<PrimExpr>, E: Env): (r: Option<seq<Val>>)
    ensures r.Some? ==> |r.value| == |es|
  {
    if es == [] then Some([])
    else
      var x, rest := EvalPrim(h, es[0], E), EvalPrims(h, es[1..], E);
      if x.Some? && rest.Some? then Some([x.value] + rest.value) else None
  }

  /** A shape: every dimension as an integer. */
  function EvalShape(h: Host, es: seq<PrimExpr>, E: Env): Option<seq<int>> {
    var vs := EvalPrims(h, es, E);
    if vs.Some? then AsInts(h, vs.value) else None
  }
}

/** Run-time values and integer arithmetic (runtime/src/builtins.cc, python/devproc2/vm/interpreter.py). */
module Runtime {
  import opened Bytecode

  /** The builtins the compiler itself emits.  `Named` is any other callee. */
  datatype CoreBuiltin =
    | AllocStorage | AllocTensor | TensorView
    | MakeShape | MakeTuple | TupleGetItem | Identity
    | LtI64 | AddI64 | SubI64 | MulI64 | FloorDivI64 | CeilDivI64 | MinI64 | MaxI64
    | ShapeAssert | ShapeOf | GetShapeDim | AssertLeI64

  datatype DType = DType(code: int, bits: int, lanes: int)

  datatype Val =
    | VNull
    | VInt(i: int)
    | VFloat(bits: nat)
    | VBool(b: bool)
    | VStr(s: string)
    | VShape(dims: seq<int>)
    | VTuple(fields: seq<Val>)
    | VStorage(handle: nat, nbytes: int)
    | VTensor(store: Val, offset: int, shape: seq<int>, dtype: DType)
    | VObject(id: nat)

  /** The two hosts differ in coercions, division of negatives and tensor views. */
  datatype Host = Cpp | Py

  // ---------------------------------------------------------------- coercions

  function AsInt(h: Host, v: Val): Option<int> {
    match v
    case VInt(i) => Some(i)
    case VBool(b) => if h == Py then Some(if b then 1 else 0) else None
    case _ => None
  }

  function AsInts(h: Host, vs: seq<Val>): (r: Option<seq<int>>)
    ensures r.Some? ==> |r.value| == |vs|
  {
    if vs == [] then Some([])
    else
      var i := AsInt(h, vs[0]);
      var rest := AsInts(h, vs[1..]);
      if i.Some? && rest.Some? then Some([i.value] + rest.value) else None
  }

  // ---------------------------------------------------------------- arithmetic

  /** C++ division truncates toward zero. */
  function TruncDiv(a: int, b: int): int
    requires b != 0
  {
    if a >= 0 then a / b else -((-a) / b)
  }

  /** Python division floors. */
  function FloorDiv(a: int, b: int): int
    requires b != 0
  {
    if b > 0 then a / b else (-a) / (-b)
  }

  function HostDiv(h: Host, a: int, b: int): int
    requires b != 0
  {
    if h == Cpp then TruncDiv(a, b) else FloorDiv(a, b)
  }

  function Product(dims: seq<int>): int {
    if dims == [] then 1 else dims[0] * Product(dims[1..])
  }

  /** Bytes a tensor of this shape and element type occupies. */
  function PayloadBytes(dims: seq<int>, dtype: DType): int {
    (Product(dims) * dtype.bits * dtype.lanes + 7) / 8
  }

  function IntOp(h: Host, b: CoreBuiltin, x: int, y: int): Option<Val> {
    match b
    case LtI64 => Some(VBool(x < y))
    case AddI64 => Some(VInt(x + y))
    case SubI64 => Some(VInt(x - y))
    case MulI64 => Some(VInt(x * y))
    case FloorDivI64 => if y == 0 then None else Some(VInt(HostDiv(h, x, y)))
    case CeilDivI64 =>
      if (if h == Cpp then y <= 0 else y == 0) then None else Some(VInt(HostDiv(h, x + y - 1, y)))
    case MinI64 => Some(VInt(if x < y then x else y))
    case MaxI64 => Some(VInt(if x > y then x else y))
    case AssertLeI64 => if x > y then None else Some(VNull)
    case _ => None
  }

  function Arithmetic(h: Host, b: CoreBuiltin, args: seq<Val>): Option<Val> {
    if |args| < 2 || AsInt(h, args[0]).None? || AsInt(h, args[1]).None? then None
    else IntOp(h, b, AsInt(h, args[0]).value, AsInt(h, args[1]).value)
  }

}

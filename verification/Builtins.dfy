/** Calls of the core builtins and the boundary to foreign code
    (runtime/src/builtins.cc, python/devproc2/vm/interpreter.py). */
module Builtins {
  import opened Bytecode
  import opened Runtime

  datatype Name = Core(b: CoreBuiltin) | Named(s: string)

  type Entry = FunctionEntry<Name>
  type Program = Executable<Name>

  function FindFunc(funcs: seq<Entry>, name: Name, k: nat): (i: nat)
    requires k <= |funcs|
    ensures k <= i <= |funcs|
    ensures i < |funcs| ==> funcs[i].name == name
    ensures forall j :: k <= j < i ==> funcs[j].name != name
    decreases |funcs| - k
  {
    if k == |funcs| || funcs[k].name == name then k else FindFunc(funcs, name, k + 1)
  }

  /** A pooled constant as a value: the C++ host has no strings, its reader makes them null. */
  function Load(h: Host, c: Const): Val {
    match c
    case Null => VNull
    case Int(i) => VInt(i)
    case Float(bits) => VFloat(bits)
    case Bool(b) => VBool(b)
    case Str(s) => if h == Cpp then VNull else VStr(s)
  }

  // ---------------------------------------------------------------- coercions

  function AsBool(h: Host, v: Val): Option<bool> {
    if v.VBool? then Some(v.b)
    else if h == Cpp then None
    else match v
      case VNull => Some(false)
      case VInt(i) => Some(i != 0)
      case VFloat(bits) => Some(bits % NEGATIVE_ZERO != 0)
      case VStr(s) => Some(s != "")
      case VShape(dims) => Some(dims != [])
      case VTuple(fields) => Some(fields != [])
      case _ => Some(true)
  }

  function AsDims(h: Host, v: Val): Option<seq<int>> {
    match v
    case VShape(dims) => Some(dims)
    case VTuple(fields) => if h == Py then AsInts(h, fields) else None
    case _ => None
  }

  /** Python represents a shape as a tuple of ints. */
  function AsFields(h: Host, v: Val): Option<seq<Val>> {
    match v
    case VTuple(fields) => Some(fields)
    case VShape(dims) => if h == Py then Some(seq(|dims|, k requires 0 <= k < |dims| => VInt(dims[k]))) else None
    case _ => None
  }

  predicate IsObject(v: Val) {
    !v.VNull? && !v.VInt? && !v.VFloat? && !v.VBool? && !v.VStr?
  }

  // ---------------------------------------------------------------- builtins

  /** Storage allocation is foreign on both hosts; a view is foreign where the host has no such builtin. */
  predicate Interpreted(h: Host, b: CoreBuiltin) {
    b != AllocStorage && (b == TensorView ==> h == Cpp)
  }

  /** A sequence position; Python counts negative positions from the end. */
  function Position(h: Host, i: int, n: nat): Option<nat> {
    if 0 <= i < n then Some(i)
    else if h == Py && i < 0 && 0 <= i + n then Some(i + n)
    else None
  }

  function Wrap(h: Host, x: int, m: int): int
    requires m > 0
  {
    if h == Cpp then x % m else x
  }

  function TensorFromStorage(h: Host, args: seq<Val>): Option<Val>
    requires |args| == 6
  {
    var offset, dims := AsInt(h, args[1]), AsDims(h, args[2]);
    var code, bits, lanes := AsInt(h, args[3]), AsInt(h, args[4]), AsInt(h, args[5]);
    if offset.None? || dims.None? || code.None? || bits.None? || lanes.None? then None
    else if h == Cpp && (!args[0].VStorage? || offset.value < 0) then None
    else Some(VTensor(args[0], offset.value, dims.value,
                      DType(Wrap(h, code.value, 256), Wrap(h, bits.value, 256), Wrap(h, lanes.value, 65536))))
  }

  /** A view shares the storage and element type of its base and must lie inside the storage. */
  function View(base: Val, offset: int, dims: seq<int>): Option<Val> {
    if !base.VTensor? || offset < 0 then None
    else if base.store.VStorage? && base.store.nbytes > 0 &&
            (base.offset < 0 || base.offset + offset + PayloadBytes(dims, base.dtype) > base.store.nbytes) then None
    else Some(VTensor(base.store, base.offset + offset, dims, base.dtype))
  }

  function ShapeCheck(h: Host, tensor: Val, dim: int, upper: int): Option<Val> {
    if !tensor.VTensor? then None
    else
      match Position(h, dim, |tensor.shape|)
      case Some(p) => if tensor.shape[p] > upper then None else Some(VNull)
      case None => None
  }

  function FieldAt(h: Host, tup: Val, index: Val): Option<Val> {
    var fields, i := AsFields(h, tup), AsInt(h, index);
    if fields.None? || i.None? then None
    else
      var p := Position(h, i.value, |fields.value|);
      if p.Some? then Some(fields.value[p.value]) else None
  }

  function DimAt(h: Host, shape: Val, index: Val): Option<Val> {
    var dims, i := AsDims(h, shape), AsInt(h, index);
    if dims.None? || i.None? then None
    else
      var p := Position(h, i.value, |dims.value|);
      if p.Some? then Some(VInt(dims.value[p.value])) else None
  }

  /** The result of an interpreted builtin; None when it raises. */
  function CallBuiltin(h: Host, b: CoreBuiltin, args: seq<Val>): Option<Val> {
    match b
    case Identity => if |args| >= 1 then Some(args[0]) else None
    case MakeShape => (match AsInts(h, args) case Some(dims) => Some(VShape(dims)) case None => None)
    case MakeTuple => if h == Py || forall a <- args :: IsObject(a) then Some(VTuple(args)) else None
    case TupleGetItem => if |args| == 2 then FieldAt(h, args[0], args[1]) else None
    case ShapeOf => if |args| == 1 && args[0].VTensor? then Some(VShape(args[0].shape)) else None
    case GetShapeDim => if |args| == 2 then DimAt(h, args[0], args[1]) else None
    case ShapeAssert =>
      if |args| != 3 || AsInt(h, args[1]).None? || AsInt(h, args[2]).None? then None
      else ShapeCheck(h, args[0], AsInt(h, args[1]).value, AsInt(h, args[2]).value)
    case AllocTensor => if |args| == 6 then TensorFromStorage(h, args) else None
    case TensorView =>
      if |args| != 3 || AsInt(h, args[1]).None? || !args[2].VShape? then None
      else View(args[0], AsInt(h, args[1]).value, args[2].dims)
    case AllocStorage => None
    case _ => Arithmetic(h, b, args)
  }

  // ---------------------------------------------------------------- foreign calls

  /** One foreign call as the outside world sees it. */
  datatype Event = Event(kind: CalleeKind, name: Name, args: seq<Val>, launch: seq<int>)

  /** Everything the outside world knows is which foreign calls happened, in order. */
  type World = seq<Event>

  /** Foreign code: what a call returns after a given history; None when it raises. */
  type Foreign = (World, Event) -> Option<Val>

  datatype CallResult = CallResult(result: Option<Val>, w: World)

  /** VMState::DispatchExternal and VMInterpreter._dispatch_external. */
  function Dispatch(h: Host, ext: Foreign, kind: CalleeKind, name: Name, args: seq<Val>, launch: seq<int>, w: World)
    : CallResult {
    if kind == Builtin && name.Core? && Interpreted(h, name.b) then
      CallResult(CallBuiltin(h, name.b, args), w)
    else
      var e := Event(kind, name, args, launch);
      CallResult(ext(w, e), w + [e])
  }
  datatype Machine = Machine(host: Host, ext: Foreign)

  /** Kernels get their launch dimensions from the C++ host only. */
  function LaunchArgs(h: Host, vals: seq<Val>): Option<seq<int>> {
    if h == Cpp then AsInts(h, vals) else Some([])
  }
}

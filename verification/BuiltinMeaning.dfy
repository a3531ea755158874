/** What every builtin answers, stated apart from how it is computed
    (runtime/src/builtins.cc, python/devproc2/vm/interpreter.py). */
module BuiltinMeaning {
  import opened Bytecode
  import opened Runtime
  import opened Builtins
  import opened PrimExprs
  import opened PrimMeaning

  // ---------------------------------------------------------------- arguments

  /** The argument is this integer; Python takes a truth value for one. */
  predicate IntIs(h: Host, v: Val, i: int) {
    v == VInt(i) || (h == Py && ((v == VBool(false) && i == 0) || (v == VBool(true) && i == 1)))
  }

  /** The argument is this shape; Python takes a tuple of integers for one. */
  predicate ShapeIs(h: Host, v: Val, dims: seq<int>) {
    v == VShape(dims) || (h == Py && v.VTuple? && IntsAre(h, v.fields, dims))
  }

  predicate IntsAre(h: Host, vs: seq<Val>, ints: seq<int>) {
    |vs| == |ints| && forall k :: 0 <= k < |vs| ==> IntIs(h, vs[k], ints[k])
  }

  /** The argument has these fields; Python takes a shape for a tuple. */
  predicate FieldsAre(h: Host, v: Val, fields: seq<Val>) {
    v == VTuple(fields) ||
    (h == Py && v.VShape? && |v.dims| == |fields| && forall k :: 0 <= k < |fields| ==> fields[k] == VInt(v.dims[k]))
  }

  /** Position i of n is place p; Python also counts from the end, the last place being -1. */
  predicate PlaceIs(h: Host, i: int, n: nat, p: nat) {
    p < n && (i == p || (h == Py && i == p - n))
  }

  /** A byte-sized or larger field takes a number as it is, or what is left of it in C++. */
  ghost predicate FieldIs(h: Host, x: int, m: nat, field: int) {
    if h == Cpp then 0 <= field < m && exists q :: x == q * m + field else field == x
  }

  /** Tuples of the C++ host hold references. */
  predicate IsReference(v: Val) {
    v.VShape? || v.VTuple? || v.VStorage? || v.VTensor? || v.VObject?
  }

  // ---------------------------------------------------------------- answers

  ghost predicate TwoInts(h: Host, args: seq<Val>, x: int, y: int) {
    |args| >= 2 && IntIs(h, args[0], x) && IntIs(h, args[1], y)
  }

  ghost predicate Computes(h: Host, op: BinOp, args: seq<Val>, v: Val) {
    v.VInt? && exists x, y :: TwoInts(h, args, x, y) && OpGives(h, op, x, y, v.i)
  }

  ghost predicate Picks(h: Host, fields: seq<Val>, index: Val, v: Val) {
    exists i, p: nat :: IntIs(h, index, i) && PlaceIs(h, i, |fields|, p) && v == fields[p]
  }

  /** The tensor has this dimension and it is at most the bound. */
  ghost predicate WithinBound(h: Host, shape: seq<int>, dim: Val, upper: Val) {
    exists i, p: nat, u :: IntIs(h, dim, i) && IntIs(h, upper, u) && PlaceIs(h, i, |shape|, p) && shape[p] <= u
  }

  /** A field of an element type. */
  ghost predicate PartIs(h: Host, v: Val, m: nat, field: int) {
    exists x :: IntIs(h, v, x) && FieldIs(h, x, m, field)
  }

  ghost predicate ElementTypeIs(h: Host, code: Val, bits: Val, lanes: Val, dtype: DType) {
    PartIs(h, code, 256, dtype.code) && PartIs(h, bits, 256, dtype.bits) && PartIs(h, lanes, 65536, dtype.lanes)
  }

  /** The bits of the elements are within the bytes of a storage that has any. */
  predicate InStorage(store: Val, offset: int, shape: seq<int>, dtype: DType) {
    store.VStorage? && store.nbytes > 0 ==> Product(shape) * dtype.bits * dtype.lanes <= 8 * (store.nbytes - offset)
  }

  /** A view lies forward of its base and within the storage. */
  ghost predicate IsViewOf(h: Host, base: Val, offset: Val, shape: Val, v: Val) {
    base.VTensor? && v.VTensor? && v.store == base.store && v.dtype == base.dtype && shape == VShape(v.shape) &&
    base.offset <= v.offset && IntIs(h, offset, v.offset - base.offset) &&
    InStorage(v.store, v.offset, v.shape, v.dtype) && (v.store.VStorage? && v.store.nbytes > 0 ==> base.offset >= 0)
  }

  ghost predicate Answers(h: Host, b: CoreBuiltin, args: seq<Val>, v: Val) {
    match b
    case Identity => args != [] && v == args[0]
    case MakeShape => v.VShape? && IntsAre(h, args, v.dims)
    case MakeTuple => v == VTuple(args) && (h == Cpp ==> forall a <- args :: IsReference(a))
    case TupleGetItem => |args| == 2 && exists fields :: FieldsAre(h, args[0], fields) && Picks(h, fields, args[1], v)
    case ShapeOf => |args| == 1 && args[0].VTensor? && v == VShape(args[0].shape)
    case GetShapeDim =>
      |args| == 2 && v.VInt? && exists dims, i, p: nat ::
        ShapeIs(h, args[0], dims) && IntIs(h, args[1], i) && PlaceIs(h, i, |dims|, p) && v.i == dims[p]
    case ShapeAssert => |args| == 3 && args[0].VTensor? && v == VNull && WithinBound(h, args[0].shape, args[1], args[2])
    case AllocTensor =>
      |args| == 6 && v.VTensor? && v.store == args[0] && IntIs(h, args[1], v.offset) && ShapeIs(h, args[2], v.shape) &&
      ElementTypeIs(h, args[3], args[4], args[5], v.dtype) && (h == Cpp ==> args[0].VStorage? && v.offset >= 0)
    case TensorView => |args| == 3 && IsViewOf(h, args[0], args[1], args[2], v)
    case AllocStorage => false
    case LtI64 => exists x, y :: TwoInts(h, args, x, y) && v == VBool(x < y)
    case AssertLeI64 => v == VNull && exists x, y :: TwoInts(h, args, x, y) && x <= y
    case AddI64 => Computes(h, Add, args, v)
    case SubI64 => Computes(h, Sub, args, v)
    case MulI64 => Computes(h, Mul, args, v)
    case FloorDivI64 => Computes(h, PrimExprs.FloorDiv, args, v)
    case CeilDivI64 => Computes(h, CeilDiv, args, v)
    case MinI64 => Computes(h, Min, args, v)
    case MaxI64 => Computes(h, Max, args, v)
  }

  // ---------------------------------------------------------------- arguments are what they are read as

  lemma IntMeans(h: Host, v: Val, i: int)
    ensures IntIs(h, v, i) <==> AsInt(h, v) == Some(i)
  {
  }

  lemma {:induction false} IntsMean(h: Host, vs: seq<Val>, ints: seq<int>)
    ensures IntsAre(h, vs, ints) <==> AsInts(h, vs) == Some(ints)
    decreases |vs|
  {
    if vs != [] && ints != [] {
      IntMeans(h, vs[0], ints[0]);
      IntsMean(h, vs[1..], ints[1..]);
      assert ints == [ints[0]] + ints[1..];
      if IntsAre(h, vs[1..], ints[1..]) && IntIs(h, vs[0], ints[0]) {
        forall k | 0 <= k < |vs| ensures IntIs(h, vs[k], ints[k]) {
          if k > 0 { assert IntIs(h, vs[1..][k - 1], ints[1..][k - 1]); }
        }
      }
      if IntsAre(h, vs, ints) {
        forall k | 0 <= k < |vs[1..]| ensures IntIs(h, vs[1..][k], ints[1..][k]) {
          assert IntIs(h, vs[k + 1], ints[k + 1]);
        }
      }
    }
  }

  lemma ShapeMeans(h: Host, v: Val, dims: seq<int>)
    ensures ShapeIs(h, v, dims) <==> AsDims(h, v) == Some(dims)
  {
    if v.VTuple? { IntsMean(h, v.fields, dims); }
  }

  lemma FieldsMean(h: Host, v: Val, fields: seq<Val>)
    ensures FieldsAre(h, v, fields) <==> AsFields(h, v) == Some(fields)
  {
    if FieldsAre(h, v, fields) && v.VShape? { assert AsFields(h, v).value == fields; }
  }

  lemma PlaceMeans(h: Host, i: int, n: nat, p: nat)
    ensures PlaceIs(h, i, n, p) <==> Position(h, i, n) == Some(p)
  {
  }

  lemma FieldMeans(h: Host, x: int, m: nat, field: int)
    requires m > 0
    ensures FieldIs(h, x, m, field) <==> Wrap(h, x, m) == field
  {
    if h == Cpp {
      assert x == x / m * m + x % m;
      if FieldIs(h, x, m, field) {
        var q :| x == q * m + field;
        OneQuotientOnly(Py, x, m, x / m, x % m, q, field);
      }
    }
  }

  // ---------------------------------------------------------------- one builtin at a time

  lemma ArithmeticMeans(h: Host, op: BinOp, args: seq<Val>, v: Val)
    requires BuiltinOf(op).Some?
    ensures Computes(h, op, args, v) <==> Arithmetic(h, BuiltinOf(op).value, args) == Some(v)
  {
    hide OpGives, HostDiv;
    if |args| >= 2 && AsInt(h, args[0]).Some? && AsInt(h, args[1]).Some? {
      var x, y := AsInt(h, args[0]).value, AsInt(h, args[1]).value;
      if v.VInt? { OpMeans(h, op, x, y, v.i); }
      assert TwoInts(h, args, x, y);
    }
  }

  lemma ComparisonMeans(h: Host, b: CoreBuiltin, args: seq<Val>, v: Val)
    requires b == LtI64 || b == AssertLeI64
    ensures Answers(h, b, args, v) <==> Arithmetic(h, b, args) == Some(v)
  {
    if |args| >= 2 && AsInt(h, args[0]).Some? && AsInt(h, args[1]).Some? {
      assert TwoInts(h, args, AsInt(h, args[0]).value, AsInt(h, args[1]).value);
    }
  }

  lemma FieldAtMeans(h: Host, tup: Val, index: Val, v: Val)
    ensures (exists fields :: FieldsAre(h, tup, fields) && Picks(h, fields, index, v)) <==>
      FieldAt(h, tup, index) == Some(v)
  {
    hide FieldsAre, IntIs, AsFields, AsInt;
    var fields, i := AsFields(h, tup), AsInt(h, index);
    if fields.Some? && i.Some? {
      FieldsMean(h, tup, fields.value);
      IntMeans(h, index, i.value);
      var p := Position(h, i.value, |fields.value|);
      if p.Some? {
        PlaceMeans(h, i.value, |fields.value|, p.value);
        assert Picks(h, fields.value, index, fields.value[p.value]);
      }
    }
    if exists fields' :: FieldsAre(h, tup, fields') && Picks(h, fields', index, v) {
      var fields' :| FieldsAre(h, tup, fields') && Picks(h, fields', index, v);
      var i', p: nat :| IntIs(h, index, i') && PlaceIs(h, i', |fields'|, p) && v == fields'[p];
      FieldsMean(h, tup, fields');
      IntMeans(h, index, i');
      PlaceMeans(h, i', |fields'|, p);
    }
  }

  lemma DimAtMeans(h: Host, shape: Val, index: Val, v: Val)
    ensures (v.VInt? && exists dims, i, p: nat ::
        ShapeIs(h, shape, dims) && IntIs(h, index, i) && PlaceIs(h, i, |dims|, p) && v.i == dims[p]) <==>
      DimAt(h, shape, index) == Some(v)
  {
    hide ShapeIs, IntIs, AsDims, AsInt;
    var dims, i := AsDims(h, shape), AsInt(h, index);
    if dims.Some? && i.Some? {
      ShapeMeans(h, shape, dims.value);
      IntMeans(h, index, i.value);
      var p := Position(h, i.value, |dims.value|);
      if p.Some? { PlaceMeans(h, i.value, |dims.value|, p.value); }
    }
    if v.VInt? && exists dims', i', p: nat ::
        ShapeIs(h, shape, dims') && IntIs(h, index, i') && PlaceIs(h, i', |dims'|, p) && v.i == dims'[p]
    {
      var dims', i', p: nat :|
        ShapeIs(h, shape, dims') && IntIs(h, index, i') && PlaceIs(h, i', |dims'|, p) && v.i == dims'[p];
      ShapeMeans(h, shape, dims');
      IntMeans(h, index, i');
      PlaceMeans(h, i', |dims'|, p);
    }
  }

  /** The shape check passes exactly when the tensor has the dimension and it is at most the bound. */
  lemma ShapeCheckMeans(h: Host, args: seq<Val>, v: Val)
    ensures Answers(h, ShapeAssert, args, v) <==> CallBuiltin(h, ShapeAssert, args) == Some(v)
  {
    hide IntIs, AsInt;
    if |args| == 3 && args[0].VTensor? {
      var dim, upper, shape := AsInt(h, args[1]), AsInt(h, args[2]), args[0].shape;
      if dim.Some? && upper.Some? {
        IntMeans(h, args[1], dim.value);
        IntMeans(h, args[2], upper.value);
        var p := Position(h, dim.value, |shape|);
        if p.Some? { PlaceMeans(h, dim.value, |shape|, p.value); }
      }
      if WithinBound(h, shape, args[1], args[2]) {
        var i, p: nat, u :|
          IntIs(h, args[1], i) && IntIs(h, args[2], u) && PlaceIs(h, i, |shape|, p) && shape[p] <= u;
        IntMeans(h, args[1], i);
        IntMeans(h, args[2], u);
        PlaceMeans(h, i, |shape|, p);
      }
    }
  }

  lemma ElementTypeMeans(h: Host, code: Val, bits: Val, lanes: Val, dtype: DType)
    ensures ElementTypeIs(h, code, bits, lanes, dtype) <==>
      AsInt(h, code).Some? && AsInt(h, bits).Some? && AsInt(h, lanes).Some? &&
      dtype == DType(Wrap(h, AsInt(h, code).value, 256), Wrap(h, AsInt(h, bits).value, 256),
                     Wrap(h, AsInt(h, lanes).value, 65536))
  {
    hide PartIs, AsInt, Wrap;
    PartMeans(h, code, 256, dtype.code);
    PartMeans(h, bits, 256, dtype.bits);
    PartMeans(h, lanes, 65536, dtype.lanes);
  }

  lemma PartMeans(h: Host, v: Val, m: nat, field: int)
    requires m > 0
    ensures PartIs(h, v, m, field) <==> AsInt(h, v).Some? && field == Wrap(h, AsInt(h, v).value, m)
  {
    hide IntIs, AsInt, FieldIs, Wrap;
    if AsInt(h, v).Some? {
      IntMeans(h, v, AsInt(h, v).value);
      FieldMeans(h, AsInt(h, v).value, m, field);
    }
    if PartIs(h, v, m, field) {
      var x :| IntIs(h, v, x) && FieldIs(h, x, m, field);
      IntMeans(h, v, x);
    }
  }

  lemma TensorMeans(h: Host, args: seq<Val>, v: Val)
    ensures Answers(h, AllocTensor, args, v) <==> CallBuiltin(h, AllocTensor, args) == Some(v)
  {
    hide IntIs, ShapeIs, AsInt, AsDims, ElementTypeIs, Wrap;
    if |args| == 6 {
      if v.VTensor? {
        IntMeans(h, args[1], v.offset);
        ShapeMeans(h, args[2], v.shape);
        ElementTypeMeans(h, args[3], args[4], args[5], v.dtype);
      }
    }
  }

  lemma ViewMeans(h: Host, args: seq<Val>, v: Val)
    ensures Answers(h, TensorView, args, v) <==> CallBuiltin(h, TensorView, args) == Some(v)
  {
    hide IntIs, AsInt, Product;
    if |args| == 3 && args[0].VTensor? && v.VTensor? {
      IntMeans(h, args[1], v.offset - args[0].offset);
      FitsInBytes(Product(v.shape) * v.dtype.bits * v.dtype.lanes, v.store, v.offset);
    }
  }

  /** Bits fit when the bytes they round up to do. */
  lemma FitsInBytes(bits: int, store: Val, offset: int)
    ensures store.VStorage? ==> (offset + (bits + 7) / 8 <= store.nbytes <==> bits <= 8 * (store.nbytes - offset))
  {
  }

  /** Every builtin the compiler emits answers exactly this, on both hosts, and raises when there is no such answer. */
  lemma BuiltinMeans(h: Host, b: CoreBuiltin, args: seq<Val>, v: Val)
    ensures Answers(h, b, args, v) <==> CallBuiltin(h, b, args) == Some(v)
  {
    hide Arithmetic, FieldAt, DimAt, TensorFromStorage, View, Computes, IntsAre;
    match b
    case MakeShape => if v.VShape? { IntsMean(h, args, v.dims); }
    case TupleGetItem => if |args| == 2 { FieldAtMeans(h, args[0], args[1], v); }
    case GetShapeDim => if |args| == 2 { DimAtMeans(h, args[0], args[1], v); }
    case ShapeAssert => ShapeCheckMeans(h, args, v);
    case AllocTensor => TensorMeans(h, args, v);
    case TensorView => ViewMeans(h, args, v);
    case LtI64 => ComparisonMeans(h, b, args, v);
    case AssertLeI64 => ComparisonMeans(h, b, args, v);
    case AddI64 => ArithmeticMeans(h, Add, args, v);
    case SubI64 => ArithmeticMeans(h, Sub, args, v);
    case MulI64 => ArithmeticMeans(h, Mul, args, v);
    case FloorDivI64 => ArithmeticMeans(h, PrimExprs.FloorDiv, args, v);
    case CeilDivI64 => ArithmeticMeans(h, CeilDiv, args, v);
    case MinI64 => ArithmeticMeans(h, Min, args, v);
    case MaxI64 => ArithmeticMeans(h, Max, args, v);
    case _ =>
  }

  /** A call is answered by the host itself only for a builtin, storage allocation and the views of the Python host
      excepted; the world does not see it.  Any other call goes to foreign code and is recorded last. */
  lemma DispatchExactly(h: Host, ext: Foreign, kind: CalleeKind, name: Name, args: seq<Val>, launch: seq<int>, w: World)
    ensures var r := Dispatch(h, ext, kind, name, args, launch, w);
      if kind == Builtin && name.Core? && name.b != AllocStorage && (h == Py ==> name.b != TensorView)
      then r.w == w && forall v :: r.result == Some(v) <==> Answers(h, name.b, args, v)
      else r.w == w + [Event(kind, name, args, launch)] && r.result == ext(w, Event(kind, name, args, launch))
  {
    hide CallBuiltin, Answers;
    if name.Core? {
      forall v ensures Answers(h, name.b, args, v) <==> CallBuiltin(h, name.b, args) == Some(v) {
        BuiltinMeans(h, name.b, args, v);
      }
    }
  }

  // ---------------------------------------------------------------- conditions

  /** What Python takes for false. */
  predicate IsFalsy(v: Val) {
    v == VNull || v == VBool(false) || v == VInt(0) || v == VFloat(0) || v == VFloat(0x8000_0000_0000_0000) ||
    v == VStr("") || v == VShape([]) || v == VTuple([])
  }

  /** Conditions: C++ takes booleans only, Python any value. */
  lemma ConditionMeans(h: Host, v: Val, b: bool)
    requires v.VFloat? ==> v.bits < 0x1_0000_0000_0000_0000
    ensures AsBool(h, v) == Some(b) <==> if h == Cpp then v == VBool(b) else b == !IsFalsy(v)
  {
  }
}

/** What compile-time sizes and the comparison of expressions stand for, stated apart from how they are computed
    (python/devproc2/compiler/passes/memory_planning.py, python/devproc2/ir/prim_expr.py). */
module ShapeMeaning {
  import opened Bytecode
  import opened Runtime
  import opened PrimExprs
  import opened PrimMeaning
  import opened ShapeBounds
  import opened TensorIR
  import M = MemoryPlanning

  // ---------------------------------------------------------------- comparison

  /** The expression with the identity of its variables forgotten. */
  function Labels(e: PrimExpr): PrimExpr {
    match e
    case IntImm(_) => e
    case PrimVar(_, name, upper) => PrimVar(0, name, upper)
    case Bin(op, l, r) => Bin(op, Labels(l), Labels(r))
  }

  /** Two expressions compare equal exactly when they differ in nothing but the identity of variables. */
  lemma {:induction false} SameExprExactly(a: PrimExpr, b: PrimExpr)
    ensures SameExpr(a, b) <==> Labels(a) == Labels(b)
    decreases a
  {
    if a.Bin? && b.Bin? {
      SameExprExactly(a.lhs, b.lhs);
      SameExprExactly(a.rhs, b.rhs);
    }
  }

  // ---------------------------------------------------------------- bounds

  predicate IsQuotient(op: BinOp) {
    op == PrimExprs.FloorDiv || op == CeilDiv
  }

  /** A divisor below one counts as one. */
  function Divisor(op: BinOp, y: int): int {
    if IsQuotient(op) && y < 1 then 1 else y
  }

  /** The number an expression stands for when every variable is at its bound. */
  ghost predicate AtUpper(e: PrimExpr, n: int) {
    match e
    case IntImm(i) => n == i
    case PrimVar(_, _, upper) => upper == Some(n)
    case Bin(op, l, r) => exists x, y :: AtUpper(l, x) && AtUpper(r, y) && OpGives(Py, op, x, Divisor(op, y), n)
  }

  /** Why there may be no bound, in the order in which it is found; a quotient that is rounded up looks at its divisor
      first. */
  function Faults(e: PrimExpr): seq<Bound> {
    match e
    case IntImm(_) => []
    case PrimVar(_, _, upper) => if upper == None then [NoBound] else []
    case Bin(op, l, r) =>
      if BuiltinOf(op) == None then [Unsupported]
      else if op == CeilDiv then Faults(r) + Faults(l)
      else Faults(l) + Faults(r)
  }

  lemma CombinedAre(op: BinOp, x: int, y: int, n: int)
    requires BuiltinOf(op).Some?
    ensures OpGives(Py, op, x, Divisor(op, y), n) <==> n == (if op == Sub then x - y else CombineUpper(op, x, y))
  {
    hide Quotient;
    if op == PrimExprs.FloorDiv { QuotientIs(Py, x, Max2(1, y), n); }
    if op == CeilDiv { QuotientIs(Py, x + Max2(1, y) - 1, Max2(1, y), n); }
  }

  lemma {:induction false} UpperOfBin(e: PrimExpr)
    requires e.Bin? && BuiltinOf(e.op).Some?
    ensures EvalUpper(e).Known? <==> EvalUpper(e.lhs).Known? && EvalUpper(e.rhs).Known?
    ensures EvalUpper(e).Known? ==>
      var x, y := EvalUpper(e.lhs).n, EvalUpper(e.rhs).n;
      EvalUpper(e).n == if e.op == Sub then x - y else CombineUpper(e.op, x, y)
    ensures !EvalUpper(e).Known? ==>
      var first, second := if e.op == CeilDiv then EvalUpper(e.rhs) else EvalUpper(e.lhs),
                           if e.op == CeilDiv then EvalUpper(e.lhs) else EvalUpper(e.rhs);
      EvalUpper(e) == if first.Known? then second else first
  {
  }

  /** The bound of an expression is its value at the bounds of its variables; without one the first fault is told. */
  lemma {:induction false} UpperMeans(e: PrimExpr)
    ensures forall n :: EvalUpper(e) == Known(n) <==> AtUpper(e, n)
    ensures EvalUpper(e).Known? <==> Faults(e) == []
    ensures Faults(e) != [] ==> EvalUpper(e) == Faults(e)[0]
  {
    hide OpGives, EvalUpper;
    match e
    case IntImm(i) => assert EvalUpper(e) == Known(i) by { UpperOfLeaf(e); }
    case PrimVar(_, _, upper) => UpperOfLeaf(e);
    case Bin(op, l, r) =>
      if BuiltinOf(op).Some? {
        UpperMeans(l);
        UpperMeans(r);
        UpperOfBin(e);
        forall n ensures EvalUpper(e) == Known(n) <==> AtUpper(e, n) { UpperOfBinIs(e, n); }
      } else {
        UpperOfLeaf(e);
        forall x, y, n ensures !OpGives(Py, op, x, Divisor(op, y), n) { NoOperator(op, x, Divisor(op, y), n); }
      }
  }

  lemma NoOperator(op: BinOp, x: int, y: int, n: int)
    requires BuiltinOf(op) == None
    ensures !OpGives(Py, op, x, y, n)
  {
  }

  lemma {:induction false} UpperOfLeaf(e: PrimExpr)
    requires !e.Bin? || BuiltinOf(e.op) == None
    ensures EvalUpper(e) == match e
      case IntImm(i) => Known(i)
      case PrimVar(_, _, upper) => if upper.Some? then Known(upper.value) else NoBound
      case Bin(_, _, _) => Unsupported
  {
  }

  lemma UpperOfBinIs(e: PrimExpr, n: int)
    requires e.Bin? && BuiltinOf(e.op).Some?
    requires forall m :: EvalUpper(e.lhs) == Known(m) <==> AtUpper(e.lhs, m)
    requires forall m :: EvalUpper(e.rhs) == Known(m) <==> AtUpper(e.rhs, m)
    ensures EvalUpper(e) == Known(n) <==> AtUpper(e, n)
  {
    hide OpGives, EvalUpper;
    UpperOfBin(e);
    if EvalUpper(e.lhs).Known? && EvalUpper(e.rhs).Known? {
      var x, y := EvalUpper(e.lhs).n, EvalUpper(e.rhs).n;
      CombinedAre(e.op, x, y, n);
      assert AtUpper(e.lhs, x) && AtUpper(e.rhs, y);
    }
  }

  // ---------------------------------------------------------------- sizes

  ghost predicate AllAtUpper(shape: seq<PrimExpr>, dims: seq<int>) {
    |dims| == |shape| && forall k :: 0 <= k < |shape| ==> AtUpper(shape[k], dims[k])
  }

  /** The least multiple of 256 that is positive and has room for the bytes. */
  predicate LeastRoom(bytes: int, n: int) {
    n % 256 == 0 && n > 0 && n >= bytes && (n - 256 < bytes || n == 256)
  }

  lemma {:induction false} ProductMeans(shape: seq<PrimExpr>, n: int)
    ensures ProductUpper(shape) == Known(n) <==> exists dims :: AllAtUpper(shape, dims) && Product(dims) == n
    decreases |shape|
  {
    hide AtUpper, EvalUpper;
    if shape == [] {
      assert AllAtUpper(shape, []);
    } else {
      UpperMeans(shape[0]);
      if ProductUpper(shape) == Known(n) {
        var a, m := EvalUpper(shape[0]).n, ProductUpper(shape[1..]).n;
        ProductMeans(shape[1..], m);
        var rest :| AllAtUpper(shape[1..], rest) && Product(rest) == m;
        assert ([a] + rest)[1..] == rest;
        assert AllAtUpper(shape, [a] + rest);
      }
      if dims :| AllAtUpper(shape, dims) && Product(dims) == n {
        assert AllAtUpper(shape[1..], dims[1..]);
        ProductMeans(shape[1..], Product(dims[1..]));
      }
    }
  }

  /** A size is planned exactly when every dimension has a bound, and is the least room for that many elements. */
  lemma SizeMeans(shape: seq<PrimExpr>, itemsize: nat, n: int)
    ensures SizeBytes(shape, itemsize) == Some(n) <==>
      exists dims :: AllAtUpper(shape, dims) && LeastRoom(Product(dims) * itemsize, n)
  {
    hide AllAtUpper, Product, ProductUpper;
    var b := ProductUpper(shape);
    if b.Known? {
      ProductMeans(shape, b.n);
      RoomIsAligned(b.n * itemsize, n);
    }
    if dims :| AllAtUpper(shape, dims) && LeastRoom(Product(dims) * itemsize, n) {
      ProductMeans(shape, Product(dims));
    }
  }

  lemma RoomIsAligned(bytes: int, n: int)
    ensures LeastRoom(bytes, n) <==> n == Align256(Max2(bytes, 1))
  {
  }

  // ---------------------------------------------------------------- sizes of tensors

  /** Elements of whole bytes. */
  predicate WholeBytes(dtype: DType) {
    dtype.bits % 8 == 0 && dtype.bits >= 0 && dtype.lanes == 1
  }

  lemma PayloadIs(dims: seq<int>, spec: Spec)
    requires WholeBytes(spec.dtype)
    ensures PayloadBytes(dims, spec.dtype) == Product(dims) * M.ItemSize(spec)
  {
    BitsOf(Product(dims), M.ItemSize(spec));
  }

  /** The static size of a created tensor is the least room for it with every dimension at its bound, and there is none
      exactly when some dimension has no bound. */
  lemma PlannedExactly(spec: Spec, n: int)
    requires WholeBytes(spec.dtype)
    ensures SizeBytes(spec.shape, M.ItemSize(spec)) == Some(n) <==>
      exists dims :: AllAtUpper(spec.shape, dims) && LeastRoom(PayloadBytes(dims, spec.dtype), n)
  {
    hide SizeBytes, AllAtUpper, PayloadBytes, LeastRoom;
    SizeMeans(spec.shape, M.ItemSize(spec), n);
    forall dims ensures PayloadBytes(dims, spec.dtype) == Product(dims) * M.ItemSize(spec) { PayloadIs(dims, spec); }
  }

  lemma {:induction false} ProductSnoc(dims: seq<int>, d: int)
    ensures Product(dims + [d]) == d * Product(dims)
  {
    if dims == [] {
      assert dims + [d] == [d] && [d][1..] == [];
    } else {
      assert (dims + [d])[1..] == dims[1..] + [d];
      ProductSnoc(dims[1..], d);
      assert dims[0] * (d * Product(dims[1..])) == d * (dims[0] * Product(dims[1..]));
    }
  }

  lemma {:induction false} SizeExprIs(h: Host, shape: seq<PrimExpr>, itemsize: int, E: Env, dims: seq<int>)
    requires |dims| == |shape| && forall k :: 0 <= k < |shape| ==> EvalPrim(h, shape[k], E) == Some(VInt(dims[k]))
    ensures EvalPrim(h, SizeExpr(shape, itemsize), E) == Some(VInt(Product(dims) * itemsize))
    decreases |shape|
  {
    hide Product;
    if shape == [] {
      assert Product(dims) == 1 by { NoDims(dims); }
    } else {
      var n := |shape| - 1;
      SizeExprIs(h, shape[..n], itemsize, E, dims[..n]);
      ProductSnoc(dims[..n], dims[n]);
      assert dims == dims[..n] + [dims[n]];
      var rest := Product(dims[..n]) * itemsize;
      EvalOp(h, Bin(Mul, shape[n], SizeExpr(shape[..n], itemsize)), E, dims[n], rest);
      assert dims[n] * rest == dims[n] * Product(dims[..n]) * itemsize;
    }
  }

  lemma NoDims(dims: seq<int>)
    requires dims == []
    ensures Product(dims) == 1
  {
  }

  /** A size that is not known before the program runs is then that of the tensor. */
  lemma ComputedExactly(h: Host, spec: Spec, E: Env, dims: seq<int>)
    requires WholeBytes(spec.dtype) && SizeBytes(spec.shape, M.ItemSize(spec)) == None
    requires |dims| == |spec.shape|
    requires forall k :: 0 <= k < |dims| ==> EvalPrim(h, spec.shape[k], E) == Some(VInt(dims[k]))
    ensures EvalPrim(h, PlannedSize(spec.shape, M.ItemSize(spec)), E) == Some(VInt(PayloadBytes(dims, spec.dtype)))
  {
    SizeExprIs(h, spec.shape, M.ItemSize(spec), E, dims);
    PayloadIs(dims, spec);
  }
}

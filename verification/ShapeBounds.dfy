/** Compile-time sizes from upper bounds of symbolic dimensions
    (python/devproc2/compiler/passes/memory_planning.py, python/devproc2/ir/prim_expr.py). */
module ShapeBounds {
  import opened Bytecode
  import opened Runtime
  import opened PrimExprs

  /** A bound, or why there is none. */
  datatype Bound = Known(n: int) | NoBound | Unsupported

  function Max2(a: int, b: int): int {
    if a >= b then a else b
  }

  function Min2(a: int, b: int): int {
    if a <= b then a else b
  }

  /** The operand that is evaluated first decides how evaluation fails. */
  function Combine(first: Bound, second: Bound, f: (int, int) -> int): Bound {
    if !first.Known? then first
    else if !second.Known? then second
    else Known(f(first.n, second.n))
  }

  /** Every variable replaced by its upper bound; divisors are at least 1. */
  function EvalUpper(e: PrimExpr): Bound {
    match e
    case IntImm(i) => Known(i)
    case PrimVar(_, _, upper) => if upper.Some? then Known(upper.value) else NoBound
    case Bin(op, l, r) =>
      match op
      case Add => Combine(EvalUpper(l), EvalUpper(r), (a, b) => a + b)
      case Sub => Combine(EvalUpper(l), EvalUpper(r), (a, b) => a - b)
      case Mul => Combine(EvalUpper(l), EvalUpper(r), (a, b) => a * b)
      case FloorDiv => Combine(EvalUpper(l), EvalUpper(r), (a, b) => a / Max2(1, b))
      case CeilDiv => Combine(EvalUpper(r), EvalUpper(l), (b, a) => (a + Max2(1, b) - 1) / Max2(1, b))
      case Min => Combine(EvalUpper(l), EvalUpper(r), Min2)
      case Max => Combine(EvalUpper(l), EvalUpper(r), Max2)
      case _ => Unsupported
  }

  /** Variables are compared by name and bound, not by identity. */
  predicate SameExpr(a: PrimExpr, b: PrimExpr) {
    match (a, b)
    case (IntImm(i), IntImm(j)) => i == j
    case (PrimVar(_, n, u), PrimVar(_, m, v)) => n == m && u == v
    case (Bin(o, l, r), Bin(p, x, y)) => o == p && SameExpr(l, x) && SameExpr(r, y)
    case _ => false
  }

  lemma {:induction false} SameExprSelf(e: PrimExpr)
    ensures SameExpr(e, e)
  {
    if e.Bin? {
      SameExprSelf(e.lhs);
      SameExprSelf(e.rhs);
    }
  }

  lemma {:induction false} SameExprBack(a: PrimExpr, b: PrimExpr)
    requires SameExpr(a, b)
    ensures SameExpr(b, a)
    decreases a
  {
    if a.Bin? {
      SameExprBack(a.lhs, b.lhs);
      SameExprBack(a.rhs, b.rhs);
    }
  }

  lemma {:induction false} SameExprOn(a: PrimExpr, b: PrimExpr, c: PrimExpr)
    requires SameExpr(a, b) && SameExpr(b, c)
    ensures SameExpr(a, c)
    decreases a
  {
    if a.Bin? {
      SameExprOn(a.lhs, b.lhs, c.lhs);
      SameExprOn(a.rhs, b.rhs, c.rhs);
    }
  }

  function Align256(n: int): int {
    (n + 255) / 256 * 256
  }

  function ProductUpper(shape: seq<PrimExpr>): Bound {
    if shape == [] then Known(1)
    else Combine(EvalUpper(shape[0]), ProductUpper(shape[1..]), (a, b) => a * b)
  }

  /** Bytes planned for a tensor; None when some dimension has no bound. */
  function SizeBytes(shape: seq<PrimExpr>, itemsize: int): Option<int> {
    match ProductUpper(shape)
    case Known(n) => Some(Align256(Max2(n * itemsize, 1)))
    case _ => None
  }

  /** The size as an expression, evaluated when the storage is allocated. */
  function SizeExpr(shape: seq<PrimExpr>, itemsize: int): PrimExpr {
    if shape == [] then IntImm(itemsize)
    else Bin(Mul, shape[|shape| - 1], SizeExpr(shape[..|shape| - 1], itemsize))
  }

  /** The size a storage is allocated with: planned when known, computed at run time otherwise. */
  function PlannedSize(shape: seq<PrimExpr>, itemsize: int): PrimExpr {
    var size := SizeBytes(shape, itemsize);
    if size.Some? then IntImm(size.value) else SizeExpr(shape, itemsize)
  }

  // ---------------------------------------------------------------- soundness on the monotone fragment

  /** Non-negative constants, variables, sums, products, minima, maxima, and division by positive constants. */
  predicate Monotone(e: PrimExpr) {
    match e
    case IntImm(i) => i >= 0
    case PrimVar(_, _, _) => true
    case Bin(op, l, r) =>
      match op
      case Add => Monotone(l) && Monotone(r)
      case Mul => Monotone(l) && Monotone(r)
      case Min => Monotone(l) && Monotone(r)
      case Max => Monotone(l) && Monotone(r)
      case FloorDiv => Monotone(l) && r.IntImm? && r.value > 0
      case CeilDiv => Monotone(l) && r.IntImm? && r.value > 0
      case _ => false
  }

  /** Every variable of the expression holds a natural number within its bound. */
  predicate Within(e: PrimExpr, E: Env) {
    match e
    case IntImm(_) => true
    case PrimVar(id, _, upper) => id in E && E[id].VInt? && E[id].i >= 0 && (upper.Some? ==> E[id].i <= upper.value)
    case Bin(_, l, r) => Within(l, E) && Within(r, E)
  }

  lemma MulLe(a: int, b: int, x: int, y: int)
    requires 0 <= a <= x && 0 <= b <= y
    ensures 0 <= a * b <= x * y
  {
    assert a * b <= x * b;
    assert x * b <= x * y;
  }

  lemma DivLe(a: int, x: int, c: int)
    requires 0 <= a <= x && c > 0
    ensures 0 <= a / c <= x / c
  {
    var d := a / c - x / c;
    assert d * c == a - a % c - (x - x % c);
    assert d >= 1 ==> d * c >= c;
  }

  /** The bound of a combination from the bounds of its parts. */
  function CombineUpper(op: BinOp, x: int, y: int): int {
    match op
    case Add => x + y
    case Mul => x * y
    case Min => Min2(x, y)
    case Max => Max2(x, y)
    case FloorDiv => x / Max2(1, y)
    case CeilDiv => (x + Max2(1, y) - 1) / Max2(1, y)
    case _ => 0
  }

  predicate MonotoneOp(op: BinOp, divisorIsConstant: bool) {
    op == Add || op == Mul || op == Min || op == Max || (divisorIsConstant && (op == FloorDiv || op == CeilDiv))
  }

  /** One operation keeps the result between zero and the bound. */
  lemma OpIsSound(h: Host, op: BinOp, a: int, b: int, x: int, y: int)
    requires 0 <= a <= x && 0 <= b <= y && MonotoneOp(op, b == y > 0)
    ensures BuiltinOf(op).Some?
    ensures var r := IntOp(h, BuiltinOf(op).value, a, b);
      r.Some? && r.value.VInt? && 0 <= r.value.i <= CombineUpper(op, x, y)
  {
    match op
    case Mul => MulLe(a, b, x, y);
    case FloorDiv => DivLe(a, x, b);
    case CeilDiv => DivLe(a + b - 1, x + b - 1, b);
    case _ =>
  }

  lemma {:induction false} EvalOp(h: Host, e: PrimExpr, E: Env, a: int, b: int)
    requires e.Bin? && BuiltinOf(e.op).Some? && EvalPrim(h, e.lhs, E) == Some(VInt(a))
    requires EvalPrim(h, e.rhs, E) == Some(VInt(b))
    ensures EvalPrim(h, e, E) == IntOp(h, BuiltinOf(e.op).value, a, b)
  {
    assert [VInt(a), VInt(b)][0] == VInt(a);
  }

  lemma {:induction false} UpperOp(e: PrimExpr)
    requires e.Bin? && Monotone(e) && EvalUpper(e).Known?
    ensures Monotone(e.lhs) && Monotone(e.rhs) && EvalUpper(e.lhs).Known? && EvalUpper(e.rhs).Known?
    ensures EvalUpper(e).n == CombineUpper(e.op, EvalUpper(e.lhs).n, EvalUpper(e.rhs).n)
    ensures MonotoneOp(e.op, e.rhs.IntImm? && e.rhs.value > 0)
  {
  }

  /** On the monotone fragment an expression evaluates, on either host, to at most its bound. */
  lemma {:induction false} UpperIsSound(h: Host, e: PrimExpr, E: Env)
    requires Monotone(e) && Within(e, E) && EvalUpper(e).Known?
    ensures EvalPrim(h, e, E).Some? && EvalPrim(h, e, E).value.VInt?
    ensures 0 <= EvalPrim(h, e, E).value.i <= EvalUpper(e).n
  {
    if e.Bin? {
      hide IntOp, CombineUpper, Arithmetic;
      UpperOp(e);
      UpperIsSound(h, e.lhs, E);
      UpperIsSound(h, e.rhs, E);
      var a, b := EvalPrim(h, e.lhs, E).value.i, EvalPrim(h, e.rhs, E).value.i;
      OpIsSound(h, e.op, a, b, EvalUpper(e.lhs).n, EvalUpper(e.rhs).n);
      EvalOp(h, e, E, a, b);
    }
  }

  predicate AllMonotone(shape: seq<PrimExpr>) {
    forall e <- shape :: Monotone(e)
  }

  lemma {:induction false} ShapeIsSound(h: Host, shape: seq<PrimExpr>, E: Env)
    requires AllMonotone(shape) && (forall e <- shape :: Within(e, E)) && ProductUpper(shape).Known?
    ensures EvalShape(h, shape, E).Some?
    ensures 0 <= Product(EvalShape(h, shape, E).value) <= ProductUpper(shape).n
    decreases |shape|
  {
    if shape != [] {
      UpperIsSound(h, shape[0], E);
      ShapeIsSound(h, shape[1..], E);
      EvalShapeCons(h, shape, E);
      var a, rest := EvalPrim(h, shape[0], E).value.i, EvalShape(h, shape[1..], E).value;
      MulLe(a, Product(rest), EvalUpper(shape[0]).n, ProductUpper(shape[1..]).n);
      assert ([a] + rest)[1..] == rest;
    }
  }

  lemma {:induction false} EvalShapeCons(h: Host, shape: seq<PrimExpr>, E: Env)
    requires shape != [] && EvalPrim(h, shape[0], E).Some? && EvalPrim(h, shape[0], E).value.VInt?
    requires EvalShape(h, shape[1..], E).Some?
    ensures EvalShape(h, shape, E) == Some([EvalPrim(h, shape[0], E).value.i] + EvalShape(h, shape[1..], E).value)
  {
    var v, vs := EvalPrim(h, shape[0], E).value, EvalPrims(h, shape[1..], E).value;
    assert EvalPrims(h, shape, E) == Some([v] + vs);
    assert ([v] + vs)[1..] == vs;
  }

  /** A tensor of a monotone bounded shape needs no more bytes than were planned for it. */
  lemma {:induction false} PlannedBytesSuffice(h: Host, shape: seq<PrimExpr>, dtype: DType, itemsize: nat, E: Env)
    requires AllMonotone(shape) && (forall e <- shape :: Within(e, E)) && SizeBytes(shape, itemsize).Some?
    requires dtype.bits == 8 * itemsize && dtype.lanes == 1
    ensures EvalShape(h, shape, E).Some?
    ensures 0 <= PayloadBytes(EvalShape(h, shape, E).value, dtype) <= SizeBytes(shape, itemsize).value
  {
    ShapeIsSound(h, shape, E);
    var n, u := Product(EvalShape(h, shape, E).value), ProductUpper(shape).n;
    MulLe(n, itemsize, u, itemsize);
    assert n * dtype.bits * dtype.lanes == 8 * (n * itemsize) by { BitsOf(n, itemsize); }
    assert (8 * (n * itemsize) + 7) / 8 == n * itemsize;
    AlignUp(Max2(u * itemsize, 1));
  }

  lemma BitsOf(n: int, itemsize: int)
    ensures n * (8 * itemsize) * 1 == 8 * (n * itemsize)
  {
  }

  /** Alignment only rounds up, to the next multiple. */
  lemma AlignUp(n: int)
    ensures n <= Align256(n) < n + 256 && Align256(n) % 256 == 0
  {
  }

  // ---------------------------------------------------------------- outside the fragment

  /** A difference is not bounded by the difference of the bounds. */
  lemma SubIsNotBounded()
    ensures var e := Bin(Sub, PrimVar(0, "a", Some(8)), PrimVar(1, "b", Some(8)));
      var E: Env := map[0 := VInt(8), 1 := VInt(0)];
      Within(e, E) && EvalPrim(Cpp, e, E) == Some(VInt(8)) && EvalUpper(e) == Known(0)
  {
  }

  /** Nor is a quotient by a symbolic divisor. */
  lemma QuotientIsNotBounded()
    ensures var e := Bin(FloorDiv, PrimVar(0, "a", Some(8)), PrimVar(1, "b", Some(8)));
      var E: Env := map[0 := VInt(8), 1 := VInt(1)];
      Within(e, E) && EvalPrim(Cpp, e, E) == Some(VInt(8)) && EvalUpper(e) == Known(1)
  {
  }

  /** The planned bound holds whenever the expression has a value. */
  ghost predicate Bounded(e: PrimExpr) {
    forall h, E :: Within(e, E) && EvalPrim(h, e, E).Some? && EvalPrim(h, e, E).value.VInt? ==>
      BelowUpper(e, EvalPrim(h, e, E).value.i)
  }

  predicate BelowUpper(e: PrimExpr, n: int) {
    EvalUpper(e).Known? ==> n <= EvalUpper(e).n
  }

  /** A difference of variables is bounded exactly when what is subtracted can only be zero. */
  lemma SubIsBoundedExactly(m: nat, n: nat)
    ensures Bounded(Bin(Sub, PrimVar(0, "a", Some(m)), PrimVar(1, "b", Some(n)))) <==> n == 0
  {
    var x, y := PrimVar(0, "a", Some(m)), PrimVar(1, "b", Some(n));
    var e := Bin(Sub, x, y);
    var E: Env := map[0 := VInt(m), 1 := VInt(0)];
    assert Within(x, E) && Within(y, E);
    EvalOp(Cpp, e, E, m, 0);
    assert EvalUpper(x) == Known(m) && EvalUpper(y) == Known(n);
    assert Within(e, E) && EvalPrim(Cpp, e, E) == Some(VInt(m)) && EvalUpper(e) == Known(m - n);
    if n == 0 {
      forall h: Host, E: Env | Within(e, E) && EvalPrim(h, e, E).Some? && EvalPrim(h, e, E).value.VInt?
        ensures BelowUpper(e, EvalPrim(h, e, E).value.i)
      {
        assert Within(x, E) && Within(y, E);
        EvalOp(h, e, E, E[0].i, E[1].i);
      }
    }
  }

  /** A quotient of variables is bounded exactly when the divisor can only be one, or the numerator
      only zero. */
  lemma QuotientIsBoundedExactly(m: nat, n: nat)
    ensures Bounded(Bin(FloorDiv, PrimVar(0, "a", Some(m)), PrimVar(1, "b", Some(n)))) <==> n <= 1 || m == 0
  {
    var x, y := PrimVar(0, "a", Some(m)), PrimVar(1, "b", Some(n));
    var e := Bin(FloorDiv, x, y);
    assert EvalUpper(x) == Known(m) && EvalUpper(y) == Known(n);
    assert EvalUpper(e) == Known(m / Max2(1, n));
    if n <= 1 || m == 0 {
      forall h: Host, E: Env | Within(e, E) && EvalPrim(h, e, E).Some? && EvalPrim(h, e, E).value.VInt?
        ensures BelowUpper(e, EvalPrim(h, e, E).value.i)
      {
        assert Within(x, E) && Within(y, E);
        var a, b := E[0].i, E[1].i;
        EvalOp(h, e, E, a, b);
        SmallQuotient(h, a, b, m, n);
      }
    } else {
      var E: Env := map[0 := VInt(m), 1 := VInt(1)];
      assert Within(x, E) && Within(y, E);
      EvalOp(Cpp, e, E, m, 1);
      assert m / 1 == m;
      assert Within(e, E) && EvalPrim(Cpp, e, E) == Some(VInt(m));
      DivShrinks(m, n);
      assert !BelowUpper(e, m);
    }
  }

  function CeilOf(m: nat, n: nat): PrimExpr {
    Bin(CeilDiv, PrimVar(0, "a", Some(m)), PrimVar(1, "b", Some(n)))
  }

  lemma CeilUpper(m: nat, n: nat)
    ensures EvalUpper(CeilOf(m, n)) == Known((m + Max2(1, n) - 1) / Max2(1, n))
  {
    assert EvalUpper(PrimVar(0, "a", Some(m))) == Known(m) && EvalUpper(PrimVar(1, "b", Some(n))) == Known(n);
  }

  /** The same for a quotient that is rounded up, which a numerator of one does not exceed either. */
  lemma CeilIsBoundedExactly(m: nat, n: nat)
    ensures Bounded(CeilOf(m, n)) <==> n <= 1 || m <= 1
  {
    hide EvalUpper, EvalPrim;
    if n <= 1 || m <= 1 {
      forall h: Host, E: Env | Within(CeilOf(m, n), E) && EvalPrim(h, CeilOf(m, n), E).Some? &&
        EvalPrim(h, CeilOf(m, n), E).value.VInt?
        ensures BelowUpper(CeilOf(m, n), EvalPrim(h, CeilOf(m, n), E).value.i)
      {
        CeilIsBelow(h, m, n, E);
      }
    } else {
      CeilIsAbove(m, n);
    }
  }

  lemma {:induction false} CeilIsBelow(h: Host, m: nat, n: nat, E: Env)
    requires n <= 1 || m <= 1
    requires Within(CeilOf(m, n), E) && EvalPrim(h, CeilOf(m, n), E).Some? && EvalPrim(h, CeilOf(m, n), E).value.VInt?
    ensures BelowUpper(CeilOf(m, n), EvalPrim(h, CeilOf(m, n), E).value.i)
  {
    hide HostDiv, EvalUpper;
    var x, y := PrimVar(0, "a", Some(m)), PrimVar(1, "b", Some(n));
    assert Within(x, E) && Within(y, E);
    var a, b := E[0].i, E[1].i;
    EvalOp(h, CeilOf(m, n), E, a, b);
    SmallCeil(h, a, b, m, n);
    CeilUpper(m, n);
  }

  lemma CeilIsAbove(m: nat, n: nat)
    requires n > 1 && m > 1
    ensures !Bounded(CeilOf(m, n))
  {
    hide EvalUpper;
    var x, y := PrimVar(0, "a", Some(m)), PrimVar(1, "b", Some(n));
    var E: Env := map[0 := VInt(m), 1 := VInt(1)];
    assert Within(x, E) && Within(y, E);
    EvalOp(Cpp, CeilOf(m, n), E, m, 1);
    assert m / 1 == m;
    assert Within(CeilOf(m, n), E) && EvalPrim(Cpp, CeilOf(m, n), E) == Some(VInt(m));
    CeilUpper(m, n);
    CeilShrinks(m, n);
    assert !BelowUpper(CeilOf(m, n), m);
  }

  lemma SmallCeil(h: Host, a: int, b: int, m: int, n: int)
    requires 0 <= a <= m && 0 < b <= n && (n <= 1 || m <= 1)
    ensures HostDiv(h, a + b - 1, b) <= (m + Max2(1, n) - 1) / Max2(1, n)
  {
    if n <= 1 {
      assert a / 1 == a && m / 1 == m;
    } else {
      DivAtMost(a + b - 1, b, a);
      DivAtLeast(m + n - 1, n, m);
    }
  }

  /** For numerators of zero or one. */
  lemma DivAtMost(p: int, b: int, a: int)
    requires 0 <= a <= 1 && b > 0 && p == a + b - 1
    ensures p / b == a
  {
  }

  lemma DivAtLeast(p: int, n: int, m: int)
    requires 0 <= m <= 1 && n > 0 && p == m + n - 1
    ensures p / n == m
  {
  }

  lemma Distributes(m: int, n: int)
    ensures (m - 1) * (n - 1) == m * n - m - n + 1
  {
  }

  lemma IsPositive(d: int, n: int)
    requires n > 0 && d * n > 0
    ensures d > 0
  {
  }

  lemma BelowProduct(p: int, n: int, m: int)
    requires n > 0 && p < m * n
    ensures p / n < m
  {
    var q := p / n;
    assert q * n <= p;
    assert (m - q) * n == m * n - q * n;
    IsPositive(m - q, n);
  }

  lemma CeilShrinks(m: int, n: int)
    requires m > 1 && n > 1
    ensures (m + n - 1) / n < m
  {
    assert (m - 1) * (n - 1) == m * n - m - n + 1 by { Distributes(m, n); }
    BelowProduct(m + n - 1, n, m);
  }

  /** A multiple of a variable is bounded exactly when the factor is not negative, or the variable can
      only be zero. */
  lemma FactorIsBoundedExactly(m: nat, f: int)
    ensures Bounded(Bin(Mul, PrimVar(0, "a", Some(m)), IntImm(f))) <==> f >= 0 || m == 0
  {
    var x := PrimVar(0, "a", Some(m));
    var e := Bin(Mul, x, IntImm(f));
    assert EvalUpper(x) == Known(m) && EvalUpper(e) == Known(m * f);
    if f >= 0 || m == 0 {
      forall h: Host, E: Env | Within(e, E) && EvalPrim(h, e, E).Some? && EvalPrim(h, e, E).value.VInt?
        ensures BelowUpper(e, EvalPrim(h, e, E).value.i)
      {
        assert Within(x, E);
        EvalOp(h, e, E, E[0].i, f);
        FactorBelow(E[0].i, m, f);
      }
    } else {
      var E: Env := map[0 := VInt(0)];
      assert Within(x, E) && Within(IntImm(f), E);
      EvalOp(Cpp, e, E, 0, f);
      assert Within(e, E) && EvalPrim(Cpp, e, E) == Some(VInt(0));
      FactorBelow(1, m, -f);
      assert !BelowUpper(e, 0);
    }
  }

  lemma FactorBelow(x: int, m: nat, f: int)
    requires 0 <= x <= m && (f >= 0 || m == 0)
    ensures x * f <= m * f
  {
    if f >= 0 { assert (m - x) * f >= 0; }
  }

  lemma SmallQuotient(h: Host, a: int, b: int, m: int, n: int)
    requires 0 <= a <= m && 0 < b <= n && (n <= 1 || m == 0)
    ensures HostDiv(h, a, b) <= m / Max2(1, n)
  {
    if n <= 1 { assert a / 1 == a && m / 1 == m; } else { assert 0 / b == 0 && 0 / n == 0; }
  }

  lemma DivShrinks(m: int, n: int)
    requires m > 0 && n > 1
    ensures m / n < m
  {
    var q := m / n;
    QuotientTimes(m, n);
    if q >= m { MulLe(m, 2, q, n); }
  }

  lemma QuotientTimes(m: int, n: int)
    requires n > 0
    ensures (m / n) * n <= m
  {
    assert m == (m / n) * n + m % n;
  }

  // ---------------------------------------------------------------- dynamic sizes

  /** The variables that occur in an expression. */
  function VarsOf(e: PrimExpr): set<PrimExpr> {
    match e
    case IntImm(_) => {}
    case PrimVar(_, _, _) => {e}
    case Bin(_, l, r) => VarsOf(l) + VarsOf(r)
  }

  function ShapeVars(shape: seq<PrimExpr>): set<PrimExpr> {
    set e <- shape, x <- VarsOf(e) :: x
  }

  /** Whether those of the variables that look alike have the same value. */
  predicate NamesakesAgree(vars: set<PrimExpr>, E: Env) {
    forall a <- vars, b <- vars :: SameExpr(a, b) ==> EvalPrim(Cpp, a, E) == EvalPrim(Cpp, b, E)
  }

  /** Structural equality compares values, provided the variables that occur agree. */
  lemma {:induction false} SameExprSameValue(h: Host, a: PrimExpr, b: PrimExpr, vars: set<PrimExpr>, E: Env)
    requires SameExpr(a, b) && NamesakesAgree(vars, E) && VarsOf(a) <= vars && VarsOf(b) <= vars
    ensures EvalPrim(h, a, E) == EvalPrim(h, b, E)
  {
    match (a, b)
    case (Bin(_, l, r), Bin(_, x, y)) =>
      SameExprSameValue(h, l, x, vars, E);
      SameExprSameValue(h, r, y, vars, E);
    case (PrimVar(i, m, _), PrimVar(j, n, _)) =>
      assert a in vars && b in vars;
    case _ =>
  }

  /** Without it, two dimensions of one name count as equal although they differ. */
  lemma NamesakesDiffer()
    ensures var a, b := PrimVar(0, "n", None), PrimVar(1, "n", None);
      var E: Env := map[0 := VInt(4), 1 := VInt(1024)];
      SameExpr(a, b) && EvalPrim(Cpp, a, E) != EvalPrim(Cpp, b, E)
  {
  }
}

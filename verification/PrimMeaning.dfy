/** Symbolic expressions as arithmetic, stated apart from the builtins that compute them
    (python/devproc2/ir/prim_expr.py, runtime/src/builtins.cc, python/devproc2/vm/interpreter.py). */
module PrimMeaning {
  import opened Bytecode
  import opened Runtime
  import opened PrimExprs

  // ---------------------------------------------------------------- operators

  /** A quotient leaves a remainder smaller than the divisor; C++ gives it the dividend's sign, Python the divisor's. */
  ghost predicate Quotient(h: Host, x: int, y: int, n: int) {
    exists r :: x == n * y + r && Remainder(h, x, y, r)
  }

  predicate Remainder(h: Host, x: int, y: int, r: int) {
    Size(r) < Size(y) && (r == 0 || (r > 0 <==> (if h == Cpp then x else y) > 0))
  }

  function Size(y: int): nat {
    if y < 0 then -y else y
  }

  /** The number that an operator gives; C++ refuses to round up by a divisor that is not positive. */
  ghost predicate OpGives(h: Host, op: BinOp, x: int, y: int, n: int) {
    match op
    case Add => n - y == x
    case Sub => n + y == x
    case Mul => n == x * y
    case FloorDiv => y != 0 && Quotient(h, x, y, n)
    case CeilDiv => (if h == Cpp then y > 0 else y != 0) && Quotient(h, x + y - 1, y, n)
    case Min => (n == x || n == y) && n <= x && n <= y
    case Max => (n == x || n == y) && n >= x && n >= y
    case _ => false
  }

  /** There is one quotient. */
  lemma QuotientIs(h: Host, x: int, y: int, n: int)
    requires y != 0
    ensures Quotient(h, x, y, n) <==> n == HostDiv(h, x, y)
  {
    var q := HostDiv(h, x, y);
    var r := x - q * y;
    DivisionRemains(h, x, y);
    assert x == q * y + r && Remainder(h, x, y, r);
    if Quotient(h, x, y, n) {
      var r' :| x == n * y + r' && Remainder(h, x, y, r');
      OneQuotientOnly(h, x, y, q, r, n, r');
    }
  }

  lemma Euclid(x: int, y: int)
    requires y != 0
    ensures x == x / y * y + x % y && 0 <= x % y < Size(y)
  {
  }

  lemma DivisionRemains(h: Host, x: int, y: int)
    requires y != 0
    ensures Remainder(h, x, y, x - HostDiv(h, x, y) * y)
  {
    if h == Cpp {
      CppRemains(x, y);
    } else if y > 0 {
      Euclid(x, y);
    } else {
      Euclid(-x, -y);
      var q := (-x) / (-y);
      assert q * (-y) == -(q * y);
    }
  }

  lemma CppRemains(x: int, y: int)
    requires y != 0
    ensures Remainder(Cpp, x, y, x - HostDiv(Cpp, x, y) * y)
  {
    hide TruncDiv;
    TruncRest(x, y);
    Euclid(x, y);
    Euclid(-x, y);
    if x == 0 { Euclid(0, y); ZeroRest(y); }
  }

  lemma ZeroRest(y: int)
    requires y != 0
    ensures 0 % y == 0
  {
  }

  lemma TruncRest(x: int, y: int)
    requires y != 0
    ensures x - TruncDiv(x, y) * y == if x >= 0 then x % y else -((-x) % y)
  {
    if x >= 0 {
      Euclid(x, y);
    } else {
      Euclid(-x, y);
      Negated((-x) / y, y);
    }
  }

  lemma Negated(q: int, y: int)
    ensures (-q) * y == -(q * y)
  {
  }

  lemma OneQuotientOnly(h: Host, x: int, y: int, q: int, r: int, n: int, r': int)
    requires y != 0 && x == q * y + r && x == n * y + r' && Remainder(h, x, y, r) && Remainder(h, x, y, r')
    ensures q == n
  {
    assert (q - n) * y == r' - r;
    if q - n >= 1 || q - n <= -1 {
      Apart(q - n, y);
    }
  }

  lemma Apart(d: int, y: int)
    requires d >= 1 || d <= -1
    ensures Size(d * y) >= Size(y)
  {
    if d >= 1 {
      assert y >= 0 ==> d * y >= y;
      assert y < 0 ==> d * y <= y;
    } else {
      assert y >= 0 ==> d * y <= -y;
      assert y < 0 ==> d * y >= -y;
    }
  }

  /** The builtins compute it. */
  lemma OpMeans(h: Host, op: BinOp, x: int, y: int, n: int)
    ensures OpGives(h, op, x, y, n) <==>
      BuiltinOf(op).Some? && Arithmetic(h, BuiltinOf(op).value, [VInt(x), VInt(y)]) == Some(VInt(n))
  {
    hide HostDiv, Quotient;
    if op == FloorDiv && y != 0 { QuotientIs(h, x, y, n); }
    if op == CeilDiv && y != 0 { QuotientIs(h, x + y - 1, y, n); }
  }

  /** Python rounds down and up, C++ toward zero, which is the same for a quotient that is not negative. */
  lemma RoundsDownAndUp(h: Host, x: int, y: int, n: int)
    requires y > 0
    ensures OpGives(h, FloorDiv, x, y, n) && (h == Py || x >= 0) ==> n * y <= x < n * y + y
    ensures OpGives(h, CeilDiv, x, y, n) && (h == Py || x + y - 1 >= 0) ==> n * y - y < x <= n * y
  {
  }

  // ---------------------------------------------------------------- expressions

  /** The number that an expression stands for, given its variables. */
  ghost predicate Gives(h: Host, e: PrimExpr, E: Env, n: int) {
    match e
    case IntImm(i) => n == i
    case PrimVar(id, _, _) => id in E && E[id] == VInt(n)
    case Bin(op, l, r) => exists x, y :: Gives(h, l, E, x) && Gives(h, r, E, y) && OpGives(h, op, x, y, n)
  }

  /** Its variables are integers as far as they are bound. */
  predicate Integral(e: PrimExpr, E: Env) {
    match e
    case IntImm(_) => true
    case PrimVar(id, _, _) => id in E ==> E[id].VInt?
    case Bin(_, l, r) => Integral(l, E) && Integral(r, E)
  }

  /** Evaluation gives that number, and nothing when there is none. */
  lemma {:induction false} PrimMeans(h: Host, e: PrimExpr, E: Env)
    requires Integral(e, E)
    ensures forall n :: Gives(h, e, E, n) <==> EvalPrim(h, e, E) == Some(VInt(n))
    ensures EvalPrim(h, e, E).Some? ==> EvalPrim(h, e, E).value.VInt?
  {
    hide OpGives, Arithmetic;
    if e.Bin? {
      PrimMeans(h, e.lhs, E);
      PrimMeans(h, e.rhs, E);
      forall n ensures Gives(h, e, E, n) <==> EvalPrim(h, e, E) == Some(VInt(n)) {
        BinMeans(h, e, E, n);
      }
      if EvalPrim(h, e, E).Some? { BinIsInt(h, e, E); }
    }
  }

  lemma BinMeans(h: Host, e: PrimExpr, E: Env, n: int)
    requires e.Bin?
    requires forall m :: Gives(h, e.lhs, E, m) <==> EvalPrim(h, e.lhs, E) == Some(VInt(m))
    requires forall m :: Gives(h, e.rhs, E, m) <==> EvalPrim(h, e.rhs, E) == Some(VInt(m))
    requires EvalPrim(h, e.lhs, E).Some? ==> EvalPrim(h, e.lhs, E).value.VInt?
    requires EvalPrim(h, e.rhs, E).Some? ==> EvalPrim(h, e.rhs, E).value.VInt?
    ensures Gives(h, e, E, n) <==> EvalPrim(h, e, E) == Some(VInt(n))
  {
    hide OpGives, Arithmetic;
    var l, r := EvalPrim(h, e.lhs, E), EvalPrim(h, e.rhs, E);
    if l.Some? && r.Some? {
      var x, y := l.value.i, r.value.i;
      OpMeans(h, e.op, x, y, n);
      assert Gives(h, e.lhs, E, x) && Gives(h, e.rhs, E, y);
    }
  }

  lemma BinIsInt(h: Host, e: PrimExpr, E: Env)
    requires e.Bin? && EvalPrim(h, e, E).Some?
    requires EvalPrim(h, e.lhs, E).value.VInt? && EvalPrim(h, e.rhs, E).value.VInt?
    ensures EvalPrim(h, e, E).value.VInt?
  {
    hide HostDiv;
  }
}

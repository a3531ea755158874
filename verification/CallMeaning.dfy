/** What foreign code is called with, stated apart from evaluation
    (python/devproc2/compiler/passes/vm_codegen.py, runtime/src/vm.cc). */
module CallMeaning {
  import opened Bytecode
  import opened Runtime
  import opened Builtins
  import opened PrimExprs
  import opened PrimMeaning
  import opened BuiltinMeaning
  import opened IRValues
  import opened MemoryIR
  import opened Structured

  /** What an operand stands for: what its name is bound to, or the constant; C++ has no strings. */
  predicate Denotes(h: Host, v: Value, E: Env, x: Val) {
    match v
    case Imm(Null) => x == VNull
    case Imm(Int(i)) => x == VInt(i)
    case Imm(Float(bits)) => x == VFloat(bits)
    case Imm(Bool(b)) => x == VBool(b)
    case Imm(Str(s)) => x == if h == Cpp then VNull else VStr(s)
    case Var(id, _) => id in E && x == E[id]
    case Res(id) => id in E && x == E[id]
  }

  predicate AllDenote(h: Host, vs: seq<Value>, E: Env, xs: seq<Val>) {
    |xs| == |vs| && forall k :: 0 <= k < |vs| ==> Denotes(h, vs[k], E, xs[k])
  }

  ghost predicate AllGive(h: Host, es: seq<PrimExpr>, E: Env, ns: seq<int>) {
    |ns| == |es| && forall k :: 0 <= k < |es| ==> Gives(h, es[k], E, ns[k])
  }

  /** Launch dimensions are numbers on both hosts, and passed on by the C++ host only. */
  ghost predicate Launches(h: Host, es: seq<PrimExpr>, E: Env, dims: seq<int>) {
    exists ns :: AllGive(h, es, E, ns) && dims == if h == Cpp then ns else []
  }

  /** The call that an op makes: inputs, then outputs, and its launch dimensions. */
  ghost predicate IsCallOf(h: Host, op: Op, E: Env, e: Event)
    requires op.CallDPSOp?
  {
    e.kind == op.kind && e.name == op.name && AllDenote(h, op.inputs + op.outputs, E, e.args) &&
    Launches(h, op.launch, E, e.launch)
  }

  lemma {:induction false} DenotesIs(h: Host, v: Value, E: Env, x: Val)
    ensures Denotes(h, v, E, x) <==> EvalValue(h, v, E) == Some(x)
  {
  }

  lemma {:induction false} AllDenoteIs(h: Host, vs: seq<Value>, E: Env, xs: seq<Val>)
    ensures AllDenote(h, vs, E, xs) <==> EvalValues(h, vs, E) == Some(xs)
    decreases |vs|
  {
    hide Denotes, EvalValue;
    if vs != [] && xs != [] {
      DenotesIs(h, vs[0], E, xs[0]);
      AllDenoteIs(h, vs[1..], E, xs[1..]);
      assert xs == [xs[0]] + xs[1..];
      if AllDenote(h, vs[1..], E, xs[1..]) && Denotes(h, vs[0], E, xs[0]) {
        forall k | 0 <= k < |vs| ensures Denotes(h, vs[k], E, xs[k]) {
          if k > 0 { assert Denotes(h, vs[1..][k - 1], E, xs[1..][k - 1]); }
        }
      }
      if AllDenote(h, vs, E, xs) {
        forall k | 0 <= k < |vs[1..]| ensures Denotes(h, vs[1..][k], E, xs[1..][k]) {
          assert Denotes(h, vs[k + 1], E, xs[k + 1]);
        }
      }
    }
  }

  lemma {:induction false} EvalBoth(h: Host, a: seq<Value>, b: seq<Value>, E: Env)
    ensures EvalValues(h, a + b, E) ==
      match (EvalValues(h, a, E), EvalValues(h, b, E))
      case (Some(x), Some(y)) => Some(x + y)
      case _ => None
    decreases |a|
  {
    hide EvalValue;
    if a == [] {
      assert a + b == b;
      if EvalValues(h, b, E).Some? { assert [] + EvalValues(h, b, E).value == EvalValues(h, b, E).value; }
    } else {
      assert (a + b)[0] == a[0] && (a + b)[1..] == a[1..] + b;
      EvalBoth(h, a[1..], b, E);
      var v, x, y := EvalValue(h, a[0], E), EvalValues(h, a[1..], E), EvalValues(h, b, E);
      if v.Some? && x.Some? && y.Some? { assert [v.value] + (x.value + y.value) == ([v.value] + x.value) + y.value; }
    }
  }

  predicate AllIntegral(es: seq<PrimExpr>, E: Env) {
    forall k :: 0 <= k < |es| ==> Integral(es[k], E)
  }

  lemma {:induction false} NumbersAre(h: Host, es: seq<PrimExpr>, E: Env, ns: seq<int>)
    requires AllIntegral(es, E)
    ensures AllGive(h, es, E, ns) <==> EvalPrims(h, es, E).Some? && AsInts(h, EvalPrims(h, es, E).value) == Some(ns)
    ensures EvalPrims(h, es, E).Some? ==> AsInts(h, EvalPrims(h, es, E).value).Some?
    decreases |es|
  {
    hide Gives, EvalPrim, Integral;
    if es != [] {
      PrimMeans(h, es[0], E);
      assert AllIntegral(es[1..], E);
      NumbersAre(h, es[1..], E, if ns == [] then [] else ns[1..]);
      if ns != [] {
        GiveFirst(h, es, E, ns);
        assert ns == [ns[0]] + ns[1..];
      }
    }
  }

  lemma GiveFirst(h: Host, es: seq<PrimExpr>, E: Env, ns: seq<int>)
    requires es != [] && ns != []
    ensures AllGive(h, es, E, ns) <==> Gives(h, es[0], E, ns[0]) && AllGive(h, es[1..], E, ns[1..])
  {
    hide Gives;
    if Gives(h, es[0], E, ns[0]) && AllGive(h, es[1..], E, ns[1..]) {
      forall k | 0 <= k < |es| ensures Gives(h, es[k], E, ns[k]) {
        if k > 0 { assert Gives(h, es[1..][k - 1], E, ns[1..][k - 1]); }
      }
    }
  }

  /** A call of foreign code is made with exactly these arguments and recorded last; nothing else changes, and it is
      not made at all when an argument has no value. */
  lemma CallsExactly(M: Machine, op: Op, E: Env, w: World)
    requires op.CallDPSOp? && op.kind != Builtin && AllIntegral(op.launch, E)
    ensures forall e: Event :: IsCallOf(M.host, op, E, e) ==>
      EvalSimple(M, op, E, w) == match M.ext(w, e)
        case Some(_) => Ok(E, w + [e])
        case None => Raised(w + [e])
    ensures (forall e: Event :: !IsCallOf(M.host, op, E, e)) ==> EvalSimple(M, op, E, w) == Raised(w)
  {
    hide EvalValues, EvalPrims, AsInts, AllDenote, AllGive;
    var h, vs := M.host, op.inputs + op.outputs;
    EvalBoth(h, op.inputs, op.outputs, E);
    forall e: Event | IsCallOf(h, op, E, e)
      ensures EvalSimple(M, op, E, w) == match M.ext(w, e)
        case Some(_) => Ok(E, w + [e])
        case None => Raised(w + [e])
    {
      AllDenoteIs(h, vs, E, e.args);
      var ns :| AllGive(h, op.launch, E, ns) && e.launch == if h == Cpp then ns else [];
      NumbersAre(h, op.launch, E, ns);
      assert e == Event(op.kind, op.name, e.args, e.launch);
    }
    var xs, ls := EvalValues(h, vs, E), EvalPrims(h, op.launch, E);
    if xs.Some? && ls.Some? {
      NumbersAre(h, op.launch, E, []);
      var ns := AsInts(h, ls.value).value;
      NumbersAre(h, op.launch, E, ns);
      AllDenoteIs(h, vs, E, xs.value);
      assert IsCallOf(h, op, E, Event(op.kind, op.name, xs.value, if h == Cpp then ns else []));
    }
  }

  // ---------------------------------------------------------------- loop bounds

  /** A loop bound is what its name is bound to; a constant is made an integer the way Python does, on both hosts. */
  lemma BoundMeans(h: Host, v: Value, E: Env, x: Val)
    ensures EvalBound(h, v, E) == Some(x) <==>
      if v.Imm? then !v.c.Float? && !v.c.Str? && x.VInt? && IntIs(Py, Load(Py, v.c), x.i) else Denotes(h, v, E, x)
  {
  }
}

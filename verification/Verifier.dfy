/** The IR verifier on memory-stage functions (python/devproc2/ir/verifier.py), and how far being
    verified goes towards being compiled. */
module Verifier {
  import opened Bytecode
  import opened PrimExprs
  import opened IRValues
  import opened MemoryIR
  import opened CodegenSpec
  import opened CodegenState
  import opened WellFormed
  import opened ModuleForm
  import opened Codegen

  // ---------------------------------------------------------------- what the verifier accepts

  /** A variable is looked up by name, an op result by identity. */
  predicate Known(v: Value, names: set<string>, results: set<nat>) {
    match v
    case Var(_, name) => name in names
    case Res(id) => id in results
    case Imm(_) => true
  }

  predicate AllKnown(vs: seq<Value>, names: set<string>, results: set<nat>) {
    forall k :: 0 <= k < |vs| ==> Known(vs[k], names, results)
  }

  /** Results of one op: new, and not listed twice. */
  predicate NewResults(ids: seq<nat>, results: set<nat>) {
    Distinct(ids) && Ids(ids) !! results
  }

  function ResultsOf(op: Op): seq<nat> {
    match op
    case AllocStorageOp(res, _, _, _, _) => [res]
    case AllocTensorOp(res, _, _, _, _) => [res]
    case TensorViewOp(res, _, _, _, _, _) => [res]
    case CallDPSOp(_, _, _, _, _) => []
    case ShapeAssertOp(_, _, _) => []
    case TupleOp(res, _) => [res]
    case TupleGetItemOp(res, _, _) => [res]
    case IfOp(results, _, _, _) => results
    case ForOp(results, _, _, _, _, _, _, _) => results
  }

  /** The value operands; symbolic dimensions are not among them. */
  function Operands(op: Op): seq<Value> {
    match op
    case AllocStorageOp(_, _, _, _, _) => []
    case AllocTensorOp(_, storage, _, _, _) => [storage]
    case TensorViewOp(_, base, byteOffset, _, _, _) => [base, byteOffset]
    case CallDPSOp(_, _, inputs, outputs, _) => inputs + outputs
    case ShapeAssertOp(tensor, _, _) => [tensor]
    case TupleOp(_, elems) => elems
    case TupleGetItemOp(_, tup, _) => [tup]
    case IfOp(_, cond, _, _) => [cond]
    case ForOp(_, _, _, start, end, step, iters, _) => [start, end, step] + IterInits(iters)
  }

  /** Carried variables must not shadow; the loop variable itself may. */
  predicate NewNames(iters: seq<IterArg>, names: set<string>)
    decreases |iters|
  {
    iters == [] || (iters[0].name !in names && NewNames(iters[1..], names + {iters[0].name}))
  }

  function IterNames(iters: seq<IterArg>): set<string> {
    set it <- iters :: it.name
  }

  predicate Verified(op: Op, names: set<string>, results: set<nat>)
    decreases op, 1
  {
    AllKnown(Operands(op), names, results) &&
    match op
    case IfOp(res, _, thn, els) =>
      VerifiedBlock(thn, names, results) &&
      (els.Some? ==> VerifiedBlock(els.value, names, results)) &&
      |res| == |thn.yielded| && (res != [] ==> els.Some?) && (els.Some? ==> |els.value.yielded| == |thn.yielded|)
    case ForOp(res, _, loopName, _, _, _, iters, body) =>
      |body.yielded| == |iters| && (res != [] ==> |res| == |iters|) && NewNames(iters, names + {loopName}) &&
      VerifiedBlock(body, names + {loopName} + IterNames(iters), results)
    case CallDPSOp(kind, _, _, _, _) => kind != VMFunc
    case _ => true
  }

  predicate VerifiedBlock(b: Block, names: set<string>, results: set<nat>)
    decreases b, 0
  {
    VerifiedOps(b.ops, names, results) && AllKnown(b.yielded, names, results + DefinesOps(b.ops))
  }

  predicate VerifiedOps(ops: seq<Op>, names: set<string>, results: set<nat>)
    decreases ops, 0
  {
    ops == [] ||
    (Verified(ops[0], names, results) && NewResults(ResultsOf(ops[0]), results) &&
     VerifiedOps(ops[1..], names, results + Defines(ops[0])))
  }

  predicate DistinctNames(params: seq<Param>) {
    forall i, j :: 0 <= i < j < |params| ==> params[i].name != params[j].name
  }

  function NamesOf(params: seq<Param>): set<string> {
    set p <- params :: p.name
  }

  predicate VerifiedFunction(fn: Function) {
    DistinctNames(fn.params) && VerifiedOps(fn.body, NamesOf(fn.params), {}) &&
    AllKnown(fn.ret, NamesOf(fn.params), DefinesOps(fn.body))
  }

  // ---------------------------------------------------------------- the verifier

  method CheckValues(vs: seq<Value>, names: set<string>, results: set<nat>) returns (ok: bool)
    ensures ok <==> AllKnown(vs, names, results)
  {
    for k := 0 to |vs|
      invariant forall j :: 0 <= j < k ==> Known(vs[j], names, results)
    {
      if !Known(vs[k], names, results) { return false; }
    }
    return true;
  }

  lemma DefinesAre(op: Op)
    ensures Defines(op) == Ids(ResultsOf(op))
  {
  }

  /** Adds an op's results to the defined ones, one by one. */
  method DefineResults(ids: seq<nat>, results: set<nat>) returns (ok: bool, results': set<nat>)
    ensures ok <==> NewResults(ids, results)
    ensures ok ==> results' == results + Ids(ids)
  {
    results' := results;
    for k := 0 to |ids|
      invariant Distinct(ids[..k]) && Ids(ids[..k]) !! results && results' == results + Ids(ids[..k])
    {
      assert ids[..k + 1] == ids[..k] + [ids[k]];
      if ids[k] in results' {
        assert ids[k] in Ids(ids);
        return false, results';
      }
      results' := results' + {ids[k]};
    }
    assert ids[..|ids|] == ids;
    return true, results';
  }

  method VerifyOp(op: Op, names: set<string>, results: set<nat>) returns (ok: bool)
    ensures ok <==> Verified(op, names, results)
    decreases op, 1
  {
    ok := CheckValues(Operands(op), names, results);
    if !ok { return; }
    match op {
      case IfOp(res, _, thn, els) =>
        ok := VerifyBlock(thn, names, results);
        if !ok { return; }
        if els.Some? {
          ok := VerifyBlock(els.value, names, results);
          if !ok { return; }
        }
        if |res| != |thn.yielded| || (res != [] && els.None?) { return false; }
        if els.Some? && |els.value.yielded| != |thn.yielded| { return false; }
      case ForOp(res, _, loopName, _, _, _, iters, body) =>
        if |body.yielded| != |iters| || (res != [] && |res| != |iters|) { return false; }
        var inner := names + {loopName};
        assert iters[0..] == iters;
        for k := 0 to |iters|
          invariant NewNames(iters, names + {loopName}) <==> NewNames(iters[k..], inner)
          invariant inner == names + {loopName} + IterNames(iters[..k])
        {
          assert iters[k..][1..] == iters[k + 1..];
          assert iters[..k + 1] == iters[..k] + [iters[k]];
          if iters[k].name in inner { return false; }
          inner := inner + {iters[k].name};
        }
        assert iters[..|iters|] == iters;
        ok := VerifyBlock(body, inner, results);
      case CallDPSOp(kind, _, _, _, _) => ok := kind != VMFunc;
      case _ =>
    }
  }

  method VerifyBlock(b: Block, names: set<string>, results: set<nat>) returns (ok: bool)
    ensures ok <==> VerifiedBlock(b, names, results)
    decreases b, 0
  {
    var defined;
    ok, defined := VerifyOps(b.ops, names, results);
    if ok { ok := CheckValues(b.yielded, names, defined); }
  }

  /** Ops in order; each op's results become known after it. */
  method VerifyOps(ops: seq<Op>, names: set<string>, results: set<nat>) returns (ok: bool, defined: set<nat>)
    ensures ok <==> VerifiedOps(ops, names, results)
    ensures ok ==> defined == results + DefinesOps(ops)
    decreases ops, 0
  {
    ok, defined := true, results;
    assert ops[0..] == ops;
    for k := 0 to |ops|
      invariant VerifiedOps(ops, names, results) <==> VerifiedOps(ops[k..], names, defined)
      invariant defined + DefinesOps(ops[k..]) == results + DefinesOps(ops)
    {
      assert ops[k..][1..] == ops[k + 1..];
      DefinesAre(ops[k]);
      ok := VerifyOp(ops[k], names, defined);
      if !ok { return; }
      ok, defined := DefineResults(ResultsOf(ops[k]), defined);
      if !ok { return; }
    }
    assert ops[|ops|..] == [];
  }

  method VerifyFunction(fn: Function) returns (ok: bool)
    ensures ok <==> VerifiedFunction(fn)
  {
    var names: set<string> := {};
    for k := 0 to |fn.params|
      invariant names == NamesOf(fn.params[..k]) && DistinctNames(fn.params[..k])
    {
      assert fn.params[..k + 1] == fn.params[..k] + [fn.params[k]];
      if fn.params[k].name in names {
        var j :| 0 <= j < k && fn.params[..k][j].name == fn.params[k].name;
        assert fn.params[j].name == fn.params[k].name;
        return false;
      }
      names := names + {fn.params[k].name};
    }
    assert fn.params[..|fn.params|] == fn.params;
    var defined;
    ok, defined := VerifyOps(fn.body, names, {});
    if ok { ok := CheckValues(fn.ret, names, defined); }
  }

  // ---------------------------------------------------------------- verified and compiled

  /** Compiling can fail for five separate reasons. */
  datatype Aspect =
    | Vars       // a variable object that was never bound
    | Results    // an op result used before its op
    | Dims       // a symbolic dimension no parameter has, or a comparison in a shape
    | Bounds     // a loop bound that is not an integer
    | Structure  // results without an else-branch, more loop results than carried variables

  predicate ValuePasses(a: Aspect, v: Value, bound: set<nat>) {
    match a
    case Vars => v.Var? ==> v.id in bound
    case Results => v.Res? ==> v.id in bound
    case _ => true
  }

  predicate ValuesPass(a: Aspect, vs: seq<Value>, bound: set<nat>) {
    forall k :: 0 <= k < |vs| ==> ValuePasses(a, vs[k], bound)
  }

  predicate DimsPass(a: Aspect, es: seq<PrimExpr>, bound: set<nat>) {
    a == Dims ==> BoundPrims(es, bound)
  }

  predicate InitsPass(a: Aspect, iters: seq<IterArg>, bound: set<nat>)
    decreases |iters|
  {
    iters == [] ||
    (ValuePasses(a, iters[0].init, bound + {iters[0].v}) && InitsPass(a, iters[1..], bound + {iters[0].v}))
  }

  /** The op gives compilation no cause to fail in this respect. */
  predicate Passes(a: Aspect, op: Op, bound: set<nat>)
    decreases op, 1
  {
    match op
    case AllocStorageOp(_, size, _, _, _) => DimsPass(a, [size], bound)
    case AllocTensorOp(_, storage, _, shape, _) => ValuePasses(a, storage, bound) && DimsPass(a, shape, bound)
    case TensorViewOp(_, base, byteOffset, shape, _, _) =>
      ValuePasses(a, base, bound) && ValuePasses(a, byteOffset, bound) && DimsPass(a, shape, bound)
    case CallDPSOp(kind, _, inputs, outputs, launch) =>
      (a == Structure ==> kind != VMFunc) &&
      ValuesPass(a, inputs, bound) && ValuesPass(a, outputs, bound) && DimsPass(a, launch, bound)
    case ShapeAssertOp(tensor, _, _) => ValuePasses(a, tensor, bound)
    case TupleOp(_, elems) => ValuesPass(a, elems, bound)
    case TupleGetItemOp(_, tup, _) => ValuePasses(a, tup, bound)
    case IfOp(results, cond, thn, els) =>
      (a == Structure ==> results != [] ==> els.Some?) &&
      ValuePasses(a, cond, bound) &&
      BlockPasses(a, thn, |results|, bound + Ids(results)) &&
      (els.Some? ==> BlockPasses(a, els.value, |results|, bound + Ids(results) + BindsOps(thn.ops)))
    case ForOp(results, loopVar, _, start, end, step, iters, body) =>
      (a == Bounds ==> IntegralBound(start) && IntegralBound(end) && IntegralBound(step)) &&
      ValuePasses(a, start, bound) && ValuePasses(a, end, bound) && ValuePasses(a, step, bound) &&
      InitsPass(a, iters, bound + {loopVar}) &&
      BlockPasses(a, body, |iters|, bound + {loopVar} + Ids(IterVars(iters))) &&
      (a == Structure ==> |results| <= |iters|)
  }

  predicate BlockPasses(a: Aspect, b: Block, n: nat, bound: set<nat>)
    decreases b, 0
  {
    OpsPass(a, b.ops, bound) &&
    ValuesPass(a, if |b.yielded| <= n then b.yielded else b.yielded[..n], bound + BindsOps(b.ops))
  }

  predicate OpsPass(a: Aspect, ops: seq<Op>, bound: set<nat>)
    decreases ops, 0
  {
    ops == [] || (Passes(a, ops[0], bound) && OpsPass(a, ops[1..], bound + Binds(ops[0])))
  }

  lemma BoundByAspect(v: Value, bound: set<nat>)
    ensures BoundValue(v, bound) <==> ValuePasses(Vars, v, bound) && ValuePasses(Results, v, bound)
    ensures ValuePasses(Dims, v, bound) && ValuePasses(Bounds, v, bound) && ValuePasses(Structure, v, bound)
  {
  }

  lemma ValuesByAspect(vs: seq<Value>, bound: set<nat>)
    ensures BoundValues(vs, bound) <==> ValuesPass(Vars, vs, bound) && ValuesPass(Results, vs, bound)
    ensures ValuesPass(Dims, vs, bound) && ValuesPass(Bounds, vs, bound) && ValuesPass(Structure, vs, bound)
  {
    forall k | 0 <= k < |vs|
      ensures BoundValue(vs[k], bound) <==> ValuePasses(Vars, vs[k], bound) && ValuePasses(Results, vs[k], bound)
    {
      BoundByAspect(vs[k], bound);
    }
  }

  lemma {:induction false} InitsByAspect(iters: seq<IterArg>, bound: set<nat>)
    ensures InitsBound(iters, bound) <==> InitsPass(Vars, iters, bound) && InitsPass(Results, iters, bound)
    ensures InitsPass(Dims, iters, bound) && InitsPass(Bounds, iters, bound) && InitsPass(Structure, iters, bound)
    decreases |iters|
  {
    if iters != [] {
      BoundByAspect(iters[0].init, bound + {iters[0].v});
      InitsByAspect(iters[1..], bound + {iters[0].v});
    }
  }

  /** No aspect fails. */
  predicate AllPass(op: Op, bound: set<nat>) {
    Passes(Vars, op, bound) && Passes(Results, op, bound) && Passes(Dims, op, bound) && Passes(Bounds, op, bound) &&
    Passes(Structure, op, bound)
  }

  predicate AllOpsPass(ops: seq<Op>, bound: set<nat>) {
    OpsPass(Vars, ops, bound) && OpsPass(Results, ops, bound) && OpsPass(Dims, ops, bound) &&
    OpsPass(Bounds, ops, bound) &&
    OpsPass(Structure, ops, bound)
  }

  predicate AllBlockPasses(b: Block, n: nat, bound: set<nat>) {
    BlockPasses(Vars, b, n, bound) && BlockPasses(Results, b, n, bound) && BlockPasses(Dims, b, n, bound) &&
    BlockPasses(Bounds, b, n, bound) && BlockPasses(Structure, b, n, bound)
  }

  /** An op compiles exactly when no aspect fails. */
  lemma {:induction false} CompilesByAspect(op: Op, bound: set<nat>)
    ensures Compiles(op, bound) <==> AllPass(op, bound)
    decreases op, 1
  {
    hide BoundValue, ValuePasses, BoundPrim, CompilesBlock, BlockPasses, AllBlockPasses;
    match op
    case AllocStorageOp(_, size, _, _, _) =>
      assert BoundPrims([size], bound) <==> BoundPrim(size, bound) by {
        assert [size][0] == size;
        if BoundPrims([size], bound) { assert BoundPrim([size][0], bound); }
      }
    case AllocTensorOp(_, storage, _, _, _) => BoundByAspect(storage, bound);
    case TensorViewOp(_, base, byteOffset, _, _, _) =>
      BoundByAspect(base, bound);
      BoundByAspect(byteOffset, bound);
    case CallDPSOp(_, _, inputs, outputs, _) =>
      ValuesByAspect(inputs, bound);
      ValuesByAspect(outputs, bound);
    case ShapeAssertOp(tensor, _, _) => BoundByAspect(tensor, bound);
    case TupleOp(_, elems) => ValuesByAspect(elems, bound);
    case TupleGetItemOp(_, tup, _) => BoundByAspect(tup, bound);
    case IfOp(results, cond, thn, els) =>
      BoundByAspect(cond, bound);
      BlockByAspect(thn, |results|, bound + Ids(results));
      if els.Some? { BlockByAspect(els.value, |results|, bound + Ids(results) + BindsOps(thn.ops)); }
      BlocksSplit(thn, |results|, bound + Ids(results));
      if els.Some? { BlocksSplit(els.value, |results|, bound + Ids(results) + BindsOps(thn.ops)); }
    case ForOp(results, loopVar, _, start, end, step, iters, body) =>
      BoundByAspect(start, bound);
      BoundByAspect(end, bound);
      BoundByAspect(step, bound);
      InitsByAspect(iters, bound + {loopVar});
      BlockByAspect(body, |iters|, bound + {loopVar} + Ids(IterVars(iters)));
      BlocksSplit(body, |iters|, bound + {loopVar} + Ids(IterVars(iters)));
  }

  lemma {:induction false} BlocksSplit(b: Block, n: nat, bound: set<nat>)
    ensures AllBlockPasses(b, n, bound) <==>
      (BlockPasses(Vars, b, n, bound) && BlockPasses(Results, b, n, bound) && BlockPasses(Dims, b, n, bound) &&
       BlockPasses(Bounds, b, n, bound) && BlockPasses(Structure, b, n, bound))
  {
  }

  lemma {:induction false} BlockByAspect(b: Block, n: nat, bound: set<nat>)
    ensures CompilesBlock(b, n, bound) <==> AllBlockPasses(b, n, bound)
    decreases b, 0
  {
    hide OpsPass, CompilesOps, ValuesPass;
    OpsByAspect(b.ops, bound);
    ValuesByAspect(if |b.yielded| <= n then b.yielded else b.yielded[..n], bound + BindsOps(b.ops));
  }

  lemma {:induction false} OpsByAspect(ops: seq<Op>, bound: set<nat>)
    ensures CompilesOps(ops, bound) <==> AllOpsPass(ops, bound)
    decreases ops, 0
  {
    hide Passes, Compiles;
    if ops != [] {
      CompilesByAspect(ops[0], bound);
      OpsByAspect(ops[1..], bound + Binds(ops[0]));
    }
  }

  // ---------------------------------------------------------------- what the verifier guarantees

  lemma KnownPasses(vs: seq<Value>, names: set<string>, results: set<nat>, bound: set<nat>)
    requires AllKnown(vs, names, results) && results <= bound
    ensures ValuesPass(Results, vs, bound) && ValuesPass(Structure, vs, bound)
  {
    forall k | 0 <= k < |vs| ensures ValuePasses(Results, vs[k], bound) {
      assert Known(vs[k], names, results);
    }
  }

  lemma {:induction false} KnownInits(iters: seq<IterArg>, names: set<string>, results: set<nat>, bound: set<nat>)
    requires AllKnown(IterInits(iters), names, results) && results <= bound
    ensures InitsPass(Results, iters, bound) && InitsPass(Structure, iters, bound)
    decreases |iters|
  {
    if iters != [] {
      assert Known(IterInits(iters)[0], names, results);
      forall k | 0 <= k < |iters| - 1 ensures Known(IterInits(iters[1..])[k], names, results) {
        assert Known(IterInits(iters)[k + 1], names, results);
      }
      KnownInits(iters[1..], names, results, bound + {iters[0].v});
    }
  }

  /** Verified ops use results only after they are defined and have the structure compilation needs. */
  lemma {:induction false} VerifiedPasses(op: Op, names: set<string>, results: set<nat>, bound: set<nat>)
    requires Verified(op, names, results) && results <= bound
    ensures Passes(Results, op, bound) && Passes(Structure, op, bound)
    decreases op, 1
  {
    KnownPasses(Operands(op), names, results, bound);
    var vs := Operands(op);
    match op
    case AllocTensorOp(_, storage, _, _, _) => assert vs[0] == storage;
    case TensorViewOp(_, base, byteOffset, _, _, _) => assert vs[0] == base && vs[1] == byteOffset;
    case CallDPSOp(_, _, inputs, outputs, _) =>
      forall k | 0 <= k < |inputs| ensures ValuePasses(Results, inputs[k], bound) { assert vs[k] == inputs[k]; }
      forall k | 0 <= k < |outputs|
        ensures ValuePasses(Results, outputs[k], bound) { assert vs[|inputs| + k] == outputs[k]; }
    case ShapeAssertOp(tensor, _, _) => assert vs[0] == tensor;
    case TupleGetItemOp(_, tup, _) => assert vs[0] == tup;
    case IfOp(res, cond, thn, els) =>
      assert vs[0] == cond;
      VerifiedBlockPasses(thn, |res|, names, results, bound + Ids(res));
      if els.Some? { VerifiedBlockPasses(els.value, |res|, names, results, bound + Ids(res) + BindsOps(thn.ops)); }
    case ForOp(res, loopVar, loopName, start, end, step, iters, body) =>
      assert vs[0] == start && vs[1] == end && vs[2] == step;
      forall k | 0 <= k < |iters|
        ensures Known(IterInits(iters)[k], names, results) { assert vs[3 + k] == IterInits(iters)[k]; }
      KnownInits(iters, names, results, bound + {loopVar});
      VerifiedBlockPasses(body, |iters|, names + {loopName} + IterNames(iters), results, bound + {loopVar} +
                          Ids(IterVars(iters)));
    case _ =>
  }

  lemma {:induction false} VerifiedBlockPasses(b: Block, n: nat, names: set<string>, results: set<nat>, bound: set<nat>)
    requires VerifiedBlock(b, names, results) && |b.yielded| == n && results <= bound
    ensures BlockPasses(Results, b, n, bound) && BlockPasses(Structure, b, n, bound)
    decreases b, 0
  {
    VerifiedOpsPass(b.ops, names, results, bound);
    DefinesBinds(b.ops);
    KnownPasses(b.yielded, names, results + DefinesOps(b.ops), bound + BindsOps(b.ops));
  }

  lemma {:induction false} VerifiedOpsPass(ops: seq<Op>, names: set<string>, results: set<nat>, bound: set<nat>)
    requires VerifiedOps(ops, names, results) && results <= bound
    ensures OpsPass(Results, ops, bound) && OpsPass(Structure, ops, bound)
    decreases ops, 0
  {
    if ops != [] {
      VerifiedPasses(ops[0], names, results, bound);
      DefinesOne(ops[0]);
      VerifiedOpsPass(ops[1..], names, results + Defines(ops[0]), bound + Binds(ops[0]));
    }
  }

  lemma {:induction false} DefinesOne(op: Op)
    ensures Defines(op) <= Binds(op)
  {
  }

  lemma {:induction false} DefinesBinds(ops: seq<Op>)
    ensures DefinesOps(ops) <= BindsOps(ops)
  {
    if ops != [] {
      DefinesOne(ops[0]);
      DefinesBinds(ops[1..]);
    }
  }

  /** A verified function compiles exactly when every variable it uses is the very object that was
      bound, every symbolic dimension comes from a parameter and is arithmetic, loop bounds are
      integers, and it returns at most one value.  The verifier checks none of these four. */
  lemma VerifiedCompiles(fn: Function)
    requires VerifiedFunction(fn)
    ensures CompilesFunction(fn) <==>
      OpsPass(Vars, fn.body, EntryScope(fn)) && OpsPass(Dims, fn.body, EntryScope(fn)) &&
      OpsPass(Bounds, fn.body, EntryScope(fn)) &&
      ValuesPass(Vars, fn.ret, EntryScope(fn) + BindsOps(fn.body)) && |fn.ret| <= 1
  {
    hide OpsPass, ValuesPass, CompilesOps, BoundValues, VerifiedOps;
    VerifiedOpsPass(fn.body, NamesOf(fn.params), {}, EntryScope(fn));
    OpsByAspect(fn.body, EntryScope(fn));
    DefinesBinds(fn.body);
    KnownPasses(fn.ret, NamesOf(fn.params), DefinesOps(fn.body), EntryScope(fn) + BindsOps(fn.body));
    ValuesByAspect(fn.ret, EntryScope(fn) + BindsOps(fn.body));
  }

  /** A namesake of a parameter is good enough for the verifier but not for the compiler. */
  lemma NamesakeDoesNotCompile()
    ensures var fn := Function([Param(0, "x", NotTensor)], [TupleOp(2, [Var(1, "x")])], [Res(2)]);
      VerifiedFunction(fn) && !CompilesFunction(fn)
  {
    var fn := Function([Param(0, "x", NotTensor)], [TupleOp(2, [Var(1, "x")])], [Res(2)]);
    var op := fn.body[0];
    assert fn.params[0] in fn.params;
    assert "x" in NamesOf(fn.params);
    assert Verified(op, NamesOf(fn.params), {}) && NewResults([2], {});
    assert fn.body[1..] == [];
    assert VerifiedOps(fn.body, NamesOf(fn.params), {});
    assert Defines(op) == {2} && DefinesOps(fn.body) == {2};
    assert EntryScope(fn) == {0} by {
      assert ParamIds(fn.params) == [0];
      assert ShapeIds(fn.params) == {};
    }
    assert !BoundValue([Var(1, "x")][0], {0});
    assert !Compiles(op, {0});
  }

  // ---------------------------------------------------------------- well-formed programs compile

  lemma OkIsBound(vs: seq<Value>, scope: set<nat>, bound: set<nat>, kinds: Kinds)
    requires OkValues(vs, scope, kinds) && scope <= bound
    ensures BoundValues(vs, bound)
  {
    forall k | 0 <= k < |vs| ensures BoundValue(vs[k], bound) { assert OkValue(vs[k], scope, kinds); }
  }

  lemma {:induction false} PrimsWiden(e: PrimExpr, scope: set<nat>, bound: set<nat>)
    requires BoundPrim(e, scope) && scope <= bound
    ensures BoundPrim(e, bound)
  {
    if e.Bin? {
      PrimsWiden(e.lhs, scope, bound);
      PrimsWiden(e.rhs, scope, bound);
    }
  }

  lemma AllPrimsWiden(es: seq<PrimExpr>, scope: set<nat>, bound: set<nat>)
    requires BoundPrims(es, scope) && scope <= bound
    ensures BoundPrims(es, bound)
  {
    forall k | 0 <= k < |es| ensures BoundPrim(es[k], bound) { PrimsWiden(es[k], scope, bound); }
  }

  lemma {:induction false} InitsWiden(iters: seq<IterArg>, scope: set<nat>, bound: set<nat>, kinds: Kinds)
    requires OkValues(IterInits(iters), scope, kinds) && scope <= bound
    ensures InitsBound(iters, bound)
    decreases |iters|
  {
    if iters != [] {
      assert OkValue(IterInits(iters)[0], scope, kinds);
      forall k | 0 <= k < |iters| - 1 ensures OkValue(IterInits(iters[1..])[k], scope, kinds) {
        assert OkValue(IterInits(iters)[k + 1], scope, kinds);
      }
      InitsWiden(iters[1..], scope, bound + {iters[0].v}, kinds);
    }
  }

  /** Whatever the correctness theorem covers, compilation accepts. */
  lemma {:induction false} WfOpCompiles(op: Op, scope: set<nat>, taken: set<nat>, bound: set<nat>, kinds: Kinds)
    requires WfOp(op, scope, taken, kinds) && scope <= bound
    ensures Compiles(op, bound)
    decreases op, 1
  {
    hide WfBlock, CompilesBlock;
    match op
    case AllocStorageOp(_, size, _, _, _) => PrimsWiden(size, scope, bound);
    case AllocTensorOp(_, _, _, shape, _) => AllPrimsWiden(shape, scope, bound);
    case TensorViewOp(_, _, _, shape, _, _) => AllPrimsWiden(shape, scope, bound);
    case CallDPSOp(_, _, inputs, outputs, launch) =>
      OkIsBound(inputs, scope, bound, kinds);
      OkIsBound(outputs, scope, bound, kinds);
      AllPrimsWiden(launch, scope, bound);
    case TupleOp(_, elems) => OkIsBound(elems, scope, bound, kinds);
    case IfOp(results, _, thn, els) =>
      WfBlockCompiles(thn, |results|, scope, taken + Ids(results), bound + Ids(results), kinds);
      if els.Some? {
        WfBlockCompiles(els.value, |results|, scope, taken + Ids(results), bound + Ids(results) + BindsOps(thn.ops),
                        kinds);
      }
    case ForOp(results, loopVar, _, _, _, _, iters, body) =>
      var inner := Ids([loopVar] + IterVars(iters));
      IdsCons(loopVar, IterVars(iters));
      InitsWiden(iters, scope, bound + {loopVar}, kinds);
      WfBlockCompiles(body, |iters|, scope + inner, taken + inner, bound + {loopVar} + Ids(IterVars(iters)), kinds);
    case _ =>
  }

  lemma {:induction false} WfBlockCompiles(b: Block, n: nat, scope: set<nat>, taken: set<nat>, bound: set<nat>,
                                           kinds: Kinds)
    requires WfBlock(b, n, scope, taken, kinds) && scope <= bound
    ensures CompilesBlock(b, n, bound)
    decreases b, 0
  {
    WfOpsCompile(b.ops, scope, taken, bound, kinds);
    DefinesBinds(b.ops);
    OkIsBound(b.yielded, scope + DefinesOps(b.ops), bound + BindsOps(b.ops), kinds);
  }

  lemma {:induction false} WfOpsCompile(ops: seq<Op>, scope: set<nat>, taken: set<nat>, bound: set<nat>, kinds: Kinds)
    requires WfOps(ops, scope, taken, kinds) && scope <= bound
    ensures CompilesOps(ops, bound)
    decreases ops, 0
  {
    if ops != [] {
      WfOpCompiles(ops[0], scope, taken, bound, kinds);
      DefinesOne(ops[0]);
      WfOpsCompile(ops[1..], scope + Defines(ops[0]), taken + Defines(ops[0]), bound + Binds(ops[0]), kinds);
    }
  }

  lemma WfFunctionCompiles(fn: Function, kinds: Kinds)
    requires WfFunction(fn, kinds)
    ensures CompilesFunction(fn)
  {
    WfOpsCompile(fn.body, EntryScope(fn), EntryScope(fn), EntryScope(fn), kinds);
    DefinesBinds(fn.body);
    OkIsBound(fn.ret, EntryScope(fn) + DefinesOps(fn.body), EntryScope(fn) + BindsOps(fn.body), kinds);
  }
}

/** What being verified is good for: such code uses nothing but what is defined before it
    (python/devproc2/ir/verifier.py). */
module ClosedCode {
  import opened Bytecode
  import opened PrimExprs
  import opened IRValues
  import opened TensorIR
  import opened TensorSemantics
  import opened Rewriter

  /** The names stand for the same, or for nothing in both. */
  predicate SameNames(E: TEnv, E': TEnv, ids: set<nat>) {
    forall id <- ids :: (id in E <==> id in E') && (id in E ==> E[id] == E'[id])
  }

  lemma NoNames(E: TEnv, E': TEnv)
    ensures SameNames(E, E', {})
  {
  }

  /** States that differ in other names only. */
  ghost predicate SameFor(ids: set<nat>, st: TState, st': TState) {
    SameNames(st.env, st'.env, ids) && st.mem == st'.mem && st.hist == st'.hist && st.turn == st'.turn
  }

  /** Two runs end alike. */
  ghost predicate BothSame(ids: set<nat>, r: Option<TState>, r': Option<TState>) {
    (r.Some? <==> r'.Some?) && (r.Some? ==> SameFor(ids, r.value, r'.value))
  }

  lemma {:induction false} ValuesSame(vs: seq<Value>, E: TEnv, E': TEnv, defs: set<nat>, vars: set<nat>)
    requires Known(vs, defs, vars) && SameNames(E, E', defs + vars)
    ensures EvalVs(vs, E) == EvalVs(vs, E')
    decreases |vs|
  {
    if vs != [] {
      assert vs[0] in vs && forall v <- vs[1..] :: v in vs;
      ValuesSame(vs[1..], E, E', defs, vars);
    }
  }

  lemma ValueSame(v: Value, vs: seq<Value>, E: TEnv, E': TEnv, defs: set<nat>, vars: set<nat>)
    requires v in vs && Known(vs, defs, vars) && SameNames(E, E', defs + vars)
    ensures EvalV(v, E) == EvalV(v, E')
  {
  }

  lemma {:induction false} BindSame(E: TEnv, E': TEnv, ids: seq<nat>, vals: seq<TVal>, names: set<nat>)
    requires |ids| == |vals| && SameNames(E, E', names)
    ensures SameNames(BindVals(E, ids, vals), BindVals(E', ids, vals), names + Rewriter.Ids(ids))
    decreases |ids|
  {
    if ids == [] {
      assert names + Rewriter.Ids(ids) == names;
    } else {
      var F, F' := E[ids[0] := vals[0]], E'[ids[0] := vals[0]];
      assert SameNames(F, F', names + {ids[0]});
      BindSame(F, F', ids[1..], vals[1..], names + {ids[0]});
      assert ids == [ids[0]] + ids[1..];
      assert names + Rewriter.Ids(ids) == names + {ids[0]} + Rewriter.Ids(ids[1..]);
    }
  }

  lemma KnownPart(vs: seq<Value>, part: seq<Value>, defs: set<nat>, vars: set<nat>)
    requires Known(vs, defs, vars) && forall v <- part :: v in vs
    ensures Known(part, defs, vars)
  {
  }

  lemma CallSame(C: Context, op: Op, st: TState, st': TState, defs: set<nat>, vars: set<nat>)
    requires op.CallOp? && Known(Refs(OpNode(op)), defs, vars) && SameFor(defs + vars, st, st')
    ensures BothSame(defs + vars, DoCall(C, op, st), DoCall(C, op, st'))
  {
    hide WriteAll, EvalVs, Known, DescribeAll, ReadAll, AllTensors, EffectOf, SameNames;
    var vs, outs := Refs(OpNode(op)), EffectOf(op).writing;
    ValuesSame(vs, st.env, st'.env, defs, vars);
    KnownPart(vs, outs, defs, vars);
    ValuesSame(outs, st.env, st'.env, defs, vars);
  }

  lemma ComputeSame(C: Context, op: Op, st: TState, st': TState, defs: set<nat>, vars: set<nat>)
    requires op.ComputeOp? && Known(Refs(OpNode(op)), defs, vars) && SameFor(defs + vars, st, st')
    ensures BothSame(defs + vars + {op.res}, DoCompute(C, op, st), DoCompute(C, op, st'))
  {
    hide WriteOne, EvalVs, Known, DescribeAll, ReadAll, AllTensors, OwnSize;
    KnownPart(Refs(OpNode(op)), op.args, defs, vars);
    ValuesSame(op.args, st.env, st'.env, defs, vars);
  }

  lemma ViewSame(C: Context, op: Op, st: TState, st': TState, defs: set<nat>, vars: set<nat>)
    requires op.ViewOp? && Known(Refs(OpNode(op)), defs, vars) && SameFor(defs + vars, st, st')
    ensures BothSame(defs + vars + {op.res}, DoView(C, op, st), DoView(C, op, st'))
  {
    hide ViewOf, Known, EvalV;
    ValueSame(op.base, Refs(OpNode(op)), st.env, st'.env, defs, vars);
    ValueSame(op.byteOffset, Refs(OpNode(op)), st.env, st'.env, defs, vars);
  }

  lemma LeafSame(C: Context, op: Op, st: TState, st': TState, defs: set<nat>, vars: set<nat>)
    requires IsLeaf(op) && Known(Refs(OpNode(op)), defs, vars) && SameFor(defs + vars, st, st')
    ensures BothSame(defs + vars + Rewriter.Ids(Results(op)), Exec(C, op, st), Exec(C, op, st'))
  {
    hide Filled, EvalVs, Known, DoCall, DoView, DoCompute, EvalV, EffectOf, OwnSize, EvalSize;
    var vs := Refs(OpNode(op));
    match op
    case ComputeOp(_, _, _, _, _) => ComputeSame(C, op, st, st', defs, vars);
    case PlaceOp(_, storage, _, _) => ValueSame(storage, vs, st.env, st'.env, defs, vars);
    case ViewOp(_, _, _, _, _, _) => ViewSame(C, op, st, st', defs, vars);
    case CallOp(_, _, _, _) =>
      CallSame(C, op, st, st', defs, vars);
      assert defs + vars + Rewriter.Ids(Results(op)) == defs + vars;
    case CheckOp(tensor, _, _) =>
      ValueSame(tensor, vs, st.env, st'.env, defs, vars);
      assert defs + vars + Rewriter.Ids(Results(op)) == defs + vars;
    case TupleOp(_, elems) =>
      KnownPart(vs, elems, defs, vars);
      ValuesSame(elems, st.env, st'.env, defs, vars);
    case ItemOp(_, tup, _) => ValueSame(tup, vs, st.env, st'.env, defs, vars);
    case _ =>
  }

  lemma {:induction false} RegionSame(C: Context, r: Region, results: seq<nat>, st: TState, st': TState, defs: set<nat>,
                                      vars: set<nat>)
    requires VerifiedRegion(r, defs, vars) && SameFor(defs + vars, st, st')
    ensures BothSame(defs + vars + Rewriter.Ids(results), ExecRegion(C, r, results, st), ExecRegion(C, r, results, st'))
    decreases r, 0, 0
  {
    hide ExecOps, VerifiedOps, SameNames, Known, BindVals;
    OpsSame(C, r.ops, st, st', defs, vars);
    var a, b := ExecOps(C, r.ops, st), ExecOps(C, r.ops, st');
    if a.Some? {
      assert defs + vars + DefsOf(r.ops) == defs + DefsOf(r.ops) + vars;
      ValuesSame(r.yielded, a.value.env, b.value.env, defs + DefsOf(r.ops), vars);
      var vals := EvalVs(r.yielded, a.value.env);
      if vals.Some? && |vals.value| == |results| { BindSame(st.env, st'.env, results, vals.value, defs + vars); }
    }
  }

  lemma BodySame(op: Op, i: int, vals: seq<TVal>, k: nat, st: TState, st': TState, names: set<nat>)
    requires op.ForOp? && |vals| == |op.iters| && SameFor(names, st, st')
    ensures SameFor(names + LoopVars(op), EnterBody(op, i, vals, k, st), EnterBody(op, i, vals, k, st'))
  {
    var F, F' := st.env[op.loopVar := TScalar(Int(i))], st'.env[op.loopVar := TScalar(Int(i))];
    assert SameNames(F, F', names + {op.loopVar});
    BindSame(F, F', Vars(op.iters), vals, names + {op.loopVar});
    assert names + {op.loopVar} + Rewriter.Ids(Vars(op.iters)) == names + LoopVars(op);
  }

  /** Two loops end alike. */
  ghost predicate LoopsSame(r: Option<(seq<TVal>, TState)>, r': Option<(seq<TVal>, TState)>) {
    (r.Some? <==> r'.Some?) &&
    (r.Some? ==> r.value.0 == r'.value.0 && SameFor({}, r.value.1, r'.value.1))
  }

  lemma {:induction false} LoopSame(C: Context, op: Op, range: Range, vals: seq<TVal>, k: nat, st: TState, st': TState,
                                    defs: set<nat>, vars: set<nat>)
    requires op.ForOp? && VerifiedRegion(op.body, defs, vars + LoopVars(op)) && SameFor(defs + vars, st, st')
    ensures LoopsSame(ExecLoop(C, op, range, vals, k, st), ExecLoop(C, op, range, vals, k, st'))
    decreases op, 0, if range.end >= range.start then range.end - range.start else 0
  {
    hide ExecOps, VerifiedOps, SameNames, Known, EnterBody;
    NoNames(st.env, st'.env);
    if range.start < range.end && range.step > 0 && |vals| == |op.iters| {
      var s, s' := EnterBody(op, range.start, vals, k, st), EnterBody(op, range.start, vals, k, st');
      BodySame(op, range.start, vals, k, st, st', defs + vars);
      assert defs + vars + LoopVars(op) == defs + (vars + LoopVars(op));
      OpsSame(C, op.body.ops, s, s', defs, vars + LoopVars(op));
      var a, b := ExecOps(C, op.body.ops, s), ExecOps(C, op.body.ops, s');
      if a.Some? {
        var more := DefsOf(op.body.ops);
        assert defs + (vars + LoopVars(op)) + more == defs + more + (vars + LoopVars(op));
        ValuesSame(op.body.yielded, a.value.env, b.value.env, defs + more, vars + LoopVars(op));
        var next := EvalVs(op.body.yielded, a.value.env);
        if next.Some? {
          LoopSame(C, op, range.(start := range.start + range.step), next.value, k + 1,
                   a.value.(env := st.env, turn := st.turn), b.value.(env := st'.env, turn := st'.turn), defs, vars);
        }
      }
    }
  }

  lemma {:induction false} ForSame(C: Context, op: Op, st: TState, st': TState, defs: set<nat>, vars: set<nat>)
    requires op.ForOp? && Inside(op, defs, vars) && SameFor(defs + vars, st, st')
    ensures BothSame(defs + vars + Rewriter.Ids(op.results), Exec(C, op, st), Exec(C, op, st'))
    decreases op, 1, 0
  {
    hide ExecLoop, SameNames, VerifiedRegion, BindVals;
    var vs := op.bounds + Inits(op.iters);
    KnownPart(vs, op.bounds, defs, vars);
    KnownPart(vs, Inits(op.iters), defs, vars);
    ValuesSame(op.bounds, st.env, st'.env, defs, vars);
    ValuesSame(Inits(op.iters), st.env, st'.env, defs, vars);
    var range, inits := LoopRange(op.bounds, st.env), EvalVs(Inits(op.iters), st.env);
    if range.Some? && inits.Some? {
      LoopSame(C, op, range.value, inits.value, 0, st, st', defs, vars);
      var r := ExecLoop(C, op, range.value, inits.value, 0, st);
      if r.Some? {
        if op.results == [] {
          assert defs + vars + Rewriter.Ids(op.results) == defs + vars;
        } else if |r.value.0| == |op.results| {
          BindSame(st.env, st'.env, op.results, r.value.0, defs + vars);
        }
      }
    }
  }

  lemma {:induction false} OpSame(C: Context, op: Op, st: TState, st': TState, defs: set<nat>, vars: set<nat>)
    requires Verified(op, defs, vars) && SameFor(defs + vars, st, st')
    ensures BothSame(defs + vars + Rewriter.Ids(Results(op)), Exec(C, op, st), Exec(C, op, st'))
    decreases op, 2, 0
  {
    hide ExecRegion, SameNames, VerifiedRegion;
    if op.IfOp? {
      ValueSame(op.cond, [op.cond], st.env, st'.env, defs, vars);
      RegionSame(C, op.thn, op.results, st, st', defs, vars);
      if op.els.Some? {
        RegionSame(C, op.els.value, op.results, st, st', defs, vars);
      } else {
        assert defs + vars + Rewriter.Ids(op.results) == defs + vars;
      }
    } else if op.ForOp? {
      ForSame(C, op, st, st', defs, vars);
    } else {
      LeafSame(C, op, st, st', defs, vars);
    }
  }

  /** Verified code is closed: whatever names that are not defined before it stand for, it fails or does the same, and
      what it defines stands for the same. */
  lemma {:induction false} OpsSame(C: Context, ops: seq<Op>, st: TState, st': TState, defs: set<nat>, vars: set<nat>)
    requires VerifiedOps(ops, defs, vars) && SameFor(defs + vars, st, st')
    ensures BothSame(defs + vars + DefsOf(ops), ExecOps(C, ops, st), ExecOps(C, ops, st'))
    decreases ops, 0, 0
  {
    hide Exec, SameFor, Verified;
    if ops == [] {
      assert defs + vars + DefsOf(ops) == defs + vars;
    } else {
      OpSame(C, ops[0], st, st', defs, vars);
      var ids := Rewriter.Ids(Results(ops[0]));
      if Exec(C, ops[0], st).Some? {
        assert defs + vars + ids == defs + ids + vars;
        OpsSame(C, ops[1..], Exec(C, ops[0], st).value, Exec(C, ops[0], st').value, defs + ids, vars);
        assert defs + ids + vars + DefsOf(ops[1..]) == defs + vars + DefsOf(ops);
      }
    }
  }

  /** A verified function depends on its parameters only. */
  lemma FunctionSame(C: Context, fn: Func, st: TState, st': TState)
    requires VerifiedFunc(fn) && SameFor(Rewriter.Ids(fn.params), st, st')
    ensures var r, r' := ExecOps(C, fn.body, st), ExecOps(C, fn.body, st');
      BothSame({}, r, r') && (r.Some? ==> EvalVs(fn.ret, r.value.env) == EvalVs(fn.ret, r'.value.env))
  {
    hide ExecOps, SameNames, VerifiedOps, Known;
    var vars := Rewriter.Ids(fn.params);
    assert {} + vars == vars && {} + vars + DefsOf(fn.body) == DefsOf(fn.body) + vars;
    OpsSame(C, fn.body, st, st', {}, vars);
    var r, r' := ExecOps(C, fn.body, st), ExecOps(C, fn.body, st');
    if r.Some? {
      NoNames(r.value.env, r'.value.env);
      ValuesSame(fn.ret, r.value.env, r'.value.env, DefsOf(fn.body), vars);
    }
  }
}

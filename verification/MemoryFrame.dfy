/** Ops write only to storages they can name: those of tensors in the environment, and their own. */
module MemoryFrame {
  import opened Bytecode
  import opened IRValues
  import opened TensorIR
  import opened TensorSemantics

  /** Results of the creations in an op. */
  function Made(op: Op): set<nat>
    decreases op, 1
  {
    match op
    case CreateOp(res, _, _, _, _) => {res}
    case IfOp(_, _, thn, els) => MadeOps(thn.ops) + (if els.Some? then MadeOps(els.value.ops) else {})
    case ForOp(_, _, _, _, body) => MadeOps(body.ops)
    case _ => {}
  }

  function MadeOps(ops: seq<Op>): set<nat>
    decreases ops, 0
  {
    if ops == [] then {} else Made(ops[0]) + MadeOps(ops[1..])
  }

  ghost predicate Knows(K: iset<Store>, v: TVal) {
    forall t <- Tensors(v) :: t.store in K
  }

  ghost predicate KnowsEnv(K: iset<Store>, E: TEnv) {
    forall id <- E :: Knows(K, E[id])
  }

  ghost predicate KnowsAll(K: iset<Store>, vals: seq<TVal>) {
    forall v <- vals :: Knows(K, v)
  }

  /** Whatever these creations allocate from this turn on is known. */
  ghost predicate Allows(K: iset<Store>, made: set<nat>, turn: seq<nat>) {
    forall res: nat, u: seq<nat> :: res in made && turn <= u ==> Own(res, u) in K
  }

  ghost predicate SameOutside(K: iset<Store>, mem: Memory, mem': Memory) {
    forall s, b: int :: s !in K ==> mem'(s, b) == mem(s, b)
  }

  /** The run leaves memory outside K alone and learns of nothing outside K. */
  ghost predicate StaysIn(K: iset<Store>, st: TState, r: TState) {
    KnowsEnv(K, r.env) && r.turn == st.turn && SameOutside(K, st.mem, r.mem)
  }

  lemma {:induction false} EvalAllKnown(K: iset<Store>, vs: seq<Value>, E: TEnv)
    requires KnowsEnv(K, E) && EvalVs(vs, E).Some?
    ensures KnowsAll(K, EvalVs(vs, E).value)
  {
    hide Knows;
    var vals := EvalVs(vs, E).value;
    forall v | v in vals ensures Knows(K, v) {
      var k :| 0 <= k < |vals| && vals[k] == v;
      EvalKnown(K, vs[k], E);
    }
  }

  lemma EvalKnown(K: iset<Store>, v: Value, E: TEnv)
    requires KnowsEnv(K, E) && EvalV(v, E).Some?
    ensures Knows(K, EvalV(v, E).value)
  {
  }

  lemma TupleKnown(K: iset<Store>, vals: seq<TVal>)
    ensures KnowsAll(K, vals) <==> Knows(K, TTuple(vals))
  {
    if KnowsAll(K, vals) {
      forall t | t in Tensors(TTuple(vals)) ensures t.store in K {
        var k := AllTensorsFrom(vals, t);
        assert Knows(K, vals[k]);
      }
    }
    if Knows(K, TTuple(vals)) {
      forall v, t | v in vals && t in Tensors(v) ensures t.store in K {
        var k :| 0 <= k < |vals| && vals[k] == v;
        AllTensorsAt(vals, k, t);
      }
    }
  }

  lemma {:induction false} WriteAllFrame(K: iset<Store>, mem: Memory, ts: seq<TensorRef>,
                                         bytes: (nat, nat) -> Option<int>, j: nat)
    requires j <= |ts| && forall t <- ts :: t.store in K
    ensures SameOutside(K, mem, WriteAll(mem, ts, bytes, j))
    decreases |ts| - j
  {
    if j < |ts| { WriteAllFrame(K, WriteOne(mem, ts[j], Row(bytes, j)), ts, bytes, j + 1); }
  }

  lemma CallFrame(C: Context, K: iset<Store>, op: Op, st: TState)
    requires op.CallOp? && KnowsEnv(K, st.env) && DoCall(C, op, st).Some?
    ensures StaysIn(K, st, DoCall(C, op, st).value)
  {
    var effect := EffectOf(op);
    var vals := EvalVs(Operands(op) + effect.reading + effect.writing, st.env).value;
    var outs := EvalVs(effect.writing, st.env).value;
    EvalAllKnown(K, effect.writing, st.env);
    TupleKnown(K, outs);
    var e := CallEvent(op.target, DescribeAll(vals), ReadAll(st.mem, AllTensors(vals)));
    WriteAllFrame(K, st.mem, AllTensors(outs), C.kernel(st.hist, e).value, 0);
  }

  lemma {:induction false} LeafFrame(C: Context, K: iset<Store>, op: Op, st: TState)
    requires Lowered(op) && !op.IfOp? && !op.ForOp? && KnowsEnv(K, st.env) && Allows(K, Made(op), st.turn)
    requires Exec(C, op, st).Some?
    ensures StaysIn(K, st, Exec(C, op, st).value)
  {
    hide DoCall;
    match op
    case CreateOp(_, _, _, _, _) => assert Own(op.res, st.turn) in K;
    case CallOp(_, _, _, _) => CallFrame(C, K, op, st);
    case TupleOp(_, elems) =>
      EvalAllKnown(K, elems, st.env);
      TupleKnown(K, EvalVs(elems, st.env).value);
    case ItemOp(_, tup, index) =>
      EvalKnown(K, tup, st.env);
      TupleKnown(K, EvalV(tup, st.env).value.fields);
    case _ =>
  }

  lemma {:induction false} BindKnown(K: iset<Store>, E: TEnv, ids: seq<nat>, vals: seq<TVal>)
    requires KnowsEnv(K, E) && |ids| == |vals| && KnowsAll(K, vals)
    ensures KnowsEnv(K, BindVals(E, ids, vals))
    decreases |ids|
  {
    hide Knows;
    if ids != [] { BindKnown(K, E[ids[0] := vals[0]], ids[1..], vals[1..]); }
  }

  lemma {:induction false} RegionFrame(C: Context, K: iset<Store>, r: Region, results: seq<nat>, st: TState)
    requires LoweredOps(r.ops) && KnowsEnv(K, st.env) && Allows(K, MadeOps(r.ops), st.turn)
    requires ExecRegion(C, r, results, st).Some?
    ensures StaysIn(K, st, ExecRegion(C, r, results, st).value)
    decreases r, 0
  {
    hide ExecOps, KnowsEnv, KnowsAll, Allows;
    OpsFrame(C, K, r.ops, st);
    var inner := ExecOps(C, r.ops, st).value;
    EvalAllKnown(K, r.yielded, inner.env);
    BindKnown(K, st.env, results, EvalVs(r.yielded, inner.env).value);
  }

  lemma {:induction false} LoopFrame(C: Context, K: iset<Store>, op: Op, range: Range, vals: seq<TVal>, k: nat,
                                     st: TState)
    requires op.ForOp? && Lowered(op) && KnowsEnv(K, st.env) && KnowsAll(K, vals) && Allows(K, Made(op), st.turn)
    requires ExecLoop(C, op, range, vals, k, st).Some?
    ensures var (out, r) := ExecLoop(C, op, range, vals, k, st).value; KnowsAll(K, out) && StaysIn(K, st, r)
    decreases op, 0, if range.end >= range.start then range.end - range.start else 0
  {
    hide ExecOps, KnowsEnv, KnowsAll, Allows, LoweredOps, MadeOps;
    if range.start < range.end {
      var start := EnterBody(op, range.start, vals, k, st);
      EnterKnown(K, op, range.start, vals, k, st);
      OpsFrame(C, K, op.body.ops, start);
      var inner := ExecOps(C, op.body.ops, start).value;
      EvalAllKnown(K, op.body.yielded, inner.env);
      LoopFrame(C, K, op, range.(start := range.start + range.step), EvalVs(op.body.yielded, inner.env).value, k + 1,
                inner.(env := st.env, turn := st.turn));
    }
  }

  lemma {:induction false} EnterKnown(K: iset<Store>, op: Op, x: int, vals: seq<TVal>, k: nat, st: TState)
    requires op.ForOp? && |vals| == |op.iters| && KnowsEnv(K, st.env) && KnowsAll(K, vals)
    requires Allows(K, Made(op), st.turn)
    ensures KnowsEnv(K, EnterBody(op, x, vals, k, st).env)
    ensures Allows(K, MadeOps(op.body.ops), EnterBody(op, x, vals, k, st).turn)
  {
    BindKnown(K, st.env[op.loopVar := TScalar(Int(x))], Vars(op.iters), vals);
    forall res: nat, u: seq<nat> | res in MadeOps(op.body.ops) && st.turn + [k] <= u ensures Own(res, u) in K {
      assert st.turn <= u;
    }
  }

  lemma {:induction false} OpFrame(C: Context, K: iset<Store>, op: Op, st: TState)
    requires Lowered(op) && KnowsEnv(K, st.env) && Allows(K, Made(op), st.turn) && Exec(C, op, st).Some?
    ensures StaysIn(K, st, Exec(C, op, st).value)
    decreases op, 1
  {
    hide KnowsEnv, KnowsAll, ExecRegion, ExecLoop, MadeOps;
    if op.IfOp? {
      if EvalV(op.cond, st.env).value.c.b {
        RegionFrame(C, K, op.thn, op.results, st);
      } else if op.els.Some? {
        RegionFrame(C, K, op.els.value, op.results, st);
      }
    } else if op.ForOp? {
      var inits := EvalVs(Inits(op.iters), st.env).value;
      var range := LoopRange(op.bounds, st.env).value;
      EvalAllKnown(K, Inits(op.iters), st.env);
      LoopFrame(C, K, op, range, inits, 0, st);
      var (vals, after) := ExecLoop(C, op, range, inits, 0, st).value;
      if op.results != [] { BindKnown(K, st.env, op.results, vals); }
    } else {
      LeafFrame(C, K, op, st);
    }
  }

  /** Running ops keeps to what is known and what they make. */
  lemma {:induction false} OpsFrame(C: Context, K: iset<Store>, ops: seq<Op>, st: TState)
    requires LoweredOps(ops) && KnowsEnv(K, st.env) && Allows(K, MadeOps(ops), st.turn) && ExecOps(C, ops, st).Some?
    ensures StaysIn(K, st, ExecOps(C, ops, st).value)
    decreases ops, 0
  {
    hide KnowsEnv, Exec;
    if ops != [] {
      OpFrame(C, K, ops[0], st);
      OpsFrame(C, K, ops[1..], Exec(C, ops[0], st).value);
    }
  }
}

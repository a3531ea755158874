/** The placement pass as it really runs, on a rewriter that gives every op new results
    (python/devproc2/compiler/passes/lower_tensor_create_to_alloc.py). */
module PlacedProgram {
  import opened Bytecode
  import opened IRValues
  import opened TensorIR
  import opened TensorSemantics
  import opened ShapeBounds
  import opened Lifetimes
  import opened StorageSharing
  import opened PlannedProgram
  import opened Rewriter
  import opened Renaming
  import opened RewriterCorrect
  import M = RewriteMeaning
  import opened RewriteMeaning

  // ---------------------------------------------------------------- code

  /** Placing tensors without new identities is the lowering studied before. */
  lemma {:induction false} TargetIsLowered(home: map<nat, nat>, ops: seq<Op>)
    ensures TargetOps(Placing(home), ops) == LowerOps(home, ops)
    decreases ops, 0
  {
    if ops != [] {
      OpTargetIsLowered(home, ops[0]);
      TargetIsLowered(home, ops[1..]);
    }
  }

  lemma {:induction false} OpTargetIsLowered(home: map<nat, nat>, op: Op)
    ensures Target(Placing(home), op) == [LowerOp(home, op)]
    decreases op, 1
  {
    if op.IfOp? {
      TargetIsLowered(home, op.thn.ops);
      if op.els.Some? { TargetIsLowered(home, op.els.value.ops); }
    } else if op.ForOp? {
      TargetIsLowered(home, op.body.ops);
    }
  }

  lemma {:induction false} LoweredFits(home: map<nat, nat>, m: Sub, bound: nat, ops: seq<Op>)
    requires FitsOps(Placing(home), m, bound, ops)
    ensures FitsOps(Default, m, bound, LowerOps(home, ops))
    decreases ops, 0
  {
    if ops != [] {
      OpLoweredFits(home, m, bound, ops[0]);
      LoweredFits(home, m, bound, ops[1..]);
      assert LowerOps(home, ops)[1..] == LowerOps(home, ops[1..]);
    }
  }

  lemma {:induction false} OpLoweredFits(home: map<nat, nat>, m: Sub, bound: nat, op: Op)
    requires FitsOp(Placing(home), m, bound, op)
    ensures FitsOp(Default, m, bound, LowerOp(home, op))
    decreases op, 1
  {
    hide FitsOps, LowerOps, Stay;
    assert Results(LowerOp(home, op)) == Results(op);
    if op.IfOp? {
      LoweredFits(home, m, bound, op.thn.ops);
      if op.els.Some? { LoweredFits(home, m, bound, op.els.value.ops); }
    } else if op.ForOp? {
      LoweredFits(home, m, bound, op.body.ops);
    } else {
      LeafLoweredFits(home, m, bound, op);
    }
  }

  lemma {:induction false} LeafLoweredFits(home: map<nat, nat>, m: Sub, bound: nat, op: Op)
    requires IsLeaf(op) && FitsOp(Placing(home), m, bound, op)
    ensures FitsOp(Default, m, bound, LowerOp(home, op))
  {
    if op.CreateOp? && op.res in home {
      var op' := PlaceOp(op.res, Res(home[op.res]), op.spec.shape, op.spec.dtype);
      assert LowerOp(home, op) == op' && Refs(OpNode(op')) == [op'.storage];
      assert Results(op') == Results(op) == [op.res] && op.res in Results(op);
    }
  }

  /** Hoisted storages keep their identities. */
  lemma {:induction false} StoragesStay(m: Sub, bound: nat, ops: seq<Op>, k: nat)
    requires k <= |ops| && forall j :: k <= j < |ops| ==> ops[j].StorageOp? && ops[j].res !in m && ops[j].res < bound
    ensures RenameOps(m, ops[k..]) == ops[k..] && FitsOps(Default, m, bound, ops[k..])
    decreases |ops| - k
  {
    if k < |ops| {
      assert ops[k..][0] == ops[k] && ops[k..][1..] == ops[k + 1..];
      StoragesStay(m, bound, ops, k + 1);
    }
  }

  lemma {:induction false} FitsAppend(P: Pass, m: Sub, bound: nat, a: seq<Op>, b: seq<Op>)
    requires FitsOps(P, m, bound, a) && FitsOps(P, m, bound, b)
    ensures FitsOps(P, m, bound, a + b)
  {
    hide FitsOp;
    if a == [] {
      assert a + b == b;
    } else {
      assert (a + b)[1..] == a[1..] + b;
      FitsAppend(P, m, bound, a[1..], b);
    }
  }

  // ---------------------------------------------------------------- the pass

  ghost function HomeOf(fn: Func, base: nat): map<nat, nat> {
    HomesOf(PlanOf(fn).slot, Creations(FuncNodes(fn)), base)
  }

  /** The body after the pass: storages hoisted to the entry, then the rebuilt ops. */
  ghost function PlacedBody(fn: Func, base: nat, next: nat): seq<Op> {
    StorageOps(PlanOf(fn).entries, base) + RwFunc(Placing(HomeOf(fn, base)), fn, next).body
  }

  /** The first identity that neither the old function nor its storages use. */
  ghost function After(fn: Func, base: nat): nat {
    base + |PlanOf(fn).entries|
  }

  lemma {:induction false} ResultsBelow(nodes: seq<Node>, base: nat)
    requires forall n <- nodes, id <- ResultsAt(n) :: id < base
    ensures forall id <- IdsIn(nodes) :: id < base
  {
    if nodes != [] { ResultsBelow(nodes[1..], base); }
  }

  lemma KeysBelow(fn: Func, base: nat)
    requires FreshIds(fn, base)
    ensures forall id <- IdsIn(OpsNodes(fn.body)) :: id < base
  {
    forall n, id | n in OpsNodes(fn.body) && id in ResultsAt(n) ensures id < base { assert n in FuncNodes(fn); }
    ResultsBelow(OpsNodes(fn.body), base);
  }

  lemma HomesAbove(C: Context, fn: Func, base: nat)
    requires Plannable(fn) && FreshIds(fn, base) && NamesakesAgree(SizeVars(fn), C.dims) && SizesEvaluate(C, fn)
    requires SafeLoops(fn)
    ensures forall id <- HomeOf(fn, base) :: base <= HomeOf(fn, base)[id] < After(fn, base)
  {
    hide LayoutOk, PlanOf, HomesOf, SafeLoops;
    LayoutIsOk(C, fn, base);
    var L := LayoutOf(C, fn, base);
    HomesAreCreated(fn, base);
    forall id | id in HomeOf(fn, base) ensures base <= HomeOf(fn, base)[id] < After(fn, base) {
      var c :| c in Creations(L.nodes) && c.res == id;
      LayoutHome(L, c);
    }
  }

  /** The pass is the lowering studied before, renamed. */
  lemma PlacedIsRenamed(C: Context, fn: Func, base: nat, next: nat)
    requires Plannable(fn) && FreshIds(fn, base) && NamesakesAgree(SizeVars(fn), C.dims) && SizesEvaluate(C, fn)
    requires SafeLoops(fn)
    requires Sane(fn, After(fn, base)) && After(fn, base) <= next
    ensures var P := Placing(HomeOf(fn, base)); var m := FinalMap(P, fn, next);
      PlacedBody(fn, base, next) == RenameOps(m, LoweredBody(fn, base)) && RwFunc(P, fn, next).ret == Svs(m, fn.ret) &&
      FitsOps(Default, m, After(fn, base), LoweredBody(fn, base)) && Apart(m, After(fn, base)) && Stay(m, fn.ret) &&
      forall id <- m :: id < base
  {
    hide SafeLoops, Sane, PlanOf, RenameOps, LowerOps, TargetOps, FitsOps, RwOps, HomesOf, Apart, Stay;
    var P, bound := Placing(HomeOf(fn, base)), After(fn, base);
    var m := FinalMap(P, fn, next);
    var ops := StorageOps(PlanOf(fn).entries, base);
    KeysBelow(fn, base);
    HomesAbove(C, fn, base);
    FinalMapIs(P, fn, bound, next);
    OutputIs(P, fn, bound, next);
    TargetIsLowered(P.home, fn.body);
    StoragesStay(m, bound, ops, 0);
    assert ops[0..] == ops;
    RenameAppend(m, ops, LowerOps(P.home, fn.body));
    LoweredFits(P.home, m, bound, fn.body);
    FitsAppend(Default, m, bound, ops, LowerOps(P.home, fn.body));
  }

  lemma {:induction false} NoneErased(h: History)
    ensures M.Others({}, h) == h
    decreases |h|
  {
    if h != [] { NoneErased(h[..|h| - 1]); }
  }

  lemma EverythingIsTraceless(C: Context)
    ensures M.Traceless(C, {})
  {
    forall h, e ensures C.kernel(h, e) == C.kernel(M.Others({}, h), e) { NoneErased(h); }
  }

  /** Storages seen through the renaming. */
  function Through(m: Sub, mem: Memory): Memory {
    (s: Store, b: int) => mem(RnStore(m, s), b)
  }

  lemma ThroughRn(m: Sub, bound: nat, mem: Memory)
    ensures MemRn(m, bound, Through(m, mem), mem)
  {
  }

  /** The renamed run next to the run it renames. */
  lemma {:induction false} PlacedRuns(C: Context, fn: Func, base: nat, next: nat, m: Sub, st: TState, shared: Memory)
    requires FreshIds(fn, base) && CallerArgs(fn, st.env) && (forall id <- st.env :: Foreign(st.env[id]))
    requires (forall id <- m :: id < base)
    requires (forall id <- fn.params :: id !in m) && Apart(m, After(fn, base))
    requires FitsOps(Default, m, After(fn, base), LoweredBody(fn, base))
    requires PlacedBody(fn, base, next) == RenameOps(m, LoweredBody(fn, base))
    requires ExecOps(C, LoweredBody(fn, base), st.(mem := Through(m, shared))).Some?
    ensures var run := ExecOps(C, PlacedBody(fn, base, next), st.(mem := shared));
      run.Some? && M.StateRn(M.Setting(Default, {}, m, After(fn, base)),
                             ExecOps(C, LoweredBody(fn, base), st.(mem := Through(m, shared))).value, run.value)
  {
    hide ExecOps, FitsOps, LoweredBody, PlacedBody, PlanOf, RenameOps, MemRn, Apart;
    var S := M.Setting(Default, {}, m, After(fn, base));
    ParamsBelow(fn, base, st.env);
    var a, b := st.(mem := Through(m, shared)), st.(mem := shared);
    forall id | id in st.env
      ensures id < S.bound && Rn(m, id) in st.env && st.env[Rn(m, id)] == RnV(m, st.env[id])
      ensures Below(S.bound, st.env[id]) {
      ForeignStays(m, S.bound, st.env[id]);
    }
    ThroughRn(m, S.bound, shared);
    EverythingIsTraceless(C);
    assert M.Sound(C, S);
    M.OpsRn(C, S, LoweredBody(fn, base), a, b);
    DefaultKeeps(LoweredBody(fn, base));
  }

  lemma {:induction false} DefaultKeeps(ops: seq<Op>)
    ensures TargetOps(Default, ops) == ops
    decreases ops, 0
  {
    if ops != [] {
      OpDefaultKeeps(ops[0]);
      DefaultKeeps(ops[1..]);
      assert [ops[0]] + ops[1..] == ops;
    }
  }

  lemma {:induction false} OpDefaultKeeps(op: Op)
    ensures Target(Default, op) == [op]
    decreases op, 1
  {
    if op.IfOp? {
      DefaultKeeps(op.thn.ops);
      if op.els.Some? { DefaultKeeps(op.els.value.ops); }
    } else if op.ForOp? {
      DefaultKeeps(op.body.ops);
    }
  }

  /** One returned value of the run with private storages, in the run of the pass's output. */
  ghost predicate Returned(L: Layout, m: Sub, v: Value, r: TState, r': TState) {
    EvalV(v, r.env).Some? ==>
      EvalV(Sv(m, v), r'.env) == Some(RnV(m, Move(L, EvalV(v, r.env).value))) &&
      forall t <- Tensors(EvalV(v, r.env).value) :: ContentLeq(Read(r.mem, t), Read(r'.mem, RnT(m, MoveT(L, t))))
  }

  lemma {:induction false} PrivateRunMeans(C: Context, fn: Func, base: nat, st: TState, shared: Memory)
    requires PrivateRun(C, fn, base, st, shared)
    ensures Plannable(fn) && FreshIds(fn, base) && SizesEvaluate(C, fn) && CallerArgs(fn, st.env)
    ensures CallerMemory(st.mem, shared) && ExecOps(C, fn.body, st).Some?
  {
    hide Plannable, FreshIds, CallerMemory;
  }

  /** The same run, from storages seen through the renaming. */
  lemma PrivateThrough(C: Context, fn: Func, base: nat, m: Sub, st: TState, shared: Memory)
    requires PrivateRun(C, fn, base, st, shared)
    ensures PrivateRun(C, fn, base, st, Through(m, shared))
  {
    hide Plannable, FreshIds, SizesEvaluate, CallerArgs, Untouched, CallerMemory, ExecOps, Through;
    CallerThrough(m, st.mem, shared);
  }

  lemma {:induction false} SharedRunMeans(C: Context, fn: Func, base: nat, st: TState, shared: Memory)
    requires SizesEvaluate(C, fn) && ExecOps(C, fn.body, st).Some? && SharedRunAgrees(C, fn, base, st, shared)
    ensures var L := LayoutOf(C, fn, base); var r := ExecOps(C, fn.body, st).value;
      var run' := ExecOps(C, LoweredBody(fn, base), st.(mem := shared));
      run'.Some? && HistLeq(r.hist, run'.value.hist) && CallerMemory(r.mem, run'.value.mem) &&
      forall v <- fn.ret :: EvalV(v, r.env).Some? ==>
        EvalV(v, run'.value.env) == Some(Move(L, EvalV(v, r.env).value)) &&
        forall t <- Tensors(EvalV(v, r.env).value) :: ContentLeq(Read(r.mem, t), Read(run'.value.mem, MoveT(L, t)))
  {
    hide LayoutOf, ExecOps, LoweredBody, HistLeq, CallerMemory, Move, MoveT, Read, ContentLeq, EvalV;
  }

  /** The output of planning and placement, new results and hoisted storages included, does what the
      program with a storage for every tensor does, from any initial contents of the storages. */
  lemma {:induction false} PlacementIsInvisible(C: Context, fn: Func, base: nat, next: nat, st: TState, shared: Memory)
    requires PrivateRun(C, fn, base, st, shared) && SafeLoops(fn)
    requires NamesakesAgree(SizeVars(fn), C.dims) && Robust(C.kernel)
    requires Sane(fn, After(fn, base)) && After(fn, base) <= next && forall id <- st.env :: Foreign(st.env[id])
    ensures var L := LayoutOf(C, fn, base); var P := Placing(HomeOf(fn, base)); var m := FinalMap(P, fn, next);
      var r, run' := ExecOps(C, fn.body, st).value, ExecOps(C, PlacedBody(fn, base, next), st.(mem := shared));
      run'.Some? && HistLeq(r.hist, run'.value.hist) && CallerMemory(r.mem, run'.value.mem) &&
      forall v <- fn.ret :: Returned(L, m, v, r, run'.value)
  {
    hide *;
    PrivateRunMeans(C, fn, base, st, shared);
    var L, P := LayoutOf(C, fn, base), Placing(HomeOf(fn, base));
    var m := FinalMap(P, fn, next);
    PlacedIsRenamed(C, fn, base, next);
    PrivateThrough(C, fn, base, m, st, shared);
    SharedStoragesAreInvisible(C, fn, base, st, Through(m, shared));
    SharedRunMeans(C, fn, base, st, Through(m, shared));
    ParamsApart(P, fn, After(fn, base), next);
    PlacedRuns(C, fn, base, next, m, st, shared);
    var r, r1, r2 := ExecOps(C, fn.body, st).value,
      ExecOps(C, LoweredBody(fn, base), st.(mem := Through(m, shared))).value,
                     ExecOps(C, PlacedBody(fn, base, next), st.(mem := shared)).value;
    NoneErased(r1.hist);
    NoneErased(r2.hist);
    Onwards(L, m, After(fn, base), fn.ret, r, r1, r2);
  }

  lemma ParamsApart(P: Pass, fn: Func, bound: nat, next: nat)
    requires Sane(fn, bound) && bound <= next
    ensures forall id <- fn.params :: id !in FinalMap(P, fn, next)
  {
    hide UniqueResults, VerifiedFunc, OldOps, AllLoopsApart;
    FinalMapIs(P, fn, bound, next);
  }

  lemma CallerThrough(m: Sub, mem: Memory, shared: Memory)
    requires CallerMemory(mem, shared)
    ensures CallerMemory(mem, Through(m, shared))
  {
    forall n: nat, b: int ensures Leq(mem(External(n), b), Through(m, shared)(External(n), b)) {
      assert Leq(mem(External(n), b), shared(External(n), b)) && RnStore(m, External(n)) == External(n);
    }
  }

  lemma Onwards(L: Layout, m: Sub, bound: nat, ret: seq<Value>, r: TState, r1: TState, r2: TState)
    requires HistLeq(r.hist, r1.hist) && CallerMemory(r.mem, r1.mem) && Stay(m, ret)
    requires M.Others({}, r1.hist) == r1.hist && M.Others({}, r2.hist) == r2.hist
    requires forall v <- ret :: EvalV(v, r.env).Some? ==>
      EvalV(v, r1.env) == Some(Move(L, EvalV(v, r.env).value)) &&
      forall t <- Tensors(EvalV(v, r.env).value) :: ContentLeq(Read(r.mem, t), Read(r1.mem, MoveT(L, t)))
    requires M.StateRn(M.Setting(Default, {}, m, bound), r1, r2)
    ensures HistLeq(r.hist, r2.hist) && CallerMemory(r.mem, r2.mem) && forall v <- ret :: Returned(L, m, v, r, r2)
  {
    hide HistLeq, EnvRn, Read, ContentLeq, Move, MoveT, EvalV;
    var S := M.Setting(Default, {}, m, bound);
    forall n: nat, b: int ensures Leq(r.mem(External(n), b), r2.mem(External(n), b)) {
      assert Leq(r.mem(External(n), b), r1.mem(External(n), b));
      assert StoreBelow(bound, External(n)) && RnStore(m, External(n)) == External(n);
      assert r2.mem(RnStore(m, External(n)), b) == r1.mem(External(n), b);
    }
    forall v | v in ret && EvalV(v, r.env).Some? ensures Returned(L, m, v, r, r2) {
      var val := EvalV(v, r.env).value;
      EvalRn(m, bound, r1.env, r2.env, v);
      RnTensors(m, bound, Move(L, val));
      MovedTensors(L, val);
      forall t | t in Tensors(val) ensures Read(r2.mem, RnT(m, MoveT(L, t))) == Read(r1.mem, MoveT(L, t)) {
        ReadMoved(L, m, bound, r1.mem, r2.mem, val, t);
      }
    }
  }

  lemma {:induction false} ReadMoved(L: Layout, m: Sub, bound: nat, mem: Memory, mem': Memory, val: TVal, t: TensorRef)
    requires MemRn(m, bound, mem, mem') && t in Tensors(val) && Tensors(Move(L, val)) == MoveTs(L, Tensors(val))
    requires forall t' <- Tensors(Move(L, val)) :: StoreBelow(bound, t'.store)
    ensures Read(mem', RnT(m, MoveT(L, t))) == Read(mem, MoveT(L, t))
  {
    hide MemRn, Move, MoveT;
    var k :| 0 <= k < |Tensors(val)| && Tensors(val)[k] == t;
    var t' := MoveT(L, t);
    assert Tensors(Move(L, val))[k] == t';
    ReadRn(m, bound, mem, mem', [t']);
    assert ReadAll(mem', RnTs(m, [t']))[0] == Read(mem', RnT(m, t')) && ReadAll(mem, [t'])[0] == Read(mem, t');
  }
}

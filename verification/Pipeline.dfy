/** From a tensor program to what foreign code sees: plan the memory, place the tensors, generate code, write the file,
    read it in C++ and invoke the function (python/devproc2/compiler/passes/lower_tensor_create_to_alloc.py,
    python/devproc2/compiler/passes/vm_codegen.py, runtime/src/vm.cc). */
module Pipeline {
  import opened Bytecode
  import opened Runtime
  import opened Builtins
  import opened PrimExprs
  import opened IRValues
  import opened TensorIR
  import opened TensorSemantics
  import opened ShapeBounds
  import I = MemoryIR
  import opened Structured
  import opened CodegenSpec
  import opened CodegenState
  import opened StorageSharing
  import opened PlannedProgram
  import opened Rewriter
  import opened Renaming
  import opened RewriterCorrect
  import M = RewriteMeaning
  import P = PlacedProgram
  import opened TensorCalls
  import opened VirtualMachine
  import FlatMachines
  import opened CppMachine
  import opened ModuleForm
  import opened ProgramCorrect
  import opened Deployment
  import opened Utf8

  /** The code for hoisted storages. */
  ghost function Hoisted(fn: Func, base: nat): seq<Op> {
    StorageOps(PlanOf(fn).entries, base)
  }

  /** The rebuilt function, with each creation put into its storage. */
  ghost function Rebuilt(fn: Func, base: nat, next: nat): Func {
    RwFunc(Placing(P.HomeOf(fn, base)), fn, next)
  }

  /** The function that code generation gets. */
  ghost predicate Lowers(Z: Link, objs: set<nat>, fn: Func, base: nat, next: nat, G: I.Function) {
    Reads(Z, objs, G, Hoisted(fn, base), Rebuilt(fn, base, next).body) && G.ret == Rebuilt(fn, base, next).ret
  }

  // ---------------------------------------------------------------- the start of a call

  /** The caller's storages are their own handles, below those that are given out later. */
  function CallerHandles(Z: Link, w: World): Handles {
    map n: nat | n < Z.base + |w| :: External(n) := n
  }

  /** What lies in the storages before the program writes to them: whatever foreign code has under their handles. */
  function Found(Z: Link, base: nat, w: World): Memory {
    (s: Store, b: int) =>
      match s
      case External(n) => After(Z, w).mem(s, b)
      case Own(res, turn) => if base <= res then After(Z, w).mem(External(Z.base + |w| + (res - base)), b) else None
  }

  /** The caller and foreign code agree about what happened so far and about the caller's memory. */
  ghost predicate Starts(Z: Link, objs: set<nat>, params: seq<I.Param>, args: seq<Val>, st: TState, w: World) {
    After(Z, w).hist == st.hist &&
      (forall n: nat, b: int :: st.mem(External(n), b) == After(Z, w).mem(External(n), b)) &&
    Passed(Z, objs, CallerHandles(Z, w), params, args, st.env)
  }

  lemma StartBytes(Z: Link, base: nat, w: World)
    ensures DistinctHandles(CallerHandles(Z, w)) && SameBytes(CallerHandles(Z, w), Found(Z, base, w), After(Z, w).mem)
  {
    hide After;
  }

  lemma {:induction false} CallerForeign(Z: Link, w: World, v: TVal)
    requires Handled(CallerHandles(Z, w), v)
    ensures M.Foreign(v)
    decreases v
  {
    if v.TTuple? { AllCallerForeign(Z, w, v.fields); }
  }

  lemma {:induction false} AllCallerForeign(Z: Link, w: World, vs: seq<TVal>)
    requires AllHandled(CallerHandles(Z, w), vs)
    ensures M.AllForeign(vs)
    decreases vs
  {
    if vs != [] {
      CallerForeign(Z, w, vs[0]);
      AllCallerForeign(Z, w, vs[1..]);
    }
  }

  /** The storages of the plan are new. */
  lemma FreshStorages(Z: Link, fn: Func, base: nat, st: TState, w: World)
    requires st.turn == [] && st.mem == Found(Z, base, w) && forall id <- Z.C.dims :: id < base
    ensures Storages(Hoisted(fn, base)) && NewStorages(Z, CallerHandles(Z, w), Hoisted(fn, base), st, w)
    ensures var hs := Allocated(CallerHandles(Z, w), Hoisted(fn, base), [], Z.base + |w|);
      forall n: nat :: n < Z.base + |w| ==> External(n) in hs && hs[External(n)] == n
  {
    hide After, PlanOf;
    AllocatedKeeps(CallerHandles(Z, w), Hoisted(fn, base), [], Z.base + |w|);
  }

  lemma {:induction false} AllocatedKeeps(hs: Handles, ops: seq<Op>, turn: seq<nat>, next: nat)
    requires Storages(ops)
    ensures var hs' := Allocated(hs, ops, turn, next);
      forall n: nat :: External(n) in hs ==> External(n) in hs' && hs'[External(n)] == hs[External(n)]
    decreases |ops|
  {
    if ops != [] { AllocatedKeeps(hs[Own(ops[0].res, turn) := next], ops[1..], turn, next + 1); }
  }

  // ---------------------------------------------------------------- what foreign code sees

  /** A value and its counterpart on the host: the same for foreign code, with every defined byte. */
  ghost predicate SeenAlike(mem: Memory, x: TVal, mem': Memory, y: Val) {
    Describe(AsT(y)) == Describe(x) && |Tensors(AsT(y))| == |Tensors(x)| &&
    forall k :: 0 <= k < |Tensors(x)| ==> ContentLeq(Read(mem, Tensors(x)[k]), Read(mem', Tensors(AsT(y))[k]))
  }

  lemma ReturnedSeen(L: Layout, m: Sub, hs: Handles, v: Value, r: TState, r': TState, mem: Memory)
    requires EvalV(v, r.env).Some? && P.Returned(L, m, v, r, r') && SameBytes(hs, r'.mem, mem)
    requires EvalV(Sv(m, v), r'.env).Some? && Handled(hs, EvalV(Sv(m, v), r'.env).value)
    ensures SeenAlike(r.mem, EvalV(v, r.env).value, mem, Face(hs, EvalV(Sv(m, v), r'.env).value))
  {
    hide SameBytes, Read, EvalV, Handled, Face, AsT, Move, RnV, Tensors, ContentLeq;
    var x := EvalV(v, r.env).value;
    var x' := RnV(m, Move(L, x));
    MovedTensors(L, x);
    RnTensors(m, 0, Move(L, x));
    FaceSeen(hs, x');
    ReadsSame(hs, r'.mem, mem, Tensors(x'));
    forall k | 0 <= k < |Tensors(x)|
      ensures ContentLeq(Read(r.mem, Tensors(x)[k]), Read(mem, Tensors(AsT(Face(hs, x')))[k]))
    {
      var t := Tensors(x)[k];
      assert t in Tensors(x) && Tensors(x')[k] == RnT(m, MoveT(L, t));
      assert ReadAll(mem, Outers(hs, Tensors(x')))[k] == Read(mem, Outer(hs, Tensors(x')[k]));
      assert ReadAll(r'.mem, Tensors(x'))[k] == Read(r'.mem, Tensors(x')[k]);
    }
  }

  // ---------------------------------------------------------------- the whole way

  /** The function runs, and what it returns is defined. */
  ghost predicate Returns(C: Context, fn: Func, st: TState) {
    ExecOps(C, fn.body, st).Some? && forall v <- fn.ret :: EvalV(v, ExecOps(C, fn.body, st).value.env).Some?
  }

  /** A private run of the function, and a plan for it that is safe to use. */
  ghost predicate Prepared(C: Context, fn: Func, base: nat, next: nat, st: TState) {
    PrivateRun(C, fn, base, st, st.mem) && SafeLoops(fn) && NamesakesAgree(SizeVars(fn), C.dims) && Robust(C.kernel) &&
    Sane(fn, P.After(fn, base)) && P.After(fn, base) <= next && (forall id <- C.dims :: id < base) && Returns(C, fn, st)
  }

  /** What the caller and foreign code are left with after the call. */
  ghost predicate Delivered(Z: Link, fn: Func, st: TState, w: World, y: Val, w': World) {
    Returns(Z.C, fn, st) &&
    var r, o := ExecOps(Z.C, fn.body, st).value, After(Z, w');
    HistLeq(r.hist, o.hist) &&
    (forall n: nat, b: int :: n < Z.base + |w| ==> Leq(r.mem(External(n), b), o.mem(External(n), b))) &&
    (fn.ret == [] ==> y == VNull) &&
    (fn.ret != [] ==> SeenAlike(r.mem, EvalV(fn.ret[0], r.env).value, o.mem, y))
  }

  lemma PreparedParts(C: Context, fn: Func, base: nat, next: nat, st: TState)
    requires Prepared(C, fn, base, next, st)
    ensures Plannable(fn) && FreshIds(fn, base) && SizesEvaluate(C, fn) && Returns(C, fn, st) && st.turn == []
    ensures SafeLoops(fn) && NamesakesAgree(SizeVars(fn), C.dims) && Robust(C.kernel)
    ensures Sane(fn, P.After(fn, base)) && P.After(fn, base) <= next && forall id <- C.dims :: id < base
  {
    hide Plannable, FreshIds, SizesEvaluate, SafeLoops, NamesakesAgree, Robust, Sane, ExecOps, EvalV, NothingMade,
         CallerArgs, CallerMemory, UninitialisedOps;
  }

  /** The storages contain what foreign code left there. */
  lemma PrivateFound(C: Context, fn: Func, base: nat, st: TState, found: Memory)
    requires PrivateRun(C, fn, base, st, st.mem)
    requires forall n: nat, b: int :: found(External(n), b) == st.mem(External(n), b)
    ensures PrivateRun(C, fn, base, st, found)
  {
    hide Plannable, FreshIds, SizesEvaluate, CallerArgs, NothingMade, ExecOps, UninitialisedOps;
  }

  /** The run of the placed program, next to the private one. */
  ghost predicate PlacedMeans(C: Context, fn: Func, base: nat, next: nat, st: TState, found: Memory)
    requires SizesEvaluate(C, fn) && ExecOps(C, fn.body, st).Some?
  {
    var m := FinalMap(Placing(P.HomeOf(fn, base)), fn, next);
    var r, run' := ExecOps(C, fn.body, st).value,
      ExecOps(C, Hoisted(fn, base) + Rebuilt(fn, base, next).body, st.(mem := found));
    run'.Some? && HistLeq(r.hist, run'.value.hist) && CallerMemory(r.mem, run'.value.mem) &&
    Rebuilt(fn, base, next).ret == Svs(m, fn.ret) &&
    forall v <- fn.ret :: EvalV(v, r.env).Some? && P.Returned(LayoutOf(C, fn, base), m, v, r, run'.value)
  }

  lemma PlacedReturns(Z: Link, objs: set<nat>, fn: Func, base: nat, next: nat, params: seq<I.Param>, args: seq<Val>,
                      st: TState, w: World)
    requires Prepared(Z.C, fn, base, next, st) && Starts(Z, objs, params, args, st, w)
    ensures SizesEvaluate(Z.C, fn) && ExecOps(Z.C, fn.body, st).Some? &&
      PlacedMeans(Z.C, fn, base, next, st, Found(Z, base, w))
  {
    hide Prepared, PrivateRun, ExecOps, After, Found, PlanOf, SafeLoops, NamesakesAgree, Robust, Sane, HistLeq,
         CallerMemory, Passed, FinalMap, RwFunc, LayoutOf, P.Returned, EvalV, Apart, FitsOps, Stay;
    var found := Found(Z, base, w);
    PreparedParts(Z.C, fn, base, next, st);
    PreparedRun(Z.C, fn, base, next, st);
    FoundCaller(Z, base, w, st);
    PrivateFound(Z.C, fn, base, st, found);
    PassedForeign(Z, objs, params, args, st.env, w);
    P.PlacementIsInvisible(Z.C, fn, base, next, st, found);
    P.PlacedIsRenamed(Z.C, fn, base, next);
  }

  lemma PlacedResults(C: Context, fn: Func, base: nat, next: nat, st: TState, found: Memory, ret: seq<Value>)
    requires SizesEvaluate(C, fn) && ExecOps(C, fn.body, st).Some? && PlacedMeans(C, fn, base, next, st, found)
    requires ret == Rebuilt(fn, base, next).ret
    ensures var m := FinalMap(Placing(P.HomeOf(fn, base)), fn, next);
      var run' := ExecOps(C, Hoisted(fn, base) + Rebuilt(fn, base, next).body, st.(mem := found));
      run'.Some? && |ret| == |fn.ret| &&
        (ret != [] ==> ret[0] == Sv(m, fn.ret[0]) && EvalV(ret[0], run'.value.env).Some?)
  {
    hide ExecOps, HistLeq, CallerMemory, FinalMap, LayoutOf, Hoisted, Rebuilt, EvalV;
    if fn.ret != [] { assert fn.ret[0] in fn.ret; }
  }

  lemma Delivers(Z: Link, fn: Func, base: nat, next: nat, st: TState, w: World, ret: seq<Value>, hs: Handles, w': World)
    requires SizesEvaluate(Z.C, fn) && ExecOps(Z.C, fn.body, st).Some?
    requires PlacedMeans(Z.C, fn, base, next, st, Found(Z, base, w)) && ret == Rebuilt(fn, base, next).ret
    requires var run' := ExecOps(Z.C, Hoisted(fn, base) + Rebuilt(fn, base, next).body, st.(mem := Found(Z, base, w)));
      run'.Some? && After(Z, w').hist == run'.value.hist && SameBytes(hs, run'.value.mem, After(Z, w').mem) &&
      (ret != [] ==> EvalV(ret[0], run'.value.env).Some? && Handled(hs, EvalV(ret[0], run'.value.env).value))
    requires forall n: nat :: n < Z.base + |w| ==> External(n) in hs && hs[External(n)] == n
    ensures var run' := ExecOps(Z.C, Hoisted(fn, base) + Rebuilt(fn, base, next).body, st.(mem := Found(Z, base, w)));
      Delivered(Z, fn, st, w, FirstFace(hs, ret, run'.value.env), w')
  {
    hide ExecOps, HistLeq, FinalMap, LayoutOf, Hoisted, Rebuilt, Found, P.Returned, SeenAlike, After, EvalV, Face,
         Handled;
    PlacedResults(Z.C, fn, base, next, st, Found(Z, base, w), ret);
    var L, m := LayoutOf(Z.C, fn, base), FinalMap(Placing(P.HomeOf(fn, base)), fn, next);
    var r := ExecOps(Z.C, fn.body, st).value;
    var r' := ExecOps(Z.C, Hoisted(fn, base) + Rebuilt(fn, base, next).body, st.(mem := Found(Z, base, w))).value;
    var o := After(Z, w');
    if fn.ret != [] {
      assert fn.ret[0] in fn.ret;
      ReturnedSeen(L, m, hs, fn.ret[0], r, r', o.mem);
    }
    forall n: nat, b: int | n < Z.base + |w| ensures Leq(r.mem(External(n), b), o.mem(External(n), b)) {
      assert Leq(r.mem(External(n), b), r'.mem(External(n), b));
      assert External(n) in hs && o.mem(External(hs[External(n)]), b) == r'.mem(External(n), b);
    }
  }

  /** The placed program is evaluated, as the structured program that code generation gets, to what the tensor program
      with private storages returns, after calls that see the same bytes. */
  lemma EvaluatesPlaced(Z: Link, X: Machine, objs: set<nat>, fn: Func, base: nat, next: nat, G: I.Function, st: TState,
                        args: seq<Val>, w: World)
    returns (n: nat, y: Val, w': World)
    requires X.host == Z.C.host == Cpp && Serves(Z, X.ext)
    requires Prepared(Z.C, fn, base, next, st) && Lowers(Z, objs, fn, base, next, G)
    requires Starts(Z, objs, G.params, args, st, w)
    ensures Delivered(Z, fn, st, w, y, w')
    ensures |args| == |G.params| && forall fuel: nat :: n <= fuel ==> EvalFunction(X, G, args, w, fuel) == Ok(y, w')
  {
    hide Prepared, PrivateRun, ExecOps, After, Found, SameBytes, NewStorages, Storages, Reads, Serves, EvalFunction,
         Passed, Allocated, DistinctHandles, Hoisted, Rebuilt, PlacedMeans, Delivered, EvalV, Handled;
    var hs, found := CallerHandles(Z, w), Found(Z, base, w);
    var st1 := st.(mem := found);
    PreparedParts(Z.C, fn, base, next, st);
    PlacedReturns(Z, objs, fn, base, next, G.params, args, st, w);
    FreshStorages(Z, fn, base, st1, w);
    StartBytes(Z, base, w);
    PlacedResults(Z.C, fn, base, next, st, found, G.ret);
    PassedForeign(Z, objs, G.params, args, st.env, w);
    var storages, rest := Hoisted(fn, base), Rebuilt(fn, base, next).body;
    n, w' := FunctionSame(Z, X, objs, hs, G, storages, rest, st1, args, w);
    var hs' := Allocated(hs, storages, [], Z.base + |w|);
    y := FirstFace(hs', G.ret, ExecOps(Z.C, storages + rest, st1).value.env);
    Delivers(Z, fn, base, next, st, w, G.ret, hs', w');
  }

  lemma PreparedRun(C: Context, fn: Func, base: nat, next: nat, st: TState)
    requires Prepared(C, fn, base, next, st)
    ensures PrivateRun(C, fn, base, st, st.mem)
  {
    hide PrivateRun, SafeLoops, NamesakesAgree, Robust, Sane, ExecOps, EvalV;
  }

  lemma FoundCaller(Z: Link, base: nat, w: World, st: TState)
    requires forall n: nat, b: int :: st.mem(External(n), b) == After(Z, w).mem(External(n), b)
    ensures forall n: nat, b: int :: Found(Z, base, w)(External(n), b) == st.mem(External(n), b)
  {
    hide After;
  }

  lemma PassedForeign(Z: Link, objs: set<nat>, params: seq<I.Param>, args: seq<Val>, E: TEnv, w: World)
    requires Passed(Z, objs, CallerHandles(Z, w), params, args, E)
    ensures |args| == |params| && forall id <- E :: M.Foreign(E[id])
  {
    hide EvalSetup, BindAll, Handled, CallerHandles;
    forall id | id in E ensures M.Foreign(E[id]) { CallerForeign(Z, w, E[id]); }
  }

  /** A module whose compiled program has been written to a file. */
  ghost predicate Filed(fns: seq<ModuleForm.Named>, kinds: Kinds, data: seq<byte>) {
    WfModule(fns, kinds) && OwnNames(CompileModule(fns)) && OnFile(data, CompileModule(fns))
  }

  /** The arguments given, completed by weights, are what the tensor program gets. */
  ghost predicate Given(Z: Link, objs: set<nat>, params: seq<I.Param>, weights: Weights, given: seq<Val>,
                        args: seq<Val>, st: TState, w: World) {
    |args| == |params| && Completes(ParamNames(params), weights, given, args) && Starts(Z, objs, params, args, st, w)
  }

  /** Reading the file in C++ and invoking the function gives this result. */
  ghost predicate Invoked(data: seq<byte>, ext: Builtins.Foreign, weights: Weights, name: string, given: seq<Val>,
                          w: World, out: CppOutcome) {
    exists exe: Program ::
      CppHas(data, exe) && CppReturns(Vm(Machine(Cpp, ext), exe), weights, Builtins.Named(name), given, w, out)
  }

  type CppOutcome = Run<FlatMachines.CppState>

  /** Compile a module that contains the placed function, write it to a file, read the file in C++ and invoke the
      function there: the call returns, foreign code has seen every call that the tensor program makes with private
      storages, with every defined byte, and so has the caller of what is returned and of its own memory. */
  lemma PipelineCorrect(Z: Link, ext: Builtins.Foreign, objs: set<nat>, fn: Func, base: nat, next: nat, st: TState,
                        weights: Weights, fns: seq<ModuleForm.Named>, data: seq<byte>, k: nat, given: seq<Val>,
                        args: seq<Val>, w: World, kinds: Kinds)
    returns (y: Val, w': World)
    requires k < |fns| && Filed(fns, kinds, data) && Lowers(Z, objs, fn, base, next, fns[k].fn)
    requires Z.C.host == Cpp && Serves(Z, ext) && Prepared(Z.C, fn, base, next, st)
    requires Given(Z, objs, fns[k].fn.params, weights, given, args, st, w)
    ensures Invoked(data, ext, weights, fns[k].name, given, w, Done(y, w'))
    ensures Delivered(Z, fn, st, w, y, w')
  {
    hide Serves, Prepared, WfModule, OwnNames, OnFile, Lowers, Starts, Completes, CppHas, CppReturns, Delivered,
         EvalFunction, CompileModule;
    var X := Machine(Cpp, ext);
    var n;
    n, y, w' := EvaluatesPlaced(Z, X, objs, fn, base, next, fns[k].fn, st, args, w);
    assert EvalFunction(X, fns[k].fn, args, w, n) == Ok(y, w');
    assert Means(X, fns[k].fn, args, w, Ok(y, w'));
    var exe := CppDeploymentCorrect(ext, weights, fns, data, k, given, args, w, kinds, y, w');
  }

  // ---------------------------------------------------------------- from functional calls on

  /** A run of a functional program, and kernels for its calls. */
  ghost predicate Functional(C: Context, D: Pass, kernels: set<string>, fn: Func, bound: nat, next: nat, st: TState) {
    Sane(fn, bound) && bound <= next && !D.Placing? && M.AtStart(fn, st) && M.Traceless(C, kernels) &&
    (forall op :: Selected(D, op) ==>
       D.kernelOf(op).value in kernels && M.Implements(C, op.fn, D.kernelOf(op).value)) &&
    Returns(C, fn, st)
  }

  /** What is left of a functional run: the calls of kernels that take the place of functional calls are not counted. */
  ghost predicate DeliveredTo(Z: Link, kernels: set<string>, fn: Func, st: TState, w: World, y: Val, w': World) {
    Returns(Z.C, fn, st) &&
    var r, o := ExecOps(Z.C, fn.body, st).value, After(Z, w');
    HistLeq(M.Others(kernels, r.hist), M.Others(kernels, o.hist)) &&
    (forall n: nat, b: int :: n < Z.base + |w| ==> Leq(r.mem(External(n), b), o.mem(External(n), b))) &&
    (fn.ret == [] ==> y == VNull) &&
    (fn.ret != [] ==> SeenAlike(r.mem, EvalV(fn.ret[0], r.env).value, o.mem, y))
  }

  lemma {:induction false} OthersLeq(kernels: set<string>, a: History, b: History)
    requires HistLeq(a, b)
    ensures HistLeq(M.Others(kernels, a), M.Others(kernels, b))
    decreases |a|
  {
    hide EventLeq;
    if a != [] {
      var i := |a| - 1;
      OthersLeq(kernels, a[..i], b[..i]);
      SameTarget(a[i], b[i]);
    }
  }

  lemma SameTarget(a: CallEvent, b: CallEvent)
    requires EventLeq(a, b)
    ensures a.target == b.target
  {
  }

  lemma SeenThrough(m: Sub, mem0: Memory, x0: TVal, mem: Memory, mem': Memory, y: Val)
    requires SeenAlike(mem, RnV(m, x0), mem', y)
    requires forall t <- Tensors(x0) :: Read(mem, RnT(m, t)) == Read(mem0, t)
    ensures SeenAlike(mem0, x0, mem', y)
  {
    hide Read, Tensors, Describe, AsT, ContentLeq;
    RnTensors(m, 0, x0);
    forall k | 0 <= k < |Tensors(x0)| ensures ContentLeq(Read(mem0, Tensors(x0)[k]), Read(mem', Tensors(AsT(y))[k])) {
      assert Tensors(x0)[k] in Tensors(x0) && Tensors(RnV(m, x0))[k] == RnT(m, Tensors(x0)[k]);
    }
  }

  lemma FunctionalParts(C: Context, D: Pass, kernels: set<string>, fn: Func, bound: nat, next: nat, st: TState)
    requires Functional(C, D, kernels, fn, bound, next, st)
    ensures var m, fn' := FinalMap(D, fn, next), RwFunc(D, fn, next);
      Returns(C, fn, st) && ExecOps(C, fn'.body, st).Some? &&
      var r, r' := ExecOps(C, fn.body, st).value, ExecOps(C, fn'.body, st).value;
      |fn'.ret| == |fn.ret| && M.Others(kernels, r'.hist) == M.Others(kernels, r.hist) &&
      (forall n: nat, b: int :: r'.mem(External(n), b) == r.mem(External(n), b)) &&
      forall k :: 0 <= k < |fn.ret| ==> M.SameResult(m, fn.ret[k], fn'.ret[k], r, r')
  {
    hide Sane, M.AtStart, M.Traceless, M.Implements, ExecOps, EvalV, FinalMap, RwFunc, M.SameResult;
    M.RewritePreservesMeaning(C, D, kernels, fn, bound, next, st);
  }

  /** What the lowered function delivers, the functional one delivers. */
  lemma DeliversFunctional(Z: Link, D: Pass, kernels: set<string>, fn: Func, bound: nat, next: nat, st: TState,
                           w: World, y: Val, w': World)
    requires Functional(Z.C, D, kernels, fn, bound, next, st)
    requires Delivered(Z, RwFunc(D, fn, next), st, w, y, w')
    ensures DeliveredTo(Z, kernels, fn, st, w, y, w')
  {
    hide Functional, ExecOps, FinalMap, RwFunc, After, HistLeq, SeenAlike, EvalV, Read, RnV, Tensors;
    FunctionalParts(Z.C, D, kernels, fn, bound, next, st);
    var m, fn' := FinalMap(D, fn, next), RwFunc(D, fn, next);
    var r, r', o := ExecOps(Z.C, fn.body, st).value, ExecOps(Z.C, fn'.body, st).value, After(Z, w');
    OthersLeq(kernels, r'.hist, o.hist);
    if fn.ret != [] {
      assert fn.ret[0] in fn.ret && M.SameResult(m, fn.ret[0], fn'.ret[0], r, r');
      SeenThrough(m, r.mem, EvalV(fn.ret[0], r.env).value, r'.mem, o.mem, y);
    }
  }

  /** The same from a program of functional calls, lowered to destination-passing style first. */
  lemma FunctionalPipelineCorrect(Z: Link, ext: Builtins.Foreign, objs: set<nat>, D: Pass, kernels: set<string>,
                                  fn: Func, bound: nat, next0: nat, base: nat, next: nat, st: TState, weights: Weights,
                                  fns: seq<ModuleForm.Named>, data: seq<byte>, k: nat, given: seq<Val>, args: seq<Val>,
                                  w: World, kinds: Kinds)
    returns (y: Val, w': World)
    requires k < |fns| && Filed(fns, kinds, data) && Lowers(Z, objs, RwFunc(D, fn, next0), base, next, fns[k].fn)
    requires Z.C.host == Cpp && Serves(Z, ext) && Functional(Z.C, D, kernels, fn, bound, next0, st)
    requires Prepared(Z.C, RwFunc(D, fn, next0), base, next, st)
    requires Given(Z, objs, fns[k].fn.params, weights, given, args, st, w)
    ensures Invoked(data, ext, weights, fns[k].name, given, w, Done(y, w'))
    ensures DeliveredTo(Z, kernels, fn, st, w, y, w')
  {
    hide Serves, Functional, Prepared, Filed, Lowers, Given, Invoked, Delivered, DeliveredTo, RwFunc;
    y, w' := PipelineCorrect(Z, ext, objs, RwFunc(D, fn, next0), base, next, st, weights, fns, data, k, given, args, w,
                             kinds);
    DeliversFunctional(Z, D, kernels, fn, bound, next0, st, w, y, w');
  }
}

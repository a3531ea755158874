/** From a module of functions to a running program: what an invocation computes. */
module ProgramCorrect {
  import opened Bytecode
  import opened Runtime
  import opened Builtins
  import opened MemoryIR
  import opened Structured
  import opened CodegenSpec
  import opened CodegenState
  import FM = FrameMachine
  import opened StraightLineCorrect
  import opened ModuleForm
  import opened FunctionCorrect
  import opened VirtualMachine

  // ---------------------------------------------------------------- invocations

  /** Running n steps of the machine has the outcome of evaluating a function. */
  ghost predicate Delivers(X: Vm, frames: seq<Frame>, w: World, n: nat, out: Outcome<Val>, fuel: nat) {
    match out
    case Ok(v, w') => Steps(X, Going(frames, w), n) == Done(v, w')
    case Raised(w') => Steps(X, Going(frames, w), n) == Failed(w')
    case OutOfFuel => n >= fuel && Steps(X, Going(frames, w), n).Going?
  }

  /** The registers constants are loaded into are in range, once each. */
  lemma EntryLoaded(h: Host, e: Entry, args: seq<Val>, consts: seq<Const>, fin: State, kinds: Kinds)
    requires Good(fin, kinds) && e.numRegs == fin.next && e.inits == fin.inits && |args| <= fin.next
    requires fin.consts <= consts
    requires forall ci <- fin.inits :: ci.reg >= |args|
    ensures FM.FrameFits(e, args, consts)
    ensures var R := FM.FrameRegs(h, e, args, consts); Loaded(h, R, fin) && R[..|args|] == args
  {
    forall ci | ci in e.inits ensures 0 <= ci.reg < e.numRegs && 0 <= ci.idx < |consts| {
      var k :| 0 <= k < |fin.inits| && fin.inits[k] == ci;
    }
    var R0 := args + seq(e.numRegs - |args|, _ => VNull);
    var R := FM.FrameRegs(h, e, args, consts);
    forall k | 0 <= k < |fin.inits|
      ensures 0 <= fin.inits[k].reg < |R| && 0 <= fin.inits[k].idx < |fin.consts|
      ensures R[fin.inits[k].reg] == Load(h, fin.consts[fin.inits[k].idx])
    {
      FM.PreloadAt(h, R0, e.inits, consts, k);
    }
    forall r | 0 <= r < |args| ensures R[r] == args[r] {
      FM.PreloadOther(h, R0, e.inits, consts, r);
    }
  }

  lemma InitsAboveArgs(fn: Function, funcs: seq<Entry>, consts: seq<Const>, kinds: Kinds)
    requires WfFunction(fn, kinds) && BuiltinKinds(kinds) && GoodPools(funcs, consts, kinds)
    ensures var fin := GenFunction(fn, funcs, consts).s;
      Good(fin, kinds) && |fn.params| <= fin.next && forall ci <- fin.inits :: ci.reg >= |fn.params|
  {
    hide WfFunction, GenFunction;
    FunctionStates(fn, funcs, consts, kinds);
    assert Extends(StartState(fn, funcs, consts), GenFunction(fn, funcs, consts).s);
  }

  /** Calling a compiled function computes what the function means. */
  lemma EntryDelivers(X: Vm, f: Named, fns: seq<Named>, part: Program, args: seq<Val>, w: World, kinds: Kinds,
                      fuel: nat)
    returns (n: nat)
    requires WfFunction(f.fn, kinds) && BuiltinKinds(kinds) && GoodProgram(fns, part, kinds) && |args| == |f.fn.params|
    requires Contains(X.exe, AddFunction(f.name, f.fn, part))
    ensures var i := |AddFunction(f.name, f.fn, part).funcs| - 1;
      0 <= i && IsFunction(X.exe, i) && FM.FrameFits(X.exe.funcs[i], args, X.exe.consts) &&
      X.exe.funcs[i].kind == VMFunc && X.exe.funcs[i].numArgs == |args| &&
      X.exe.funcs[i].paramNames == ParamNames(f.fn.params) &&
      Delivers(X, [Frame(i, 0, FM.FrameRegs(X.M.host, X.exe.funcs[i], args, X.exe.consts), -1)], w, n,
               EvalFunction(X.M, f.fn, args, w, fuel), fuel)
  {
    hide WfFunction, GenFunction, EvalFunction, Good, Loaded, FM.Steps, Steps, FM.FrameRegs;
    var g := GenFunction(f.fn, part.funcs, part.consts);
    var exe' := AddFunction(f.name, f.fn, part);
    var i := |exe'.funcs| - 1;
    InitsAboveArgs(f.fn, part.funcs, part.consts, kinds);
    var e := X.exe.funcs[i];
    assert e == exe'.funcs[i];
    EntryLoaded(X.M.host, e, args, X.exe.consts, g.s, kinds);
    BodyIs(X, i, exe', part.instrs, g.code);
    var R := FM.FrameRegs(X.M.host, e, args, X.exe.consts);
    var P := CodeOf(X, i);
    var m := FunctionRuns(P, f.fn, part.funcs, part.consts, args, R, w, kinds, fuel);
    n := LiftDelivers(X, i, R, w, m, EvalFunction(X.M, f.fn, args, w, fuel), fuel);
  }

  lemma BodyIs(X: Vm, i: nat, exe': Program, before: seq<Instr>, code: seq<Instr>)
    requires Contains(X.exe, exe') && i < |exe'.funcs| && exe'.instrs == before + code
    requires exe'.funcs[i].instrOffset == |before| && exe'.funcs[i].instrCount == |code|
    ensures IsFunction(X.exe, i) && Body(X.exe, i) == code
  {
    assert X.exe.funcs[i] == exe'.funcs[i];
    assert exe'.instrs[|before|..|before| + |code|] == code;
    assert X.exe.instrs[|before|..|before| + |code|] == exe'.instrs[|before|..|before| + |code|];
  }

  /** The first step at which an activation is no longer running. */
  lemma {:induction false} FirstStop(P: FM.Code, st: FM.Status, m: nat) returns (n: nat)
    requires !FM.Steps(P, st, m).Running?
    ensures n <= m && FM.Steps(P, st, n) == FM.Steps(P, st, m) && (n > 0 ==> FM.Steps(P, st, n - 1).Running?)
    decreases m
  {
    if !st.Running? {
      FM.StepsStopped(P, st, m);
      n := 0;
    } else {
      var k := FirstStop(P, FM.Step(P, st), m - 1);
      n := k + 1;
      if k == 0 { assert FM.Steps(P, st, 0) == st; }
    }
  }

  lemma LiftDelivers(X: Vm, f: nat, R: seq<Val>, w: World, m: nat, out: Outcome<Val>, fuel: nat) returns (n: nat)
    requires IsFunction(X.exe, f) && Computes(CodeOf(X, f), 0, R, w, m, out, fuel)
    ensures Delivers(X, [Frame(f, 0, R, -1)], w, n, out, fuel)
  {
    hide FM.Steps, Steps;
    var P, st := CodeOf(X, f), FM.Running(0, R, w);
    n := m;
    if FM.Steps(P, st, m).Running? {
      if m > 0 { StillRunning(P, st, m - 1); }
    } else {
      n := FirstStop(P, st, m);
    }
    assert [] + [Frame(f, 0, R, -1)] == [Frame(f, 0, R, -1)];
    LiftSteps(X, [], f, -1, 0, R, w, n);
  }

  lemma StillRunning(P: FM.Code, st: FM.Status, m: nat)
    ensures FM.Steps(P, st, m + 1).Running? ==> FM.Steps(P, st, m).Running?
  {
    FM.StepsAdd(P, st, m, 1);
    var mid := FM.Steps(P, st, m);
    if !mid.Running? { FM.StepsStopped(P, mid, 1); }
  }

  // ---------------------------------------------------------------- the main theorem

  /** A fresh machine about to run function f. */
  function Invocation(X: Vm, f: nat, args: seq<Val>, w: World): Run<seq<Frame>>
    requires f < |X.exe.funcs| && FM.FrameFits(X.exe.funcs[f], args, X.exe.consts)
  {
    Going([Frame(f, 0, FM.FrameRegs(X.M.host, X.exe.funcs[f], args, X.exe.consts), -1)], w)
  }

  /** Invoking a function of a compiled module by name has the outcome of evaluating it, for every fuel. */
  lemma ModuleDelivers(M: Machine, fns: seq<Named>, k: nat, args: seq<Val>, w: World, kinds: Kinds, fuel: nat)
    returns (n: nat)
    requires WfModule(fns, kinds) && k < |fns| && |args| == |fns[k].fn.params|
    ensures var X := Vm(M, CompileModule(fns)); var f := FindFunc(X.exe.funcs, Builtins.Named(fns[k].name), 0);
      f < |X.exe.funcs| && IsFunction(X.exe, f) && FM.FrameFits(X.exe.funcs[f], args, X.exe.consts) &&
      X.exe.funcs[f].kind == VMFunc && X.exe.funcs[f].numArgs == |args| &&
      X.exe.funcs[f].paramNames == ParamNames(fns[k].fn.params) &&
      Delivers(X, Invocation(X, f, args, w).s, w, n, EvalFunction(M, fns[k].fn, args, w, fuel), fuel)
  {
    hide WfFunction, AddFunction, EvalFunction, FM.FrameRegs, Delivers;
    var X := Vm(M, CompileModule(fns));
    var before, f := fns[..k], fns[k];
    var part := CompileModule(before);
    PrefixWf(fns, k, kinds);
    CompileModuleOk(before, kinds);
    CompileModuleOk(fns, kinds);
    CompilePrefix(fns, k + 1, kinds);
    assert fns[..k + 1][..k] == before && fns[..k + 1][k] == f;
    AddFunctionOk(f, before, part, kinds);
    var exe' := AddFunction(f.name, f.fn, part);
    assert CompileModule(fns[..k + 1]) == exe';
    n := EntryDelivers(X, f, before, part, args, w, kinds, fuel);
    FoundAt(X.exe.funcs, |exe'.funcs| - 1);
    assert X.exe.funcs[|exe'.funcs| - 1] == exe'.funcs[|exe'.funcs| - 1];
  }

  /** The function evaluates to this outcome, given enough loop iterations. */
  ghost predicate Means(M: Machine, fn: Function, args: seq<Val>, w: World, out: Outcome<Val>)
    requires |args| == |fn.params|
  {
    exists fuel: nat :: EvalFunction(M, fn, args, w, fuel) == out
  }

  /** The machine ends like this, after some number of instructions. */
  ghost predicate Ends(X: Vm, start: Run<seq<Frame>>, out: Run<seq<Frame>>) {
    exists n: nat :: Steps(X, start, n) == out
  }

  /** Runs and evaluations correspond in both directions: the machine returns v exactly when some
      number of loop iterations suffices to evaluate the function to v, fails exactly when
      evaluation raises, and never gets stuck: no index is ever out of range. */
  lemma {:induction false} ModuleCorrect(M: Machine, fns: seq<Named>, k: nat, args: seq<Val>, w: World, kinds: Kinds,
                                         v: Val, w': World)
    requires WfModule(fns, kinds) && k < |fns| && |args| == |fns[k].fn.params|
    ensures var X := Vm(M, CompileModule(fns)); var f := FindFunc(X.exe.funcs, Builtins.Named(fns[k].name), 0);
      f < |X.exe.funcs| && X.exe.funcs[f].kind == VMFunc && X.exe.funcs[f].numArgs == |args| &&
      X.exe.funcs[f].paramNames == ParamNames(fns[k].fn.params) && FM.FrameFits(X.exe.funcs[f], args, X.exe.consts) &&
      var start := Invocation(X, f, args, w);
      (Ends(X, start, Done(v, w')) <==> Means(M, fns[k].fn, args, w, Ok(v, w'))) &&
      (Ends(X, start, Failed(w')) <==> Means(M, fns[k].fn, args, w, Raised(w'))) &&
      (forall n: nat :: Steps(X, start, n) != Stuck)
  {
    hide WfFunction, CompileModule, EvalFunction, FM.FrameRegs, Steps, FM.FrameFits;
    var X := Vm(M, CompileModule(fns));
    var f := FindFunc(X.exe.funcs, Builtins.Named(fns[k].name), 0);
    var _ := ModuleDelivers(M, fns, k, args, w, kinds, 0);
    var start := Invocation(X, f, args, w);
    forall n: nat ensures Steps(X, start, n) != Stuck {
      var m := ModuleDelivers(M, fns, k, args, w, kinds, n + 1);
      StepsAgree(X, start, n, m);
    }
    if n: nat :| Steps(X, start, n) == Done(v, w') {
      var m := ModuleDelivers(M, fns, k, args, w, kinds, n + 1);
      StepsAgree(X, start, n, m);
      assert EvalFunction(M, fns[k].fn, args, w, n + 1) == Ok(v, w');
    }
    if n: nat :| Steps(X, start, n) == Failed(w') {
      var m := ModuleDelivers(M, fns, k, args, w, kinds, n + 1);
      StepsAgree(X, start, n, m);
      assert EvalFunction(M, fns[k].fn, args, w, n + 1) == Raised(w');
    }
    if fuel: nat :| EvalFunction(M, fns[k].fn, args, w, fuel) == Ok(v, w') {
      var m := ModuleDelivers(M, fns, k, args, w, kinds, fuel);
      assert Steps(X, start, m) == Done(v, w');
    }
    if fuel: nat :| EvalFunction(M, fns[k].fn, args, w, fuel) == Raised(w') {
      var m := ModuleDelivers(M, fns, k, args, w, kinds, fuel);
      assert Steps(X, start, m) == Failed(w');
    }
  }

  /** Two looks at one run: whoever stopped first stopped for good. */
  lemma {:induction false} StepsAgree(X: Vm, start: Run<seq<Frame>>, n: nat, m: nat)
    ensures !Steps(X, start, n).Going? && n <= m ==> Steps(X, start, m) == Steps(X, start, n)
    ensures !Steps(X, start, m).Going? && m <= n ==> Steps(X, start, n) == Steps(X, start, m)
  {
    if n <= m {
      StepsAdd(X, start, n, m - n);
      if !Steps(X, start, n).Going? { StepsStopped(X, Steps(X, start, n), m - n); }
    }
    if m <= n {
      StepsAdd(X, start, m, n - m);
      if !Steps(X, start, m).Going? { StepsStopped(X, Steps(X, start, m), n - m); }
    }
  }
}

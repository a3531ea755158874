/** Whole functions: entry code for symbolic dimensions, the body, the return. */
module FunctionCorrect {
  import opened Bytecode
  import opened Runtime
  import opened Builtins
  import opened PrimExprs
  import opened IRValues
  import opened MemoryIR
  import opened Structured
  import opened CodegenSpec
  import opened CodegenState
  import opened WellFormed
  import opened FrameMachine
  import opened StraightLineCorrect
  import opened ControlFlowCorrect
  import opened ModuleForm

  // ---------------------------------------------------------------- dimensions

  /** Running entry code extends the environment as evaluating the entry does. */
  ghost predicate Enters(r: Stretch, out: Option<Env>, s: State, s': State, fin: State) {
    match out
    case Some(E') =>
      Steps(r.P, Running(r.pc, r.R, r.w), r.n) == Running(r.pc + r.len, r.R', r.w) &&
      Agree(s', E', r.R') && |r.R'| == |r.R| && Same(r.R, r.R', s.next, s'.next, fin)
    case None => Steps(r.P, Running(r.pc, r.R, r.w), r.n) == Failed(r.w)
  }

  lemma {:induction false} EntersThen(P: Code, pc: int, R: seq<Val>, w: World, n1: nat, len1: nat, R1: seq<Val>,
                                      n2: nat, len2: nat, R2: seq<Val>, out: Option<Env>, s: State, mid: State,
                                      s': State, fin: State)
    requires Steps(P, Running(pc, R, w), n1) == Running(pc + len1, R1, w) && |R1| == |R|
    requires Same(R, R1, s.next, mid.next, fin)
    requires Enters(Stretch(P, pc + len1, R1, w, n2, len2, R2), out, mid, s', fin) && s.next <= mid.next <= s'.next
    ensures Enters(Stretch(P, pc, R, w, n1 + n2, len1 + len2, R2), out, s, s', fin)
  {
    StepsAdd(P, Running(pc, R, w), n1, n2);
    if out.Some? { SameTrans(R, R1, R2, s.next, mid.next, mid.next, s'.next, fin); }
  }

  /** An interpreted builtin whose result becomes the value of an id. */
  lemma PureDefines(P: Code, id: nat, b: CoreBuiltin, args: seq<nat>, xs: seq<Val>, s: State, fin: State, E: Env,
                    pc: int, R: seq<Val>, w: World, kinds: Kinds)
    returns (R': seq<Val>)
    requires Ready(P, s, fin, E, R, kinds) && BuiltinKinds(kinds) && Interpreted(P.M.host, b)
    requires var g := EmitDefine(id, b, args, s); Extends(g.s, fin) && At(P.instrs, pc, g.code)
    requires RegsHold(args, xs, R)
    ensures var g := EmitDefine(id, b, args, s); var r := CallBuiltin(P.M.host, b, xs);
      Enters(Stretch(P, pc, R, w, 1, 1, R'), if r.Some? then Some(E[id := r.value]) else None, s, g.s, fin)
  {
    assert RegsHold([], [], R);
    R' := DefineRuns(P, id, Builtin, Core(b), args, [], xs, [], s, fin, E, pc, R, w, kinds, 0);
  }

  lemma AssertRuns(P: Code, args: seq<nat>, xs: seq<Val>, s: State, fin: State, E: Env, pc: int, R: seq<Val>, w: World,
                   kinds: Kinds)
    requires Ready(P, s, fin, E, R, kinds) && BuiltinKinds(kinds)
    requires var g := EmitBuiltin(-1, AssertLeI64, args, s); g.s.funcs <= P.funcs && At(P.instrs, pc, g.code)
    requires RegsHold(args, xs, R)
    ensures var g := EmitBuiltin(-1, AssertLeI64, args, s); var r := CallBuiltin(P.M.host, AssertLeI64, xs);
      Enters(Stretch(P, pc, R, w, 1, 1, R), if r.Some? then Some(E) else None, s, g.s, fin)
  {
    EmitCallOk(-1, Builtin, Core(AssertLeI64), args, [], s, kinds);
    BuiltinRuns(P, pc, R, w, -1, AssertLeI64, args, xs, s, kinds);
  }

  lemma DimRuns(P: Code, dim: (nat, PrimExpr), shapeReg: nat, shape: Val, s: State, fin: State, E: Env, pc: int,
                R: seq<Val>, w: World, kinds: Kinds)
    returns (n: nat, R': seq<Val>)
    requires dim.1.PrimVar? && Ready(P, s, fin, E, R, kinds) && BuiltinKinds(kinds)
    requires shapeReg < s.next && shapeReg < |R| && R[shapeReg] == shape
    requires var g := GenDim(dim, shapeReg, s); Extends(g.s, fin) && At(P.instrs, pc, g.code)
    ensures var g := GenDim(dim, shapeReg, s);
      Enters(Stretch(P, pc, R, w, n, |g.code|, R'), EvalDim(P.M.host, dim, shape, E), s, g.s, fin)
  {
    hide Good, Loaded, Agree, Same, Steps, At, EmitDefine, EmitBuiltin, BoundMessage, CallBuiltin;
    var id := dim.1.id;
    var (k, s1) := ConstReg(Int(dim.0), s);
    var c := EmitDefine(id, GetShapeDim, [shapeReg, k], s1);
    var g := GenDim(dim, shapeReg, s);
    ReadyState(P, s, fin, E, R, kinds);
    ConstRegOk(Int(dim.0), s, kinds);
    DefineIs(id, GetShapeDim, [shapeReg, k], s1);
    EmitResultOk(Some(id), Builtin, Core(GetShapeDim), [shapeReg, k], [], s1, kinds);
    DimExtends(dim, shapeReg, s, fin, kinds);
    ConstRegHolds(P.M.host, Int(dim.0), s, fin, R, kinds);
    ReadyGood(P, s, s1, fin, E, R, kinds);
    assert RegsHold([shapeReg, k], [shape, VInt(dim.0)], R);
    var r := CallBuiltin(P.M.host, GetShapeDim, [shape, VInt(dim.0)]);
    if dim.1.upper.None? {
      R' := PureDefines(P, id, GetShapeDim, [shapeReg, k], [shape, VInt(dim.0)], s1, fin, E, pc, R, w, kinds);
      n := 1;
      EntersWiden(P, pc, R, w, 1, 1, R', EvalDim(P.M.host, dim, shape, E), s, s1, g.s, fin);
    } else {
      n, R' := BoundedDimRuns(P, dim, shapeReg, shape, s, s1, c, fin, E, pc, R, w, kinds);
    }
  }

  lemma EntersWiden(P: Code, pc: int, R: seq<Val>, w: World, n: nat, len: nat, R': seq<Val>, out: Option<Env>, s: State,
                    s1: State, s': State, fin: State)
    requires Enters(Stretch(P, pc, R, w, n, len, R'), out, s1, s', fin) && s.next <= s1.next
    ensures Enters(Stretch(P, pc, R, w, n, len, R'), out, s, s', fin)
  {
  }

  /** A dimension with an upper bound: read it, then check it. */
  lemma BoundedDimRuns(P: Code, dim: (nat, PrimExpr), shapeReg: nat, shape: Val, s: State, s1: State, c: Gen,
                       fin: State, E: Env, pc: int, R: seq<Val>, w: World, kinds: Kinds)
    returns (n: nat, R': seq<Val>)
    requires dim.1.PrimVar? && dim.1.upper.Some? && Ready(P, s, fin, E, R, kinds) && BuiltinKinds(kinds)
    requires var (k, st) := ConstReg(Int(dim.0), s);
      s1 == st && c == EmitDefine(dim.1.id, GetShapeDim, [shapeReg, k], s1) &&
        RegsHold([shapeReg, k], [shape, VInt(dim.0)], R)
    requires Ready(P, s1, fin, E, R, kinds)
    requires var g := GenDim(dim, shapeReg, s); Extends(g.s, fin) && At(P.instrs, pc, g.code)
    ensures var g := GenDim(dim, shapeReg, s);
      Enters(Stretch(P, pc, R, w, n, |g.code|, R'), EvalDim(P.M.host, dim, shape, E), s, g.s, fin)
  {
    hide Good, Loaded, Agree, Same, Steps, At, EmitDefine, EmitBuiltin, Decimal, CallBuiltin;
    var id, upper := dim.1.id, dim.1.upper.value;
    var k := ConstReg(Int(dim.0), s).0;
    var g := GenDim(dim, shapeReg, s);
    var msg := BoundMessage(dim.1.name, upper);
    var cs := [Int(upper), msg];
    var (rs, s2) := ConstRegs(cs, c.s);
    var a := EmitBuiltin(-1, AssertLeI64, [s1.next] + rs, s2);
    ReadyState(P, s, fin, E, R, kinds);
    DimExtends(dim, shapeReg, s, fin, kinds);
    AtParts(P.instrs, pc, c.code, a.code);
    CallLengths(id, GetShapeDim, [shapeReg, k], s1, [s1.next] + rs, s2);
    var R1 := PureDefines(P, id, GetShapeDim, [shapeReg, k], [shape, VInt(dim.0)], s1, fin, E, pc, R, w, kinds);
    n, R' := 1, R1;
    var r := CallBuiltin(P.M.host, GetShapeDim, [shape, VInt(dim.0)]);
    if r.Some? {
      var E1 := E[id := r.value];
      EntersWiden(P, pc, R, w, 1, 1, R1, Some(E1), s, s1, c.s, fin);
      ReadyOps(P, s1, c.s, fin, E, E1, R, R1, {id}, kinds);
      ReadyGood(P, c.s, s2, fin, E1, R1, kinds);
      BoundArgs(P, id, s1, c, cs, fin, E1, R1, shapeReg, k, kinds);
      AssertRuns(P, [s1.next] + rs, [r.value, VInt(upper), Load(P.M.host, msg)], s2, fin, E1, pc + 1, R1, w, kinds);
      AssertIgnoresMessage(P.M.host, r.value, VInt(upper), Load(P.M.host, msg));
      SameWider(R, R1, s.next, c.s.next, s2.next, fin);
      n, R' := 2, R1;
      EntersThen(P, pc, R, w, 1, 1, R1, 1, 1, R1, EvalDim(P.M.host, dim, shape, E), s, s2, g.s, fin);
    }
  }

  lemma CallLengths(id: nat, b: CoreBuiltin, args: seq<nat>, s: State, checked: seq<nat>, s': State)
    ensures |EmitDefine(id, b, args, s).code| == 1
    ensures var a := EmitBuiltin(-1, AssertLeI64, checked, s');
      |a.code| == 1 && a.s.next == s'.next && a.s.env == s'.env
  {
  }

  lemma SameWider(R: seq<Val>, R': seq<Val>, lo: nat, hi: nat, hi': nat, fin: State)
    requires |R| == |R'| && Same(R, R', lo, hi, fin) && hi <= hi'
    ensures Same(R, R', lo, hi', fin)
  {
  }

  /** The arguments of the bound check are in their registers. */
  lemma {:induction false} BoundArgs(P: Code, id: nat, s1: State, c: Gen, cs: seq<Const>, fin: State, E: Env,
                                     R: seq<Val>, shapeReg: nat, k: nat, kinds: Kinds)
    requires c == EmitDefine(id, GetShapeDim, [shapeReg, k], s1) && Ready(P, c.s, fin, E, R, kinds) && id in E
    requires Good(s1, kinds) && BuiltinKinds(kinds)
    requires |cs| == 2 && cs[0].Int? && cs[1].Str? && Extends(ConstRegs(cs, c.s).1, fin)
    ensures RegsHold([s1.next] + ConstRegs(cs, c.s).0, [E[id], Load(P.M.host, cs[0]), Load(P.M.host, cs[1])], R)
  {
    EmitResultOk(Some(id), Builtin, Core(GetShapeDim), [shapeReg, k], [], s1, kinds);
    ConstRegsHold(P.M.host, cs, c.s, fin, R, kinds);
    assert c.s.env[id] == s1.next;
  }

  lemma {:induction false} DimsRun(P: Code, dims: seq<(nat, PrimExpr)>, shapeReg: nat, shape: Val, s: State, fin: State,
                                   E: Env, pc: int, R: seq<Val>, w: World, kinds: Kinds)
    returns (n: nat, R': seq<Val>)
    requires (forall d <- dims :: d.1.PrimVar?) && Ready(P, s, fin, E, R, kinds) && BuiltinKinds(kinds)
    requires shapeReg < s.next && shapeReg < |R| && R[shapeReg] == shape
    requires var g := GenDims(dims, shapeReg, s); Extends(g.s, fin) && At(P.instrs, pc, g.code)
    ensures var g := GenDims(dims, shapeReg, s);
      Enters(Stretch(P, pc, R, w, n, |g.code|, R'), EvalDims(P.M.host, dims, shape, E), s, g.s, fin)
    decreases |dims|
  {
    hide Good, Loaded, Agree, Same, Steps, At, Extends, GenDim, EvalDim, EvalDims;
    n, R' := 0, R;
    ReadyState(P, s, fin, E, R, kinds);
    if dims == [] {
      EntersNow(P, pc, R, w, shape, s, fin, E, kinds);
    } else {
      var g := GenDim(dims[0], shapeReg, s);
      var gs := GenDims(dims[1..], shapeReg, g.s);
      GenDimOk(dims[0], shapeReg, s, kinds);
      GenDimsOk(dims[1..], shapeReg, g.s, kinds);
      ExtendsTrans(g.s, gs.s, fin);
      AtParts(P.instrs, pc, g.code, gs.code);
      var n1, R1 := DimRuns(P, dims[0], shapeReg, shape, s, fin, E, pc, R, w, kinds);
      n, R' := n1, R1;
      EvalDimsCons(P.M.host, dims, shape, E);
      var d := EvalDim(P.M.host, dims[0], shape, E);
      if d.Some? {
        ReadyOps(P, s, g.s, fin, E, d.value, R, R1, {dims[0].1.id}, kinds);
        SameAt(R, R1, s.next, g.s.next, fin, shapeReg);
        var n2, R2 := DimsRun(P, dims[1..], shapeReg, shape, g.s, fin, d.value, pc + |g.code|, R1, w, kinds);
        n, R' := n1 + n2, R2;
        EntersThen(P, pc, R, w, n1, |g.code|, R1, n2, |gs.code|, R2, EvalDims(P.M.host, dims[1..], shape, d.value), s,
                   g.s, gs.s, fin);
      }
    }
  }

  lemma {:induction false} EntersNow(P: Code, pc: int, R: seq<Val>, w: World, shape: Val, s: State, fin: State, E: Env,
                                     kinds: Kinds)
    requires Ready(P, s, fin, E, R, kinds)
    ensures Enters(Stretch(P, pc, R, w, 0, 0, R), Some(E), s, s, fin)
    ensures EvalDims(P.M.host, [], shape, E) == Some(E)
  {
  }

  // ---------------------------------------------------------------- entry code

  /** Reading one parameter's shape. */
  lemma ShapeOfRuns(P: Code, p: Param, s: State, fin: State, E: Env, pc: int, R: seq<Val>, w: World, kinds: Kinds)
    returns (R': seq<Val>)
    requires Ready(P, s, fin, E, R, kinds) && BuiltinKinds(kinds) && p.id in E
    requires var g := EmitFresh(ShapeOf, [Lookup(s, p.id)], s); Extends(g.s, fin) && At(P.instrs, pc, g.code)
    ensures var g := EmitFresh(ShapeOf, [Lookup(s, p.id)], s); var r := CallBuiltin(P.M.host, ShapeOf, [E[p.id]]);
      match r
      case Some(shape) =>
        Steps(P, Running(pc, R, w), 1) == Running(pc + 1, R', w) && |R'| == |R| && g.reg < |R'| && R'[g.reg] == shape &&
        Same(R, R', s.next, g.s.next, fin) && Ready(P, g.s, fin, E, R', kinds)
      case None => Steps(P, Running(pc, R, w), 1) == Failed(w)
  {
    hide Good, Loaded, Agree, Same, Steps, At, Extends, EmitFresh, CallBuiltin;
    var g := EmitFresh(ShapeOf, [Lookup(s, p.id)], s);
    ReadyState(P, s, fin, E, R, kinds);
    EmitFreshOk(ShapeOf, [Lookup(s, p.id)], s, kinds);
    AgreeAt(s, E, R, p.id);
    R' := FreshRuns(P, pc, R, w, ShapeOf, [Lookup(s, p.id)], [E[p.id]], s, fin, kinds);
    if CallBuiltin(P.M.host, ShapeOf, [E[p.id]]).Some? {
      ReadySame(P, s, g.s, fin, E, R, R', g.s.next, kinds);
    }
  }

  lemma {:induction false} SetupRuns(P: Code, params: seq<Param>, seen: set<nat>, s: State, fin: State, E: Env, pc: int,
                                     R: seq<Val>, w: World, kinds: Kinds)
    returns (n: nat, R': seq<Val>)
    requires Ready(P, s, fin, E, R, kinds) && BuiltinKinds(kinds) && forall p <- params :: p.id in E
    requires var g := GenSetup(params, seen, s); Extends(g.s, fin) && At(P.instrs, pc, g.code)
    ensures var g := GenSetup(params, seen, s);
      Enters(Stretch(P, pc, R, w, n, |g.code|, R'), EvalSetup(P.M.host, params, seen, E), s, g.s, fin)
    decreases |params|
  {
    hide Good, Loaded, Agree, Same, Steps, At, Extends, EvalSetup, GenSetup, GenDims, EvalDims, EmitFresh,
         CallBuiltin, Advances;
    n, R' := 0, R;
    var h := P.M.host;
    ReadyState(P, s, fin, E, R, kinds);
    if params == [] {
      GenSetupNone(seen, s);
      EvalSetupNone(h, seen, E);
      EntersNow(P, pc, R, w, VNull, s, fin, E, kinds);
    } else {
      var unseen := Unseen(params[0], seen);
      GenSetupCons(params, seen, s);
      EvalSetupCons(h, params, seen, E);
      if unseen == [] {
        n, R' := SetupRuns(P, params[1..], seen, s, fin, E, pc, R, w, kinds);
      } else {
        var sh := EmitFresh(ShapeOf, [Lookup(s, params[0].id)], s);
        var g := GenDims(unseen, sh.reg, sh.s);
        SetupExtends(params, seen, s, fin, kinds);
        var gs := GenSetup(params[1..], seen + DimIds(unseen), g.s);
        AtParts(P.instrs, pc, sh.code + g.code, gs.code);
        AtParts(P.instrs, pc, sh.code, g.code);
        var R1 := ShapeOfRuns(P, params[0], s, fin, E, pc, R, w, kinds);
        n, R' := 1, R1;
        var shape := CallBuiltin(h, ShapeOf, [E[params[0].id]]);
        if shape.Some? {
          n, R' := DimsAndRestRun(P, params, seen, shape.value, s, sh, fin, E, pc, R, R1, w, kinds);
        }
      }
    }
  }

  lemma {:induction false} DimsAndRestRun(P: Code, params: seq<Param>, seen: set<nat>, shape: Val, s: State, sh: RegGen,
                                          fin: State, E: Env, pc: int, R: seq<Val>, R1: seq<Val>, w: World,
                                          kinds: Kinds)
    returns (n: nat, R': seq<Val>)
    requires params != [] && Unseen(params[0], seen) != [] && Good(s, kinds) && BuiltinKinds(kinds)
    requires forall p <- params :: p.id in E
    requires sh == EmitFresh(ShapeOf, [Lookup(s, params[0].id)], s) && Ready(P, sh.s, fin, E, R1, kinds)
    requires Steps(P, Running(pc, R, w), 1) == Running(pc + 1, R1, w) && |R1| == |R|
    requires Same(R, R1, s.next, sh.s.next, fin)
    requires sh.reg < |R1| && R1[sh.reg] == shape && CallBuiltin(P.M.host, ShapeOf, [E[params[0].id]]) == Some(shape)
    requires var g := GenSetup(params, seen, s); Extends(g.s, fin) && At(P.instrs, pc, g.code)
    ensures var g := GenSetup(params, seen, s);
      Enters(Stretch(P, pc, R, w, n, |g.code|, R'), EvalSetup(P.M.host, params, seen, E), s, g.s, fin)
    decreases |params|, 0
  {
    hide Good, Loaded, Agree, Same, Steps, At, Extends, EvalSetup, GenSetup, GenDims, EvalDims, EmitFresh,
         CallBuiltin, Advances;
    var unseen := Unseen(params[0], seen);
    var g := GenDims(unseen, sh.reg, sh.s);
    var gs := GenSetup(params[1..], seen + DimIds(unseen), g.s);
    GenSetupCons(params, seen, s);
    EvalSetupCons(P.M.host, params, seen, E);
    SetupExtends(params, seen, s, fin, kinds);
    AtParts(P.instrs, pc, sh.code + g.code, gs.code);
    AtParts(P.instrs, pc, sh.code, g.code);
    var n1, R2 := DimsRun(P, unseen, sh.reg, shape, sh.s, fin, E, pc + 1, R1, w, kinds);
    var d := EvalDims(P.M.host, unseen, shape, E);
    EntersThen(P, pc, R, w, 1, 1, R1, n1, |g.code|, R2, d, s, sh.s, g.s, fin);
    n, R' := 1 + n1, R2;
    if d.Some? {
      ReadyOps(P, sh.s, g.s, fin, E, d.value, R1, R2, DimIds(unseen), kinds);
      EvalDimsKeys(P.M.host, unseen, shape, E);
      var n2, R3 := SetupRuns(P, params[1..], seen + DimIds(unseen), g.s, fin, d.value, pc + 1 + |g.code|, R2, w,
                              kinds);
      n, R' := 1 + n1 + n2, R3;
      EntersThen(P, pc, R, w, 1 + n1, 1 + |g.code|, R2, n2, |gs.code|, R3,
                 EvalSetup(P.M.host, params[1..], seen + DimIds(unseen), d.value), s, g.s, gs.s, fin);
    }
  }

  // ---------------------------------------------------------------- parameters and return

  function StartEnv(fn: Function, args: seq<Val>): Env
    requires |args| == |fn.params|
  {
    BindAll(map[], ParamIds(fn.params), args)
  }

  lemma StartReady(P: Code, fn: Function, funcs: seq<Entry>, consts: seq<Const>, args: seq<Val>, R: seq<Val>,
                   fin: State, kinds: Kinds)
    requires Distinct(ParamIds(fn.params)) && GoodPools(funcs, consts, kinds) && |args| == |fn.params|
    requires fin.funcs <= P.funcs && Loaded(P.M.host, R, fin) && |args| <= |R| && R[..|args|] == args
    ensures Ready(P, StartState(fn, funcs, consts), fin, StartEnv(fn, args), R, kinds)
    ensures StartEnv(fn, args).Keys == Ids(ParamIds(fn.params))
  {
    var s := State(0, map[], [], funcs, consts);
    var ids := ParamIds(fn.params);
    assert ids[..0] == [];
    BindParamsOk(fn.params, 0, s, kinds);
    BindAllKeys(map[], ids, args);
    var E := StartEnv(fn, args);
    var b := StartState(fn, funcs, consts);
    forall id | id in E ensures id in b.env && b.env[id] < |R| && R[b.env[id]] == E[id] {
      var k :| 0 <= k < |ids| && ids[k] == id;
      BindAllAt(map[], ids, args, k);
      assert R[k] == R[..|args|][k];
      assert fn.params[k].id == id;
    }
  }

  /** The final instruction hands over the returned value. */
  lemma {:induction false} ReturnRuns(P: Code, ret: seq<Value>, s: State, fin: State, E: Env, pc: int, R: seq<Val>,
                                      w: World, kinds: Kinds)
    requires Ready(P, s, fin, E, R, kinds) && OkValues(ret, E.Keys, kinds)
    requires var g := GenReturn(ret, s); Extends(g.s, fin) && At(P.instrs, pc, g.code)
    ensures ret == [] ==> Steps(P, Running(pc, R, w), 1) == Halted(VNull, w)
    ensures ret != [] ==>
      EvalValue(P.M.host, ret[0], E).Some? &&
      Steps(P, Running(pc, R, w), 1) == Halted(EvalValue(P.M.host, ret[0], E).value, w)
  {
    var g := GenReturn(ret, s);
    AtHead(P.instrs, pc, g.code[0]);
    StepsZero(P, Step(P, Running(pc, R, w)));
    if ret != [] {
      assert OkValue(ret[0], E.Keys, kinds);
      OkEval(P.M.host, ret[0], E);
      RegOfHolds(P, ret[0], s, fin, E, R, kinds);
    }
  }

  // ---------------------------------------------------------------- functions

  /** Running n steps of a function has the outcome of evaluating it. */
  ghost predicate Computes(P: Code, pc: int, R: seq<Val>, w: World, n: nat, out: Outcome<Val>, fuel: nat) {
    match out
    case Ok(v, w') => Steps(P, Running(pc, R, w), n) == Halted(v, w')
    case Raised(w') => Steps(P, Running(pc, R, w), n) == Failed(w')
    case OutOfFuel => n >= fuel && Steps(P, Running(pc, R, w), n).Running?
  }

  lemma BodyRuns(P: Code, fn: Function, s: State, fin: State, E: Env, pc: int, R: seq<Val>, w: World, kinds: Kinds,
                 fuel: nat)
    returns (n: nat)
    requires Ready(P, s, fin, E, R, kinds) && BuiltinKinds(kinds) && WfFunction(fn, kinds) && E.Keys == EntryScope(fn)
    requires var b := GenOps(fn.body, s); var r := GenReturn(fn.ret, b.s);
      Extends(r.s, fin) && At(P.instrs, pc, b.code + r.code)
    ensures Computes(P, pc, R, w, n, Returned(P.M.host, fn.ret, EvalOps(P.M, fn.body, E, w, fuel)), fuel)
  {
    hide Good, Loaded, Agree, Same, Steps, At, Extends, WfOps, GenOps, EvalOps, GenReturn, Advances;
    var b := GenOps(fn.body, s);
    var r := GenReturn(fn.ret, b.s);
    ReadyState(P, s, fin, E, R, kinds);
    GenOpsOk(fn.body, s, E.Keys, E.Keys, kinds);
    AdvancesGood(s, b.s, BindsOps(fn.body), kinds);
    OkValuesPlain(fn.ret, EntryScope(fn) + DefinesOps(fn.body), kinds);
    GenReturnOk(fn.ret, b.s, kinds);
    AdvancesGood(b.s, r.s, {}, kinds);
    ExtendsTrans(b.s, r.s, fin);
    AtParts(P.instrs, pc, b.code, r.code);
    var n1, R1 := OpsRun(P, fn.body, s, E.Keys, fin, E, pc, R, w, kinds, fuel);
    n := n1;
    var out := EvalOps(P.M, fn.body, E, w, fuel);
    if out.Ok? {
      EvalOpsKeys(P.M, fn.body, E, w, fuel, E.Keys, kinds);
      ReadyOps(P, s, b.s, fin, E, out.value, R, R1, BindsOps(fn.body), kinds);
      ReturnRuns(P, fn.ret, b.s, fin, out.value, pc + |b.code|, R1, out.w, kinds);
      StepsAdd(P, Running(pc, R, w), n1, 1);
      n := n1 + 1;
    }
  }

  /** Compiled code computes what the function means, for every fuel. */
  lemma FunctionRuns(P: Code, fn: Function, funcs: seq<Entry>, consts: seq<Const>, args: seq<Val>, R: seq<Val>,
                     w: World, kinds: Kinds, fuel: nat)
    returns (n: nat)
    requires WfFunction(fn, kinds) && BuiltinKinds(kinds) && GoodPools(funcs, consts, kinds) && |args| == |fn.params|
    requires var g := GenFunction(fn, funcs, consts);
      P.instrs == g.code && g.s.funcs <= P.funcs && Loaded(P.M.host, R, g.s)
    requires |args| <= |R| && R[..|args|] == args
    ensures Computes(P, 0, R, w, n, EvalFunction(P.M, fn, args, w, fuel), fuel)
  {
    hide Good, Loaded, Agree, Same, Steps, At, Extends, WfOps, GenOps, EvalOps, GenReturn, Advances, GenSetup,
         EvalSetup, BindParams, BindAll, Ready, Computes;
    var s := StartState(fn, funcs, consts);
    var E := StartEnv(fn, args);
    var setup := GenSetup(fn.params, {}, s);
    var b := GenOps(fn.body, setup.s);
    var r := GenReturn(fn.ret, b.s);
    var g := GenFunction(fn, funcs, consts);
    var fin := g.s;
    StartReady(P, fn, funcs, consts, args, R, fin, kinds);
    FunctionStates(fn, funcs, consts, kinds);
    FunctionCodeAt(P.instrs, setup.code, b.code, r.code);
    ParamsBound(fn, E);
    var n1, R1 := SetupRuns(P, fn.params, {}, s, fin, E, 0, R, w, kinds);
    n := n1;
    EvalSetupKeys(P.M.host, fn.params, {}, E);
    var E1 := EvalSetup(P.M.host, fn.params, {}, E);
    if E1.Some? {
      EnteredReady(P, s, setup.s, fin, E, E1.value, R, R1, kinds);
      var n2 := BodyRuns(P, fn, setup.s, fin, E1.value, |setup.code|, R1, w, kinds, fuel);
      n := n1 + n2;
      ComputesThen(P, R, w, n1, |setup.code|, R1, n2,
                   Returned(P.M.host, fn.ret, EvalOps(P.M, fn.body, E1.value, w, fuel)), fuel);
    } else {
      ComputesFailed(P, R, w, n1, fuel);
    }
  }

  lemma {:induction false} ComputesThen(P: Code, R: seq<Val>, w: World, n1: nat, pc: int, R1: seq<Val>, n2: nat,
                                        out: Outcome<Val>, fuel: nat)
    requires Steps(P, Running(0, R, w), n1) == Running(pc, R1, w) && Computes(P, pc, R1, w, n2, out, fuel)
    ensures Computes(P, 0, R, w, n1 + n2, out, fuel)
  {
    StepsAdd(P, Running(0, R, w), n1, n2);
  }

  lemma {:induction false} ComputesFailed(P: Code, R: seq<Val>, w: World, n: nat, fuel: nat)
    requires Steps(P, Running(0, R, w), n) == Failed(w)
    ensures Computes(P, 0, R, w, n, Raised(w), fuel)
  {
  }

  lemma EnteredReady(P: Code, s: State, s': State, fin: State, E: Env, E': Env, R: seq<Val>, R': seq<Val>, kinds: Kinds)
    requires Ready(P, s, fin, E, R, kinds) && Good(s', kinds)
    requires |R'| == |R| && Same(R, R', s.next, s'.next, fin) && Agree(s', E', R')
    ensures Ready(P, s', fin, E', R', kinds)
  {
    LoadedSame(P.M.host, R, R', s.next, s'.next, fin);
  }

  lemma ParamsBound(fn: Function, E: Env)
    requires E.Keys == Ids(ParamIds(fn.params))
    ensures forall p <- fn.params :: p.id in E
    ensures E.Keys + ShapeIds(fn.params) == EntryScope(fn)
  {
    forall p | p in fn.params ensures p.id in E {
      var k :| 0 <= k < |fn.params| && fn.params[k] == p;
      assert ParamIds(fn.params)[k] == p.id;
    }
  }

  lemma FunctionCodeAt(instrs: seq<Instr>, a: seq<Instr>, b: seq<Instr>, c: seq<Instr>)
    requires instrs == a + b + c
    ensures At(instrs, 0, a) && At(instrs, |a|, b + c)
  {
    assert a + b + c == a + (b + c);
  }

}

/** What compiling keeps: entry code, body and return extend a well-formed state, function after function. */
module ModuleForm {
  import opened Bytecode
  import opened Runtime
  import opened Builtins
  import opened PrimExprs
  import opened IRValues
  import opened MemoryIR
  import opened CodegenSpec
  import opened CodegenState
  import opened WellFormed

  function EntryScope(fn: Function): set<nat> {
    Ids(ParamIds(fn.params)) + ShapeIds(fn.params)
  }

  ghost predicate WfFunction(fn: Function, kinds: Kinds) {
    && Distinct(ParamIds(fn.params))
    && WfOps(fn.body, EntryScope(fn), EntryScope(fn), kinds)
    && |fn.ret| <= 1
    && OkValues(fn.ret, EntryScope(fn) + DefinesOps(fn.body), kinds)
  }

  lemma GenDimOk(dim: (nat, PrimExpr), shapeReg: nat, s: State, kinds: Kinds)
    requires dim.1.PrimVar? && Good(s, kinds) && BuiltinKinds(kinds)
    ensures Advances(s, GenDim(dim, shapeReg, s).s, {dim.1.id}, kinds)
  {
    var (k, s1) := ConstReg(Int(dim.0), s);
    var c := EmitDefine(dim.1.id, GetShapeDim, [shapeReg, k], s1);
    ConstRegOk(Int(dim.0), s, kinds);
    EmitResultOk(Some(dim.1.id), Builtin, Core(GetShapeDim), [shapeReg, k], [], s1, kinds);
    AdvancesTrans(s, s1, c.s, {}, {dim.1.id}, kinds);
    if dim.1.upper.Some? {
      var cs := [Int(dim.1.upper.value), BoundMessage(dim.1.name, dim.1.upper.value)];
      var (rs, s2) := ConstRegs(cs, c.s);
      ConstRegsOk(cs, c.s, kinds);
      EmitCallOk(-1, Builtin, Core(AssertLeI64), [s1.next] + rs, [], s2, kinds);
      AdvancesTrans(s, c.s, s2, {dim.1.id}, {}, kinds);
      AdvancesTrans(s, s2, GenDim(dim, shapeReg, s).s, {dim.1.id}, {}, kinds);
    }
  }

  lemma DimExtends(dim: (nat, PrimExpr), shapeReg: nat, s: State, fin: State, kinds: Kinds)
    requires dim.1.PrimVar? && Good(s, kinds) && BuiltinKinds(kinds) && Extends(GenDim(dim, shapeReg, s).s, fin)
    ensures var (k, s1) := ConstReg(Int(dim.0), s); var c := EmitDefine(dim.1.id, GetShapeDim, [shapeReg, k], s1);
      Good(c.s, kinds) && Extends(s1, fin) && Extends(c.s, fin) &&
      s.next <= s1.next < c.s.next <= GenDim(dim, shapeReg, s).s.next &&
      Advances(s1, c.s, {dim.1.id}, kinds)
    ensures dim.1.upper.Some? ==>
      var (k, s1) := ConstReg(Int(dim.0), s); var c := EmitDefine(dim.1.id, GetShapeDim, [shapeReg, k], s1);
      var cs := [Int(dim.1.upper.value), BoundMessage(dim.1.name, dim.1.upper.value)];
      Extends(ConstRegs(cs, c.s).1, fin) && |ConstRegs(cs, c.s).0| == 2 &&
      Advances(c.s, ConstRegs(cs, c.s).1, {}, kinds) &&
      ConstRegs(cs, c.s).1.env == c.s.env && ConstRegs(cs, c.s).1.next == GenDim(dim, shapeReg, s).s.next
  {
    hide Good, Extends;
    var (k, s1) := ConstReg(Int(dim.0), s);
    var c := EmitDefine(dim.1.id, GetShapeDim, [shapeReg, k], s1);
    ConstRegOk(Int(dim.0), s, kinds);
    EmitResultOk(Some(dim.1.id), Builtin, Core(GetShapeDim), [shapeReg, k], [], s1, kinds);
    if dim.1.upper.Some? {
      var cs := [Int(dim.1.upper.value), BoundMessage(dim.1.name, dim.1.upper.value)];
      var (rs, s2) := ConstRegs(cs, c.s);
      ConstRegsOk(cs, c.s, kinds);
      EmitCallOk(-1, Builtin, Core(AssertLeI64), [s1.next] + rs, [], s2, kinds);
      ExtendsTrans(s2, GenDim(dim, shapeReg, s).s, fin);
      ExtendsTrans(c.s, s2, fin);
    }
    ExtendsTrans(s1, c.s, fin);
  }

  lemma {:induction false} GenDimsOk(dims: seq<(nat, PrimExpr)>, shapeReg: nat, s: State, kinds: Kinds)
    requires (forall d <- dims :: d.1.PrimVar?) && Good(s, kinds) && BuiltinKinds(kinds)
    ensures Advances(s, GenDims(dims, shapeReg, s).s, DimIds(dims), kinds)
    decreases |dims|
  {
    hide Good, Extends, GenDim;
    if dims == [] {
      AdvancesNone(s, kinds);
    } else {
      var g := GenDim(dims[0], shapeReg, s);
      GenDimOk(dims[0], shapeReg, s, kinds);
      GenDimsOk(dims[1..], shapeReg, g.s, kinds);
      AdvancesTrans(s, g.s, GenDims(dims, shapeReg, s).s, {dims[0].1.id}, DimIds(dims[1..]), kinds);
      DimIdsCons(dims);
    }
  }

  lemma {:induction false} GenSetupCons(params: seq<Param>, seen: set<nat>, s: State)
    requires params != []
    ensures var unseen := Unseen(params[0], seen);
      GenSetup(params, seen, s) ==
      if unseen == [] then GenSetup(params[1..], seen, s)
      else
        var sh := EmitFresh(ShapeOf, [Lookup(s, params[0].id)], s);
        var g := GenDims(unseen, sh.reg, sh.s);
        var gs := GenSetup(params[1..], seen + DimIds(unseen), g.s);
        Gen(sh.code + g.code + gs.code, gs.s)
  {
  }

  lemma {:induction false} GenSetupNone(seen: set<nat>, s: State)
    ensures GenSetup([], seen, s) == Gen([], s)
  {
  }

  lemma ShapeOfParam(params: seq<Param>, seen: set<nat>, s: State, kinds: Kinds)
    requires params != [] && Good(s, kinds) && BuiltinKinds(kinds)
    ensures var sh := EmitFresh(ShapeOf, [Lookup(s, params[0].id)], s);
      var g := GenDims(Unseen(params[0], seen), sh.reg, sh.s);
      Advances(s, sh.s, {}, kinds) && Advances(sh.s, g.s, DimIds(Unseen(params[0], seen)), kinds) &&
      Advances(s, g.s, DimIds(Unseen(params[0], seen)), kinds) && sh.s.env == s.env && sh.reg == s.next < sh.s.next &&
        |sh.code| == 1
  {
    hide Good, Extends, GenDims, Unseen, EmitFresh;
    var sh := EmitFresh(ShapeOf, [Lookup(s, params[0].id)], s);
    EmitFreshOk(ShapeOf, [Lookup(s, params[0].id)], s, kinds);
    GenDimsOk(Unseen(params[0], seen), sh.reg, sh.s, kinds);
    AdvancesTrans(s, sh.s, GenDims(Unseen(params[0], seen), sh.reg, sh.s).s, {}, DimIds(Unseen(params[0], seen)),
                  kinds);
  }

  lemma {:induction false} GenSetupOk(params: seq<Param>, seen: set<nat>, s: State, kinds: Kinds)
    requires Good(s, kinds) && BuiltinKinds(kinds)
    ensures exists ids :: Advances(s, GenSetup(params, seen, s).s, ids, kinds)
    decreases |params|
  {
    hide Good, Extends, GenSetup, GenDims, EmitFresh, Advances;
    if params == [] {
      GenSetupNone(seen, s);
      AdvancesNone(s, kinds);
    } else {
      var unseen := Unseen(params[0], seen);
      GenSetupCons(params, seen, s);
      if unseen == [] {
        GenSetupOk(params[1..], seen, s, kinds);
      } else {
        var sh := EmitFresh(ShapeOf, [Lookup(s, params[0].id)], s);
        var g := GenDims(unseen, sh.reg, sh.s);
        ShapeOfParam(params, seen, s, kinds);
        AdvancesGood(s, g.s, DimIds(unseen), kinds);
        GenSetupOk(params[1..], seen + DimIds(unseen), g.s, kinds);
        var ids :| Advances(g.s, GenSetup(params[1..], seen + DimIds(unseen), g.s).s, ids, kinds);
        AdvancesTrans(s, g.s, GenSetup(params, seen, s).s, DimIds(unseen), ids, kinds);
      }
    }
  }

  lemma {:induction false} SetupExtends(params: seq<Param>, seen: set<nat>, s: State, fin: State, kinds: Kinds)
    requires params != [] && Unseen(params[0], seen) != [] && Good(s, kinds) && BuiltinKinds(kinds)
    requires Extends(GenSetup(params, seen, s).s, fin)
    ensures var unseen := Unseen(params[0], seen);
      var sh := EmitFresh(ShapeOf, [Lookup(s, params[0].id)], s); var g := GenDims(unseen, sh.reg, sh.s);
      var gs := GenSetup(params[1..], seen + DimIds(unseen), g.s);
      Extends(sh.s, fin) && Extends(g.s, fin) && Good(sh.s, kinds) && Good(g.s, kinds) && |sh.code| == 1 &&
      sh.reg == s.next &&
      s.next < sh.s.next <= g.s.next <= gs.s.next && Advances(sh.s, g.s, DimIds(unseen), kinds)
  {
    hide Good, Extends, GenSetup, GenDims, EmitFresh, Advances;
    var unseen := Unseen(params[0], seen);
    var sh := EmitFresh(ShapeOf, [Lookup(s, params[0].id)], s);
    var g := GenDims(unseen, sh.reg, sh.s);
    var gs := GenSetup(params[1..], seen + DimIds(unseen), g.s);
    ShapeOfParam(params, seen, s, kinds);
    AdvancesGood(s, sh.s, {}, kinds);
    AdvancesGood(sh.s, g.s, DimIds(unseen), kinds);
    GenSetupOk(params[1..], seen + DimIds(unseen), g.s, kinds);
    var ids :| Advances(g.s, gs.s, ids, kinds);
    AdvancesGood(g.s, gs.s, ids, kinds);
    GenSetupCons(params, seen, s);
    ExtendsTrans(g.s, gs.s, fin);
    ExtendsTrans(sh.s, g.s, fin);
  }

  lemma {:induction false} BindParamsOk(params: seq<Param>, k: nat, s: State, kinds: Kinds)
    requires k <= |params| && Distinct(ParamIds(params)) && Good(s, kinds) && s.next == k && s.inits == []
    requires s.env.Keys == Ids(ParamIds(params)[..k])
    requires forall j :: 0 <= j < k ==> params[j].id in s.env && s.env[params[j].id] == j
    ensures var b := BindParams(params, k, s);
      Good(b, kinds) && b.next == |params| && b.inits == [] && b.funcs == s.funcs && b.consts == s.consts &&
      b.env.Keys == Ids(ParamIds(params)) && forall j :: 0 <= j < |params| ==>
        params[j].id in b.env && b.env[params[j].id] == j
    decreases |params| - k
  {
    var ids := ParamIds(params);
    if k == |params| {
      assert ids[..k] == ids;
    } else {
      assert ids[k] == params[k].id;
      assert ids[..k + 1] == ids[..k] + [ids[k]];
      assert forall j :: 0 <= j < k ==> ids[j] != ids[k];
      BindParamsOk(params, k + 1, BindReg(s, params[k].id, k).(next := k + 1), kinds);
    }
  }

  /** The pools a function is compiled into are themselves well formed. */
  ghost predicate GoodPools(funcs: seq<Entry>, consts: seq<Const>, kinds: Kinds) {
    UniqueNames(funcs) && (forall k :: 0 <= k < |funcs| ==> kinds.of(funcs[k].name) == funcs[k].kind) &&
      forall c <- consts :: Plain(c, kinds)
  }

  function StartState(fn: Function, funcs: seq<Entry>, consts: seq<Const>): State {
    BindParams(fn.params, 0, State(0, map[], [], funcs, consts))
  }

  lemma GenReturnOk(ret: seq<Value>, s: State, kinds: Kinds)
    requires Good(s, kinds) && PlainValues(ret, kinds)
    ensures Advances(s, GenReturn(ret, s).s, {}, kinds) && |GenReturn(ret, s).code| == 1
  {
    if ret != [] { RegOfOk(ret[0], s, kinds); }
  }

  /** The compiler states on the way through a function. */
  lemma FunctionStates(fn: Function, funcs: seq<Entry>, consts: seq<Const>, kinds: Kinds)
    requires WfFunction(fn, kinds) && BuiltinKinds(kinds) && GoodPools(funcs, consts, kinds)
    ensures var s := StartState(fn, funcs, consts); var setup := GenSetup(fn.params, {}, s);
      var b := GenOps(fn.body, setup.s); var fin := GenFunction(fn, funcs, consts).s;
      Good(s, kinds) && s.next == |fn.params| && s.inits == [] && s.funcs == funcs && s.consts == consts &&
      Good(setup.s, kinds) && Good(b.s, kinds) && Good(fin, kinds) &&
      Extends(s, fin) && Extends(setup.s, fin) && Extends(b.s, fin) && Extends(fin, fin)
  {
    hide Good, Extends, WfOps, GenOps, GenReturn, Advances, GenSetup, BindParams;
    var s := StartState(fn, funcs, consts);
    var setup := GenSetup(fn.params, {}, s);
    var b := GenOps(fn.body, setup.s);
    var r := GenReturn(fn.ret, b.s);
    StartGood(fn, funcs, consts, kinds);
    GenSetupOk(fn.params, {}, s, kinds);
    var ids :| Advances(s, setup.s, ids, kinds);
    AdvancesGood(s, setup.s, ids, kinds);
    GenOpsOk(fn.body, setup.s, EntryScope(fn), EntryScope(fn), kinds);
    AdvancesGood(setup.s, b.s, BindsOps(fn.body), kinds);
    OkValuesPlain(fn.ret, EntryScope(fn) + DefinesOps(fn.body), kinds);
    GenReturnOk(fn.ret, b.s, kinds);
    AdvancesGood(b.s, r.s, {}, kinds);
    ExtendsTrans(setup.s, b.s, r.s);
    ExtendsTrans(s, setup.s, r.s);
    ExtendsRefl(r.s);
  }

  lemma StartGood(fn: Function, funcs: seq<Entry>, consts: seq<Const>, kinds: Kinds)
    requires Distinct(ParamIds(fn.params)) && GoodPools(funcs, consts, kinds)
    ensures var s := StartState(fn, funcs, consts);
      Good(s, kinds) && s.next == |fn.params| && s.inits == [] && s.funcs == funcs && s.consts == consts
  {
    assert ParamIds(fn.params)[..0] == [];
    BindParamsOk(fn.params, 0, State(0, map[], [], funcs, consts), kinds);
  }

  lemma ExtendsRefl(s: State)
    ensures Extends(s, s)
  {
  }

  // ---------------------------------------------------------------- modules

  datatype Named = Fn(name: string, fn: Function)

  const EMPTY: Program := Executable([], [], [])

  /** Functions are compiled one after another into the same executable. */
  function CompileModule(fns: seq<Named>): Program {
    if fns == [] then EMPTY
    else
      var last := fns[|fns| - 1];
      AddFunction(last.name, last.fn, CompileModule(fns[..|fns| - 1]))
  }

  /** Well-formed functions under distinct names that no foreign callee shares. */
  ghost predicate WfModule(fns: seq<Named>, kinds: Kinds) {
    && BuiltinKinds(kinds)
    && (forall k :: 0 <= k < |fns| ==> WfFunction(fns[k].fn, kinds) && kinds.of(Builtins.Named(fns[k].name)) == VMFunc)
    && (forall i, j :: 0 <= i < j < |fns| ==> fns[i].name != fns[j].name)
  }

  /** Only module functions are VM functions. */
  ghost predicate GoodProgram(fns: seq<Named>, exe: Program, kinds: Kinds) {
    && GoodPools(exe.funcs, exe.consts, kinds)
    && (forall e <- exe.funcs :: e.kind == VMFunc ==>
        exists k :: 0 <= k < |fns| && e.name == Builtins.Named(fns[k].name))
  }

  /** One executable contains another: compiling more never disturbs what is there. */
  predicate Contains(exe: Program, part: Program) {
    part.funcs <= exe.funcs && part.instrs <= exe.instrs && part.consts <= exe.consts
  }

  lemma AddFunctionOk(f: Named, fns: seq<Named>, exe: Program, kinds: Kinds)
    requires WfFunction(f.fn, kinds) && BuiltinKinds(kinds) && kinds.of(Builtins.Named(f.name)) == VMFunc
    requires GoodProgram(fns, exe, kinds)
    requires forall g <- fns :: g.name != f.name
    ensures var exe' := AddFunction(f.name, f.fn, exe);
      Contains(exe', exe) && GoodProgram(fns + [f], exe', kinds) && |exe'.funcs| > 0 &&
      exe'.funcs[|exe'.funcs| - 1].name == Builtins.Named(f.name)
  {
    hide WfFunction, GenFunction, StartState, BuiltinKinds, Plain, Ascending;
    var g := GenFunction(f.fn, exe.funcs, exe.consts);
    var exe' := AddFunction(f.name, f.fn, exe);
    FunctionStates(f.fn, exe.funcs, exe.consts, kinds);
    assert Extends(StartState(f.fn, exe.funcs, exe.consts), g.s);
    forall e | e in g.s.funcs && e.kind == VMFunc
      ensures exists k :: 0 <= k < |fns| && e.name == Builtins.Named(fns[k].name)
    {
      var j :| 0 <= j < |g.s.funcs| && g.s.funcs[j] == e;
      assert j < |exe.funcs|;
      assert exe.funcs[j] == e;
    }
    forall e | e in exe'.funcs && e.kind == VMFunc
      ensures exists k :: 0 <= k < |fns + [f]| && e.name == Builtins.Named((fns + [f])[k].name)
    {
      if e in g.s.funcs {
        var k :| 0 <= k < |fns| && e.name == Builtins.Named(fns[k].name);
        assert (fns + [f])[k] == fns[k];
      } else {
        assert (fns + [f])[|fns|] == f;
      }
    }
    forall i, j | 0 <= i < j < |exe'.funcs| ensures exe'.funcs[i].name != exe'.funcs[j].name {
      if j == |g.s.funcs| {
        assert exe'.funcs[i] == g.s.funcs[i] && exe'.funcs[i] in g.s.funcs;
        assert kinds.of(g.s.funcs[i].name) == g.s.funcs[i].kind;
      }
    }
  }

  lemma WfModulePrefix(fns: seq<Named>, kinds: Kinds)
    requires fns != [] && WfModule(fns, kinds)
    ensures WfModule(fns[..|fns| - 1], kinds)
    ensures forall g <- fns[..|fns| - 1] :: g.name != fns[|fns| - 1].name
  {
  }

  lemma {:induction false} CompileModuleOk(fns: seq<Named>, kinds: Kinds)
    requires WfModule(fns, kinds)
    ensures GoodProgram(fns, CompileModule(fns), kinds)
    decreases |fns|
  {
    hide WfFunction, AddFunction, GoodProgram;
    if fns == [] {
      EmptyIsGood(kinds);
    } else {
      var init := fns[..|fns| - 1];
      WfModulePrefix(fns, kinds);
      CompileModuleOk(init, kinds);
      AddFunctionOk(fns[|fns| - 1], init, CompileModule(init), kinds);
      assert init + [fns[|fns| - 1]] == fns;
    }
  }

  lemma EmptyIsGood(kinds: Kinds)
    ensures GoodProgram([], EMPTY, kinds)
  {
  }

  /** The module compiled so far stays inside what is compiled later. */
  lemma {:induction false} CompilePrefix(fns: seq<Named>, k: nat, kinds: Kinds)
    requires WfModule(fns, kinds) && k <= |fns|
    ensures Contains(CompileModule(fns), CompileModule(fns[..k]))
    decreases |fns|
  {
    hide WfFunction, AddFunction, GoodProgram;
    if k == |fns| {
      assert fns[..k] == fns;
    } else {
      var init := fns[..|fns| - 1];
      WfModulePrefix(fns, kinds);
      CompileModuleOk(init, kinds);
      AddFunctionOk(fns[|fns| - 1], init, CompileModule(init), kinds);
      CompilePrefix(init, k, kinds);
      assert init[..k] == fns[..k];
    }
  }

  lemma PrefixWf(fns: seq<Named>, k: nat, kinds: Kinds)
    requires WfModule(fns, kinds) && k < |fns|
    ensures WfModule(fns[..k], kinds) && WfFunction(fns[k].fn, kinds) && kinds.of(Builtins.Named(fns[k].name)) == VMFunc
    ensures forall g <- fns[..k] :: g.name != fns[k].name
  {
  }

  lemma {:induction false} FoundAt(funcs: seq<Entry>, i: nat)
    requires i < |funcs| && UniqueNames(funcs)
    ensures FindFunc(funcs, funcs[i].name, 0) == i
  {
    var f := FindFunc(funcs, funcs[i].name, 0);
    assert funcs[f].name == funcs[i].name;
  }
}

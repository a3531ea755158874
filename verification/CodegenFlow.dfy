/** Emitted code is statically well formed (python/devproc2/compiler/passes/vm_codegen.py). */
module CodegenFlow {
  import opened Bytecode
  import opened Runtime
  import opened Builtins
  import opened PrimExprs
  import opened IRValues
  import opened MemoryIR
  import opened CodegenSpec
  import opened CodegenState
  import opened WellFormed
  import opened CodeFlow
  import opened ModuleForm
  import PC = ModuleForm

  // ---------------------------------------------------------------- the frame of the finished function

  function ConstsOf(F: State): set<int> {
    set ci <- F.inits :: ci.reg
  }

  function RoomOf(F: State): Room {
    Room(ConstsOf(F), F.next, |F.funcs|)
  }

  /** Constants and everything in scope are in registers of D. */
  ghost predicate Available(F: State, s: State, scope: set<nat>, D: set<int>) {
    && ConstsOf(F) <= D && InFrame(RoomOf(F), D)
    && forall id <- scope :: id in s.env && s.env[id] in D
  }

  /** F is the final state of a compilation that passes through t. */
  ghost predicate Ends(s: State, t: State, F: State, kinds: Kinds) {
    Good(s, kinds) && Extends(t, F) && BuiltinKinds(kinds)
  }

  lemma EndsBefore(s: State, mid: State, t: State, F: State, ids: set<nat>, more: set<nat>, kinds: Kinds)
    requires Ends(s, t, F, kinds) && Advances(s, mid, ids, kinds) && Advances(mid, t, more, kinds)
    ensures Ends(s, mid, F, kinds) && Ends(mid, t, F, kinds)
  {
    ExtendsTrans(mid, t, F);
  }

  lemma AvailableMore(F: State, s: State, scope: set<nat>, D: set<int>, s': State, D': set<int>)
    requires Available(F, s, scope, D) && D <= D' && InFrame(RoomOf(F), D')
    requires forall id <- scope :: id in s'.env && s'.env[id] == s.env[id]
    ensures Available(F, s', scope, D')
  {
  }

  lemma ConstAvailable(c: Const, s: State, F: State, kinds: Kinds)
    requires Ends(s, ConstReg(c, s).1, F, kinds) && Plain(c, kinds)
    ensures ConstReg(c, s).0 in ConstsOf(F)
  {
    ConstRegOk(c, s, kinds);
    var (r, s') := ConstReg(c, s);
    assert s'.inits[|s.inits|] == F.inits[|s.inits|];
    assert F.inits[|s.inits|] in F.inits;
  }

  lemma RegAvailable(v: Value, s: State, scope: set<nat>, F: State, D: set<int>, kinds: Kinds)
    requires OkValue(v, scope, kinds) && Available(F, s, scope, D) && Ends(s, RegOf(v, s).1, F, kinds)
    ensures RegOf(v, s).0 in D
  {
    if v.Imm? { ConstAvailable(v.c, s, F, kinds); }
  }

  lemma BoundAvailable(v: Value, s: State, scope: set<nat>, F: State, D: set<int>, kinds: Kinds)
    requires OkValue(v, scope, kinds) && IntegralBound(v) && Available(F, s, scope, D)
    requires Ends(s, BoundReg(v, s).1, F, kinds)
    ensures BoundReg(v, s).0 in D
  {
    if v.Imm? { ConstAvailable(Int(RangeConst(v.c).value), s, F, kinds); }
      else { RegAvailable(v, s, scope, F, D, kinds); }
  }

  /** Registers allocated without constants in between hold no constant. */
  lemma NotConst(r: int, s: State, t: State, F: State, kinds: Kinds)
    requires Good(s, kinds) && Extends(t, F) && t.inits == s.inits && s.next <= r < t.next
    ensures r !in ConstsOf(F) && r < F.next
  {
    forall ci | ci in F.inits ensures ci.reg != r {
      var k :| 0 <= k < |F.inits| && F.inits[k] == ci;
      if k < |s.inits| { assert F.inits[k] == s.inits[k]; }
    }
  }

  predicate AllIn(regs: seq<nat>, D: set<int>) {
    forall r <- regs :: r in D
  }

  function Regs(regs: seq<nat>): set<int> {
    set r <- regs :: r
  }

  lemma RegsCons(r: nat, rs: seq<nat>)
    ensures Regs([r] + rs) == {r as int} + Regs(rs)
  {
    forall x: int ensures x in Regs([r] + rs) <==> x == r || x in Regs(rs) {
      if x in Regs(rs) { var y: nat :| y in rs && y == x; assert y in [r] + rs; }
      if x == r { assert r in [r] + rs; }
    }
  }

  /** From D on, running the code adds these registers, and registers that hold these ids. */
  ghost predicate DefiningRegs(F: State, code: seq<Instr>, t: State, ids: set<nat>, regs: seq<nat>, D: set<int>) {
    exists D' :: D <= D' && Flows(RoomOf(F), code, D, D') && InFrame(RoomOf(F), D') && AllIn(regs, D') &&
      forall id <- ids :: id in t.env && t.env[id] in D'
  }

  /** From D on, running the code adds registers that hold these ids. */
  ghost predicate Defining(F: State, code: seq<Instr>, t: State, ids: set<nat>, D: set<int>) {
    exists D' :: D <= D' && Flows(RoomOf(F), code, D, D') && InFrame(RoomOf(F), D') && forall id <- ids ::
      id in t.env && t.env[id] in D'
  }

  // ---------------------------------------------------------------- calls

  lemma CallFlows(dst: int, kind: CalleeKind, name: Name, args: seq<nat>, launch: seq<nat>, s: State, F: State,
                  D: set<int>, kinds: Kinds)
    requires Ends(s, EmitCall(dst, kind, name, args, launch, s).s, F, kinds) && kinds.of(name) == kind
    requires AllIn(args, D) && AllIn(launch, D) && InFrame(RoomOf(F), D)
    requires dst >= 0 ==> dst < F.next && dst !in ConstsOf(F)
    ensures Flows(RoomOf(F), EmitCall(dst, kind, name, args, launch, s).code, D, D + if dst >= 0 then {dst} else {})
  {
    var g := EmitCall(dst, kind, name, args, launch, s);
    InternFuncOk(s.funcs, name, kind, kinds);
    var i := g.code[0];
    assert |g.s.funcs| <= |F.funcs|;
    assert Uses(i) <= D;
    FlowsOne(RoomOf(F), i, D);
    assert g.code == [i];
  }

  lemma FreshFlows(b: CoreBuiltin, args: seq<nat>, s: State, F: State, D: set<int>, kinds: Kinds)
    requires Ends(s, EmitFresh(b, args, s).s, F, kinds) && AllIn(args, D) && InFrame(RoomOf(F), D)
    ensures var g := EmitFresh(b, args, s); Flows(RoomOf(F), g.code, D, D + {g.reg}) && InFrame(RoomOf(F), D + {g.reg})
  {
    var g := EmitFresh(b, args, s);
    EmitFreshOk(b, args, s, kinds);
    NotConst(g.reg, s, g.s, F, kinds);
    CallFlows(s.next, Builtin, Core(b), args, [], Alloc(s), F, D, kinds);
  }

  /** The call that ends an op. */
  lemma ResultFlows(res: Option<nat>, kind: CalleeKind, name: Name, args: seq<nat>, launch: seq<nat>, s: State,
                    F: State, D: set<int>, kinds: Kinds)
    requires Ends(s, EmitResult(res, kind, name, args, launch, s).s, F, kinds) && kinds.of(name) == kind
    requires kind != VMFunc
    requires AllIn(args, D) && AllIn(launch, D) && InFrame(RoomOf(F), D)
    ensures var g := EmitResult(res, kind, name, args, launch, s);
      var D' := D + if res.Some? then {s.next} else {};
      Flows(RoomOf(F), g.code, D, D') && InFrame(RoomOf(F), D')
  {
    var g := EmitResult(res, kind, name, args, launch, s);
    EmitResultOk(res, kind, name, args, launch, s, kinds);
    if res.Some? {
      NotConst(s.next, s, g.s, F, kinds);
      AllocBindOk(s, res.value, kinds);
      CallFlows(s.next, kind, name, args, launch, AllocBind(s, res.value), F, D, kinds);
    } else {
      CallFlows(-1, kind, name, args, launch, s, F, D, kinds);
    }
  }

  // ---------------------------------------------------------------- symbolic expressions

  lemma {:induction false} MaterializeFlows(e: PrimExpr, s: State, scope: set<nat>, F: State, D: set<int>, kinds: Kinds)
    requires BoundPrim(e, scope) && Available(F, s, scope, D) && Ends(s, Materialize(e, s).s, F, kinds)
    ensures var g := Materialize(e, s); Flows(RoomOf(F), g.code, D, D + {g.reg}) && InFrame(RoomOf(F), D + {g.reg})
    decreases e
  {
    hide Good, Extends, Flows, Advances;
    var g, X := Materialize(e, s), RoomOf(F);
    FlowsNone(X, D);
    match e
    case IntImm(i) =>
      ConstAvailable(Int(i), s, F, kinds);
      assert D + {g.reg} == D;
    case PrimVar(_, _, _) => assert D + {g.reg} == D;
    case Bin(op, l, r) =>
      var gl := Materialize(l, s);
      var gr := Materialize(r, gl.s);
      MaterializeOk(l, s, kinds);
      AdvancesGood(s, gl.s, {}, kinds);
      MaterializeOk(r, gl.s, kinds);
      AdvancesGood(gl.s, gr.s, {}, kinds);
      EmitFreshOk(BuiltinOf(op).value, [gl.reg, gr.reg], gr.s, kinds);
      AdvancesTrans(gl.s, gr.s, g.s, {}, {}, kinds);
      EndsBefore(s, gl.s, g.s, F, {}, {}, kinds);
      EndsBefore(gl.s, gr.s, g.s, F, {}, {}, kinds);
      MaterializeFlows(l, s, scope, F, D, kinds);
      var D1 := D + {gl.reg};
      AvailableMore(F, s, scope, D, gl.s, D1);
      MaterializeFlows(r, gl.s, scope, F, D1, kinds);
      var D2 := D1 + {gr.reg};
      FreshFlows(BuiltinOf(op).value, [gl.reg, gr.reg], gr.s, F, D2, kinds);
      FlowsSeq(X, gl.code, gr.code, D, D1, D2);
      FlowsSeq(X, gl.code + gr.code, EmitFresh(BuiltinOf(op).value, [gl.reg, gr.reg], gr.s).code, D, D2, D2 + {g.reg});
      FlowsWeaken(X, g.code, D, D2 + {g.reg}, D, D + {g.reg});
  }

  lemma {:induction false} MaterializeAllFlows(es: seq<PrimExpr>, s: State, scope: set<nat>, F: State, D: set<int>,
                                               kinds: Kinds)
    requires BoundPrims(es, scope) && Available(F, s, scope, D) && Ends(s, MaterializeAll(es, s).s, F, kinds)
    ensures var g := MaterializeAll(es, s);
      Flows(RoomOf(F), g.code, D, D + Regs(g.regs)) && InFrame(RoomOf(F), D + Regs(g.regs))
    decreases |es|
  {
    hide Good, Extends, Flows, Advances;
    var all, X := MaterializeAll(es, s), RoomOf(F);
    if es == [] {
      FlowsNone(X, D);
      assert D + Regs([]) == D;
    } else {
      var g := Materialize(es[0], s);
      var gs := MaterializeAll(es[1..], g.s);
      MaterializeOk(es[0], s, kinds);
      AdvancesGood(s, g.s, {}, kinds);
      MaterializeAllOk(es[1..], g.s, kinds);
      EndsBefore(s, g.s, all.s, F, {}, {}, kinds);
      MaterializeFlows(es[0], s, scope, F, D, kinds);
      var D1 := D + {g.reg};
      AvailableMore(F, s, scope, D, g.s, D1);
      MaterializeAllFlows(es[1..], g.s, scope, F, D1, kinds);
      FlowsSeq(X, g.code, gs.code, D, D1, D1 + Regs(gs.regs));
      RegsCons(g.reg, gs.regs);
      assert D1 + Regs(gs.regs) == D + Regs([g.reg] + gs.regs);
    }
  }

  lemma ShapeFlows(shape: seq<PrimExpr>, s: State, scope: set<nat>, F: State, D: set<int>, kinds: Kinds)
    requires BoundPrims(shape, scope) && Available(F, s, scope, D) && Ends(s, GenShape(shape, s).s, F, kinds)
    ensures var g := GenShape(shape, s); Flows(RoomOf(F), g.code, D, D + {g.reg}) && InFrame(RoomOf(F), D + {g.reg})
  {
    hide Good, Extends, Flows, Advances;
    var all, g, X := GenShape(shape, s), MaterializeAll(shape, s), RoomOf(F);
    MaterializeAllOk(shape, s, kinds);
    AdvancesGood(s, g.s, {}, kinds);
    EmitFreshOk(MakeShape, g.regs, g.s, kinds);
    EndsBefore(s, g.s, all.s, F, {}, {}, kinds);
    MaterializeAllFlows(shape, s, scope, F, D, kinds);
    var D1 := D + Regs(g.regs);
    FreshFlows(MakeShape, g.regs, g.s, F, D1, kinds);
    FlowsSeq(X, g.code, EmitFresh(MakeShape, g.regs, g.s).code, D, D1, D1 + {all.reg});
    FlowsWeaken(X, all.code, D, D1 + {all.reg}, D, D + {all.reg});
  }

  // ---------------------------------------------------------------- arguments

  lemma ScaleFlows(b: CoreBuiltin, unit: int, k: int, reg: nat, s: State, F: State, D: set<int>, kinds: Kinds)
    requires ConstsOf(F) <= D && InFrame(RoomOf(F), D) && reg in D && Ends(s, GenScale(b, unit, k, reg, s).s, F, kinds)
    ensures var g := GenScale(b, unit, k, reg, s);
      Flows(RoomOf(F), g.code, D, D + {g.reg}) && InFrame(RoomOf(F), D + {g.reg})
  {
    hide Good, Extends, Flows, Advances;
    if k == unit {
      FlowsNone(RoomOf(F), D);
      assert D + {reg} == D;
    } else {
      ConstRegOk(Int(k), s, kinds);
      var (c, s1) := ConstReg(Int(k), s);
      AdvancesGood(s, s1, {}, kinds);
      EmitFreshOk(b, [reg, c], s1, kinds);
      EndsBefore(s, s1, GenScale(b, unit, k, reg, s).s, F, {}, {}, kinds);
      ConstAvailable(Int(k), s, F, kinds);
      FreshFlows(b, [reg, c], s1, F, D, kinds);
    }
  }

  lemma OffsetFlows(v: Value, stride: int, base: int, s: State, scope: set<nat>, F: State, D: set<int>, kinds: Kinds)
    requires OkValue(v, scope, kinds) && Available(F, s, scope, D)
    requires Ends(s, GenArg(AOffset(v, stride, base), s).s, F, kinds)
    ensures var g := GenArg(AOffset(v, stride, base), s);
      Flows(RoomOf(F), g.code, D, D + {g.reg}) && InFrame(RoomOf(F), D + {g.reg})
  {
    hide Good, Extends, Flows, Advances, GenScale;
    var g, X := GenArg(AOffset(v, stride, base), s), RoomOf(F);
    var (r, s1) := RegOf(v, s);
    var scaled := GenScale(MulI64, 1, stride, r, s1);
    var moved := GenScale(AddI64, 0, base, scaled.reg, scaled.s);
    RegOfOk(v, s, kinds);
    AdvancesGood(s, s1, {}, kinds);
    GenScaleOk(MulI64, 1, stride, r, s1, kinds);
    AdvancesGood(s1, scaled.s, {}, kinds);
    GenScaleOk(AddI64, 0, base, scaled.reg, scaled.s, kinds);
    AdvancesTrans(s1, scaled.s, g.s, {}, {}, kinds);
    EndsBefore(s, s1, g.s, F, {}, {}, kinds);
    EndsBefore(s1, scaled.s, g.s, F, {}, {}, kinds);
    RegAvailable(v, s, scope, F, D, kinds);
    ScaleFlows(MulI64, 1, stride, r, s1, F, D, kinds);
    var D1 := D + {scaled.reg};
    ScaleFlows(AddI64, 0, base, scaled.reg, scaled.s, F, D1, kinds);
    FlowsSeq(X, scaled.code, moved.code, D, D1, D1 + {moved.reg});
    FlowsWeaken(X, g.code, D, D1 + {moved.reg}, D, D + {g.reg});
  }

  lemma ArgFlows(a: Arg, s: State, scope: set<nat>, F: State, D: set<int>, kinds: Kinds)
    requires OkArg(a, scope, kinds) && PlainArg(a, kinds) && Available(F, s, scope, D)
    requires Ends(s, GenArg(a, s).s, F, kinds)
    ensures var g := GenArg(a, s); Flows(RoomOf(F), g.code, D, D + {g.reg}) && InFrame(RoomOf(F), D + {g.reg})
  {
    hide Good, Extends, Flows;
    match a
    case AVal(v) =>
      RegAvailable(v, s, scope, F, D, kinds);
      FlowsNone(RoomOf(F), D);
      assert D + {GenArg(a, s).reg} == D;
    case AConst(c) =>
      ConstAvailable(c, s, F, kinds);
      FlowsNone(RoomOf(F), D);
      assert D + {GenArg(a, s).reg} == D;
    case AShape(shape) => ShapeFlows(shape, s, scope, F, D, kinds);
    case AExpr(e) => MaterializeFlows(e, s, scope, F, D, kinds);
    case AOffset(v, stride, base) => OffsetFlows(v, stride, base, s, scope, F, D, kinds);
  }

  ghost predicate OkArgs(args: seq<Arg>, scope: set<nat>, kinds: Kinds) {
    forall a <- args :: OkArg(a, scope, kinds) && PlainArg(a, kinds)
  }

  lemma {:induction false} ArgsFlow(args: seq<Arg>, s: State, scope: set<nat>, F: State, D: set<int>, kinds: Kinds)
    requires OkArgs(args, scope, kinds) && Available(F, s, scope, D) && Ends(s, GenArgs(args, s).s, F, kinds)
    ensures var g := GenArgs(args, s);
      Flows(RoomOf(F), g.code, D, D + Regs(g.regs)) && InFrame(RoomOf(F), D + Regs(g.regs))
    decreases |args|
  {
    hide Good, Extends, Flows, Advances, OkArg, PlainArg, GenArg;
    var all, X := GenArgs(args, s), RoomOf(F);
    if args == [] {
      FlowsNone(X, D);
      assert D + Regs([]) == D;
    } else {
      var g := GenArg(args[0], s);
      var gs := GenArgs(args[1..], g.s);
      assert args[0] in args && forall a <- args[1..] :: a in args;
      GenArgOk(args[0], s, kinds);
      AdvancesGood(s, g.s, {}, kinds);
      GenArgsOk(args[1..], g.s, kinds);
      EndsBefore(s, g.s, all.s, F, {}, {}, kinds);
      ArgFlows(args[0], s, scope, F, D, kinds);
      var D1 := D + {g.reg};
      AvailableMore(F, s, scope, D, g.s, D1);
      ArgsFlow(args[1..], g.s, scope, F, D1, kinds);
      FlowsSeq(X, g.code, gs.code, D, D1, D1 + Regs(gs.regs));
      RegsCons(g.reg, gs.regs);
      assert D1 + Regs(gs.regs) == D + Regs([g.reg] + gs.regs);
    }
  }

  // ---------------------------------------------------------------- straight-line ops

  lemma GenCallFlows(c: LoweredCall, s: State, scope: set<nat>, F: State, D: set<int>, kinds: Kinds)
    requires kinds.of(c.name) == c.kind && c.kind != VMFunc && OkArgs(c.args, scope, kinds)
    requires OkArgs(c.launch, scope, kinds)
    requires Available(F, s, scope, D) && Ends(s, GenCall(c, s).s, F, kinds)
    ensures Defining(F, GenCall(c, s).code, GenCall(c, s).s, Ids1(c.res), D)
  {
    hide Good, Extends, Flows, Advances, OkArg, PlainArg, GenArgs, EmitResult, InFrame, ConstsOf;
    var all, X := GenCall(c, s), RoomOf(F);
    var g := GenArgs(c.args, s);
    var l := GenArgs(c.launch, g.s);
    var call := EmitResult(c.res, c.kind, c.name, g.regs, l.regs, l.s);
    GenArgsOk(c.args, s, kinds);
    AdvancesGood(s, g.s, {}, kinds);
    GenArgsOk(c.launch, g.s, kinds);
    AdvancesGood(g.s, l.s, {}, kinds);
    EmitResultOk(c.res, c.kind, c.name, g.regs, l.regs, l.s, kinds);
    AdvancesTrans(g.s, l.s, all.s, {}, Ids1(c.res), kinds);
    EndsBefore(s, g.s, all.s, F, {}, {} + Ids1(c.res), kinds);
    EndsBefore(g.s, l.s, all.s, F, {}, Ids1(c.res), kinds);
    ArgsFlow(c.args, s, scope, F, D, kinds);
    var D1 := D + Regs(g.regs);
    AvailableMore(F, s, scope, D, g.s, D1);
    ArgsFlow(c.launch, g.s, scope, F, D1, kinds);
    var D2 := D1 + Regs(l.regs);
    ResultFlows(c.res, c.kind, c.name, g.regs, l.regs, l.s, F, D2, kinds);
    var D3 := D2 + if c.res.Some? then {l.s.next} else {};
    FlowsSeq(X, g.code, l.code, D, D1, D2);
    FlowsSeq(X, g.code + l.code, call.code, D, D2, D3);
  }

  lemma {:induction false} SimpleFlows(op: Op, s: State, scope: set<nat>, taken: set<nat>, F: State, D: set<int>,
                                       kinds: Kinds)
    requires !op.IfOp? && !op.ForOp? && WfOp(op, scope, taken, kinds) && Available(F, s, scope, D)
    requires Ends(s, GenSimple(op, s).s, F, kinds)
    ensures Defining(F, GenSimple(op, s).code, GenSimple(op, s).s, Defines(op), D)
  {
    hide Good, Extends, Flows, WfOp, GenCall;
    CallOfOk(op, scope, taken, kinds);
    GenCallFlows(CallOf(op), s, scope, F, D, kinds);
  }

  // ---------------------------------------------------------------- branches

  ghost predicate Writable(F: State, regs: seq<nat>) {
    forall r <- regs :: r < F.next && r !in ConstsOf(F)
  }

  lemma {:induction false} CopiesFlow(dsts: seq<nat>, vals: seq<Value>, s: State, scope: set<nat>, F: State,
                                      D: set<int>, kinds: Kinds)
    requires |dsts| == |vals| && OkValues(vals, scope, kinds) && Writable(F, dsts)
    requires Available(F, s, scope, D) && Ends(s, GenCopies(dsts, vals, s).s, F, kinds)
    ensures Flows(RoomOf(F), GenCopies(dsts, vals, s).code, D, D + Regs(dsts)) && InFrame(RoomOf(F), D + Regs(dsts))
    decreases |vals|
  {
    hide Good, Extends, Flows, Advances, EmitCall;
    var all, X := GenCopies(dsts, vals, s), RoomOf(F);
    if dsts == [] {
      FlowsNone(X, D);
      assert D + Regs([]) == D;
    } else {
      var (r, s1) := RegOf(vals[0], s);
      var c := EmitBuiltin(dsts[0], Identity, [r], s1);
      var rest := GenCopies(dsts[1..], vals[1..], c.s);
      assert OkValue(vals[0], scope, kinds) && OkValues(vals[1..], scope, kinds) by { OkTail(vals, scope, kinds); }
      assert PlainValues(vals[1..], kinds) by { OkPlain(vals[1..], scope, kinds); }
      RegOfOk(vals[0], s, kinds);
      AdvancesGood(s, s1, {}, kinds);
      EmitCallOk(dsts[0], Builtin, Core(Identity), [r], [], s1, kinds);
      AdvancesGood(s1, c.s, {}, kinds);
      GenCopiesOk(dsts[1..], vals[1..], c.s, kinds);
      AdvancesTrans(s1, c.s, all.s, {}, {}, kinds);
      EndsBefore(s, s1, all.s, F, {}, {}, kinds);
      EndsBefore(s1, c.s, all.s, F, {}, {}, kinds);
      RegAvailable(vals[0], s, scope, F, D, kinds);
      assert dsts[0] in dsts && forall d <- dsts[1..] :: d in dsts;
      CallFlows(dsts[0], Builtin, Core(Identity), [r], [], s1, F, D, kinds);
      var D1 := D + {dsts[0]};
      AvailableMore(F, s, scope, D, c.s, D1);
      CopiesFlow(dsts[1..], vals[1..], c.s, scope, F, D1, kinds);
      RegsCons(dsts[0], dsts[1..]);
      assert dsts == [dsts[0]] + dsts[1..];
      assert D1 + Regs(dsts[1..]) == D + Regs(dsts);
      FlowsSeq(X, c.code, rest.code, D, D1, D + Regs(dsts));
    }
  }

  lemma OkTail(vals: seq<Value>, scope: set<nat>, kinds: Kinds)
    requires OkValues(vals, scope, kinds) && vals != []
    ensures OkValue(vals[0], scope, kinds) && OkValues(vals[1..], scope, kinds)
  {
  }

  lemma OkPlain(vals: seq<Value>, scope: set<nat>, kinds: Kinds)
    requires OkValues(vals, scope, kinds)
    ensures PlainValues(vals, kinds)
  {
  }

  lemma {:induction false} BranchFlows(b: Block, n: nat, dsts: seq<nat>, s: State, scope: set<nat>, taken: set<nat>,
                                       F: State, D: set<int>, kinds: Kinds)
    requires WfBlock(b, n, scope, taken, kinds) && scope <= taken && |dsts| == n && Writable(F, dsts)
    requires Available(F, s, scope, D) && Ends(s, GenBranch(b, dsts, s).s, F, kinds)
    ensures Flows(RoomOf(F), GenBranch(b, dsts, s).code, D, D + Regs(dsts)) && InFrame(RoomOf(F), D + Regs(dsts))
    decreases b, 0
  {
    hide Good, Extends, Flows, Advances, WfOps, GenOps, Writable;
    var all, X := GenBranch(b, dsts, s), RoomOf(F);
    var body := GenOps(b.ops, s);
    var s1 := WithIdentity(body.s);
    var copies := GenCopies(dsts, b.yielded, s1);
    var ids := BindsOps(b.ops);
    OkPlain(b.yielded, scope + DefinesOps(b.ops), kinds);
    GenOpsOk(b.ops, s, scope, taken, kinds);
    AdvancesGood(s, body.s, ids, kinds);
    WithIdentityOk(body.s, kinds);
    AdvancesGood(body.s, s1, {}, kinds);
    GenCopiesOk(dsts, b.yielded, s1, kinds);
    AdvancesTrans(body.s, s1, all.s, {}, {}, kinds);
    EndsBefore(s, body.s, all.s, F, ids, {}, kinds);
    EndsBefore(body.s, s1, all.s, F, {}, {}, kinds);
    OpsFlow(b.ops, s, scope, taken, F, D, kinds);
    var D1 :| D <= D1 && Flows(X, body.code, D, D1) && InFrame(X, D1) && forall id <- DefinesOps(b.ops) ::
      id in body.s.env && body.s.env[id] in D1;
    ScopeStays(b.ops, s, scope, taken, kinds);
    assert Available(F, s1, scope + DefinesOps(b.ops), D1);
    CopiesFlow(dsts, b.yielded, s1, scope + DefinesOps(b.ops), F, D1, kinds);
    FlowsSeq(X, body.code, copies.code, D, D1, D1 + Regs(dsts));
    FlowsWeaken(X, all.code, D, D1 + Regs(dsts), D, D + Regs(dsts));
  }

  /** What is in scope keeps its register. */
  lemma {:induction false} ScopeStays(ops: seq<Op>, s: State, scope: set<nat>, taken: set<nat>, kinds: Kinds)
    requires WfOps(ops, scope, taken, kinds) && scope <= taken && Good(s, kinds) && BuiltinKinds(kinds)
    requires scope <= s.env.Keys
    ensures forall id <- scope :: id in GenOps(ops, s).s.env && GenOps(ops, s).s.env[id] == s.env[id]
  {
    hide Good, Extends, GenOps, WfOps;
    GenOpsOk(ops, s, scope, taken, kinds);
    BindsOpsFresh(ops, scope, taken, kinds);
  }

  lemma {:induction false} OpScopeStays(op: Op, s: State, scope: set<nat>, taken: set<nat>, kinds: Kinds)
    requires WfOp(op, scope, taken, kinds) && scope <= taken && Good(s, kinds) && BuiltinKinds(kinds)
    requires scope <= s.env.Keys
    ensures forall id <- scope :: id in GenOp(op, s).s.env && GenOp(op, s).s.env[id] == s.env[id]
  {
    hide Good, Extends, GenOp, WfOp;
    GenOpOk(op, s, scope, taken, kinds);
    BindsFresh(op, scope, taken, kinds);
  }

  // ---------------------------------------------------------------- conditionals

  lemma {:induction false} IfFlows(op: Op, s: State, scope: set<nat>, taken: set<nat>, F: State, D: set<int>,
                                   kinds: Kinds)
    requires op.IfOp? && WfOp(op, scope, taken, kinds) && scope <= taken
    requires Available(F, s, scope, D) && Ends(s, GenIf(op, s).s, F, kinds)
    ensures Defining(F, GenIf(op, s).code, GenIf(op, s).s, Defines(op), D)
    decreases op, 0
  {
    hide Good, Extends, Flows, Advances, GenBranch, WfBlock, AllocBindAll, Distinct, Writable;
    var all, X, n := GenIf(op, s), RoomOf(F), |op.results|;
    var (c, s1) := RegOf(op.cond, s);
    var dsts, s2 := RegRange(s1.next, n), AllocBindAll(op.results, s1);
    var thn := GenBranch(op.thn, dsts, s2);
    var rs := Ids(op.results);
    RegOfOk(op.cond, s, kinds);
    AdvancesGood(s, s1, {}, kinds);
    AllocBindAllOk(op.results, s1, kinds);
    AdvancesGood(s1, s2, rs, kinds);
    GenBranchOk(op.thn, n, dsts, s2, scope, taken + rs, kinds);
    AdvancesGood(s2, thn.s, BindsOps(op.thn.ops), kinds);
    IfStates(op, s, scope, taken, F, kinds);
    RegAvailable(op.cond, s, scope, F, D, kinds);
    ResultsWritable(op.results, s1, F, kinds);
    assert Available(F, s2, scope, D) by { ScopeAfterAlloc(op.results, s1, scope, taken, F, D, kinds); }
    BranchFlows(op.thn, n, dsts, s2, scope, taken + rs, F, D, kinds);
    var D' := D + Regs(dsts);
    if op.els.Some? {
      var els := GenBranch(op.els.value, dsts, thn.s);
      assert Available(F, thn.s, scope, D) by { BranchScopeStays(op.thn, n, dsts, s2, scope, taken + rs, F, D, kinds); }
      BranchFlows(op.els.value, n, dsts, thn.s, scope, taken + rs, F, D, kinds);
      FlowsIfElse(X, c, thn.code, els.code, D, D');
    } else {
      assert op.results == [] && dsts == [] && D' == D;
      FlowsIf(X, c, thn.code, D, D', D');
    }
    forall id | id in Defines(op)
      ensures id in all.s.env && all.s.env[id] in D' { ResultHeld(op, s, scope, taken, kinds, id); }
  }

  /** The states in between end in F too. */
  lemma {:induction false} IfStates(op: Op, s: State, scope: set<nat>, taken: set<nat>, F: State, kinds: Kinds)
    requires op.IfOp? && WfOp(op, scope, taken, kinds) && Ends(s, GenIf(op, s).s, F, kinds)
    ensures var (c, s1) := RegOf(op.cond, s);
      var dsts, s2 := RegRange(s1.next, |op.results|), AllocBindAll(op.results, s1);
      var thn := GenBranch(op.thn, dsts, s2);
      Ends(s, s1, F, kinds) && Ends(s1, s2, F, kinds) && Ends(s2, thn.s, F, kinds) &&
      (op.els.Some? ==> Ends(thn.s, GenBranch(op.els.value, dsts, thn.s).s, F, kinds))
  {
    hide Good, Extends, Advances, GenBranch, WfBlock, AllocBindAll;
    var all, n := GenIf(op, s), |op.results|;
    var (c, s1) := RegOf(op.cond, s);
    var dsts, s2 := RegRange(s1.next, n), AllocBindAll(op.results, s1);
    var thn := GenBranch(op.thn, dsts, s2);
    var rs, ts := Ids(op.results), BindsOps(op.thn.ops);
    RegOfOk(op.cond, s, kinds);
    AdvancesGood(s, s1, {}, kinds);
    AllocBindAllOk(op.results, s1, kinds);
    AdvancesGood(s1, s2, rs, kinds);
    GenBranchOk(op.thn, n, dsts, s2, scope, taken + rs, kinds);
    AdvancesGood(s2, thn.s, ts, kinds);
    if op.els.Some? {
      GenBranchOk(op.els.value, n, dsts, thn.s, scope, taken + rs, kinds);
      var es := BindsOps(op.els.value.ops);
      AdvancesTrans(s2, thn.s, all.s, ts, es, kinds);
      AdvancesTrans(s1, s2, all.s, rs, ts + es, kinds);
      EndsBefore(s, s1, all.s, F, {}, rs + (ts + es), kinds);
      EndsBefore(s1, s2, all.s, F, rs, ts + es, kinds);
      EndsBefore(s2, thn.s, all.s, F, ts, es, kinds);
    } else {
      AdvancesTrans(s1, s2, all.s, rs, ts, kinds);
      EndsBefore(s, s1, all.s, F, {}, rs + ts, kinds);
      EndsBefore(s1, s2, all.s, F, rs, ts, kinds);
    }
  }

  lemma {:induction false} ResultsWritable(results: seq<nat>, s: State, F: State, kinds: Kinds)
    requires Ends(s, AllocBindAll(results, s), F, kinds)
    ensures Writable(F, RegRange(s.next, |results|))
  {
    hide AllocBindAll;
    var t := AllocBindAll(results, s);
    AllocBindAllOk(results, s, kinds);
    forall r | r in RegRange(s.next, |results|) ensures r < F.next && r !in ConstsOf(F) { NotConst(r, s, t, F, kinds); }
  }

  lemma {:induction false} ScopeAfterAlloc(results: seq<nat>, s: State, scope: set<nat>, taken: set<nat>, F: State,
                                           D: set<int>, kinds: Kinds)
    requires Available(F, s, scope, D) && Good(s, kinds) && scope <= taken && Ids(results) !! taken
    ensures Available(F, AllocBindAll(results, s), scope, D)
  {
    forall id | id in scope ensures id in AllocBindAll(results, s).env &&
      AllocBindAll(results, s).env[id] == s.env[id] {
      AllocBindAllKeeps(results, s, id);
    }
  }

  lemma {:induction false} BranchScopeStays(b: Block, n: nat, dsts: seq<nat>, s: State, scope: set<nat>,
                                            taken: set<nat>, F: State, D: set<int>, kinds: Kinds)
    requires WfBlock(b, n, scope, taken, kinds) && scope <= taken && Available(F, s, scope, D) && Good(s, kinds)
    requires BuiltinKinds(kinds)
    ensures Available(F, GenBranch(b, dsts, s).s, scope, D)
  {
    hide Good, Extends, GenBranch, WfOps;
    GenBranchOk(b, n, dsts, s, scope, taken, kinds);
    BindsOpsFresh(b.ops, scope, taken, kinds);
  }

  lemma {:induction false} IfState(op: Op, s: State)
    requires op.IfOp?
    ensures var s1 := RegOf(op.cond, s).1; var dsts := RegRange(s1.next, |op.results|);
      var thn := GenBranch(op.thn, dsts, AllocBindAll(op.results, s1));
      GenIf(op, s).s == if op.els.Some? then GenBranch(op.els.value, dsts, thn.s).s else thn.s
  {
    hide RegOf, GenBranch, AllocBindAll;
  }

  /** A result of a conditional is in its register at the end. */
  lemma {:induction false} ResultHeld(op: Op, s: State, scope: set<nat>, taken: set<nat>, kinds: Kinds, id: nat)
    requires op.IfOp? && WfOp(op, scope, taken, kinds) && Good(s, kinds) && BuiltinKinds(kinds) && id in op.results
    ensures var s1 := RegOf(op.cond, s).1;
      id in GenIf(op, s).s.env && GenIf(op, s).s.env[id] in RegRange(s1.next, |op.results|)
  {
    hide Good, Extends, Advances, GenBranch, WfBlock, AllocBindAll, RegOf, GenIf, BuiltinKinds, RegRange;
    IfState(op, s);
    var n := |op.results|;
    var (c, s1) := RegOf(op.cond, s);
    var dsts, s2 := RegRange(s1.next, n), AllocBindAll(op.results, s1);
    var thn := GenBranch(op.thn, dsts, s2);
    var rs := Ids(op.results);
    RegOfOk(op.cond, s, kinds);
    AdvancesGood(s, s1, {}, kinds);
    AllocBindAllOk(op.results, s1, kinds);
    AdvancesGood(s1, s2, rs, kinds);
    var k :| 0 <= k < n && op.results[k] == id;
    AllocBindAllRegs(op.results, s1, k);
    assert dsts[k] in dsts;
    GenBranchOk(op.thn, n, dsts, s2, scope, taken + rs, kinds);
    AdvancesGood(s2, thn.s, BindsOps(op.thn.ops), kinds);
    BlockFresh(op.thn, n, scope, taken + rs, kinds);
    BindingStays(s2, thn.s, BindsOps(op.thn.ops), id, kinds);
    if op.els.Some? {
      GenBranchOk(op.els.value, n, dsts, thn.s, scope, taken + rs, kinds);
      BlockFresh(op.els.value, n, scope, taken + rs, kinds);
      BindingStays(thn.s, GenBranch(op.els.value, dsts, thn.s).s, BindsOps(op.els.value.ops), id, kinds);
    }
  }

  lemma {:induction false} BlockFresh(b: Block, n: nat, scope: set<nat>, taken: set<nat>, kinds: Kinds)
    requires WfBlock(b, n, scope, taken, kinds)
    ensures BindsOps(b.ops) !! taken
  {
    BindsOpsFresh(b.ops, scope, taken, kinds);
  }

  lemma BindingStays(s: State, t: State, ids: set<nat>, id: nat, kinds: Kinds)
    requires Advances(s, t, ids, kinds) && id in s.env && id !in ids
    ensures id in t.env && t.env[id] == s.env[id]
  {
  }

  // ---------------------------------------------------------------- sequences

  lemma {:induction false} OpFlows(op: Op, s: State, scope: set<nat>, taken: set<nat>, F: State, D: set<int>,
                                   kinds: Kinds)
    requires WfOp(op, scope, taken, kinds) && scope <= taken && Available(F, s, scope, D)
    requires Ends(s, GenOp(op, s).s, F, kinds)
    ensures Defining(F, GenOp(op, s).code, GenOp(op, s).s, Defines(op), D)
    decreases op, 2
  {
    hide Good, Extends, Defining, WfOp, GenIf, GenFor, GenSimple, Available, Ends;
    match op
    case IfOp(_, _, _, _) => IfFlows(op, s, scope, taken, F, D, kinds);
    case ForOp(_, _, _, _, _, _, _, _) => ForFlows(op, s, scope, taken, F, D, kinds);
    case _ => SimpleFlows(op, s, scope, taken, F, D, kinds);
  }

  lemma {:induction false} OpsFlow(ops: seq<Op>, s: State, scope: set<nat>, taken: set<nat>, F: State, D: set<int>,
                                   kinds: Kinds)
    requires WfOps(ops, scope, taken, kinds) && scope <= taken && Available(F, s, scope, D)
    requires Ends(s, GenOps(ops, s).s, F, kinds)
    ensures Defining(F, GenOps(ops, s).code, GenOps(ops, s).s, DefinesOps(ops), D)
    decreases ops, 0
  {
    hide Good, Extends, Flows, Advances, WfOp, GenOp;
    var all, X := GenOps(ops, s), RoomOf(F);
    if ops == [] {
      FlowsNone(X, D);
    } else {
      var g := GenOp(ops[0], s);
      var gs := GenOps(ops[1..], g.s);
      var ds, b1, b2 := Defines(ops[0]), Binds(ops[0]), BindsOps(ops[1..]);
      GenOpOk(ops[0], s, scope, taken, kinds);
      AdvancesGood(s, g.s, b1, kinds);
      GenOpsOk(ops[1..], g.s, scope + ds, taken + ds, kinds);
      EndsBefore(s, g.s, all.s, F, b1, b2, kinds);
      OpFlows(ops[0], s, scope, taken, F, D, kinds);
      var D1 :| D <= D1 && Flows(X, g.code, D, D1) && InFrame(X, D1) && forall id <- ds ::
        id in g.s.env && g.s.env[id] in D1;
      OpScopeStays(ops[0], s, scope, taken, kinds);
      assert Available(F, g.s, scope + ds, D1);
      OpsFlow(ops[1..], g.s, scope + ds, taken + ds, F, D1, kinds);
      var D2 :| D1 <= D2 && Flows(X, gs.code, D1, D2) && InFrame(X, D2) && forall id <- DefinesOps(ops[1..]) ::
        id in gs.s.env && gs.s.env[id] in D2;
      FlowsSeq(X, g.code, gs.code, D, D1, D2);
      ScopeStays(ops[1..], g.s, scope + ds, taken + ds, kinds);
    }
  }

  // ---------------------------------------------------------------- loops

  /** The first carried variable: its register is written with the initial value. */
  lemma IterFlows(it: IterArg, s: State, scope: set<nat>, F: State, D: set<int>, kinds: Kinds)
    requires OkValue(it.init, scope, kinds) && it.v !in scope && Available(F, s, scope, D)
    requires var (r, s1) := RegOf(it.init, AllocBind(s, it.v)); Ends(s, EmitBuiltin(s.next, Identity, [r], s1).s, F,
      kinds)
    ensures var (r, s1) := RegOf(it.init, AllocBind(s, it.v)); var c := EmitBuiltin(s.next, Identity, [r], s1);
      var D' := D + {s.next as int};
      Flows(RoomOf(F), c.code, D, D') && InFrame(RoomOf(F), D') && Writable(F, [s.next]) &&
      Available(F, c.s, scope + {it.v}, D') && c.s.env == s.env[it.v := s.next]
  {
    hide Good, Extends, Flows, EmitCall;
    var s0 := AllocBind(s, it.v);
    var (r, s1) := RegOf(it.init, s0);
    var c := EmitBuiltin(s.next, Identity, [r], s1);
    AllocBindOk(s, it.v, kinds);
    RegOfOk(it.init, s0, kinds);
    EmitCallOk(s.next, Builtin, Core(Identity), [r], [], s1, kinds);
    AdvancesTrans(s0, s1, c.s, {}, {}, kinds);
    EndsBefore(s, s0, c.s, F, {it.v}, {}, kinds);
    EndsBefore(s0, s1, c.s, F, {}, {}, kinds);
    NotConst(s.next, s, s0, F, kinds);
    assert Available(F, s0, scope, D);
    RegAvailable(it.init, s0, scope, F, D, kinds);
    CallFlows(s.next, Builtin, Core(Identity), [r], [], s1, F, D, kinds);
  }

  lemma {:induction false} ItersFlow(iters: seq<IterArg>, s: State, scope: set<nat>, F: State, D: set<int>,
                                     kinds: Kinds)
    requires OkValues(IterInits(iters), scope, kinds) && Distinct(IterVars(iters)) && Ids(IterVars(iters)) !! scope
    requires Available(F, s, scope, D) && Ends(s, GenIters(iters, s).s, F, kinds)
    ensures var g := GenIters(iters, s);
      DefiningRegs(F, g.code, g.s, scope + Ids(IterVars(iters)), g.regs, D) && Writable(F, g.regs) &&
        |g.regs| == |iters|
    decreases |iters|
  {
    hide Good, Extends, Flows, Advances, EmitBuiltin, RegOf, AllocBind, OkValues, PlainValue, Distinct;
    var all, X := GenIters(iters, s), RoomOf(F);
    if iters == [] {
      FlowsNone(X, D);
      assert scope + Ids(IterVars(iters)) == scope;
    } else {
      var (r, s1) := RegOf(iters[0].init, AllocBind(s, iters[0].v));
      var c := EmitBuiltin(s.next, Identity, [r], s1);
      var rest := GenIters(iters[1..], c.s);
      var v, vs := iters[0].v, Ids(IterVars(iters[1..]));
      ItersCons(iters);
      OkTail(IterInits(iters), scope, kinds);
      OkPlain(IterInits(iters), scope, kinds);
      OkPlain(IterInits(iters[1..]), scope, kinds);
      assert PlainValue(IterInits(iters)[0], kinds) && IterInits(iters)[0] == iters[0].init;
      GenIterOk(iters[0], s, kinds);
      AdvancesGood(s, c.s, {v}, kinds);
      GenItersOk(iters[1..], c.s, kinds);
      EndsBefore(s, c.s, all.s, F, {v}, vs, kinds);
      IterFlows(iters[0], s, scope, F, D, kinds);
      var D1 := D + {s.next as int};
      FreshTail(iters);
      assert OkValues(IterInits(iters[1..]), scope + {v}, kinds)
        by { OkWider(IterInits(iters[1..]), scope, scope + {v}, kinds); }
      ItersFlow(iters[1..], c.s, scope + {v}, F, D1, kinds);
      var D2 :| D1 <= D2 && Flows(X, rest.code, D1, D2) && InFrame(X, D2) && AllIn(rest.regs, D2) &&
        forall id <- scope + {v} + vs :: id in rest.s.env && rest.s.env[id] in D2;
      FlowsSeq(X, c.code, rest.code, D, D1, D2);
      assert scope + Ids(IterVars(iters)) == scope + {v} + vs;
      assert all.regs == [s.next] + rest.regs && all.code == c.code + rest.code && all.s == rest.s;
    }
  }

  lemma OkWider(vals: seq<Value>, scope: set<nat>, wider: set<nat>, kinds: Kinds)
    requires OkValues(vals, scope, kinds) && scope <= wider
    ensures OkValues(vals, wider, kinds)
  {
    forall k | 0 <= k < |vals| ensures OkValue(vals[k], wider, kinds) { assert OkValue(vals[k], scope, kinds); }
  }

  lemma FreshTail(iters: seq<IterArg>)
    requires iters != [] && Distinct(IterVars(iters))
    ensures Distinct(IterVars(iters[1..])) && iters[0].v !in Ids(IterVars(iters[1..]))
  {
    ItersCons(iters);
    var vs := IterVars(iters);
    assert vs[1..] == IterVars(iters[1..]);
    forall k | 0 <= k < |vs[1..]| ensures vs[1..][k] != iters[0].v { assert vs[k + 1] != vs[0]; }
  }

  /** The three bounds. */
  lemma BoundStates(op: Op, s: State, t: State, scope: set<nat>, F: State, ids: set<nat>, kinds: Kinds)
    requires op.ForOp? && OkValue(op.start, scope, kinds) && OkValue(op.end, scope, kinds)
    requires OkValue(op.step, scope, kinds)
    requires Ends(s, t, F, kinds)
    requires Advances(BoundReg(op.step, BoundReg(op.end, BoundReg(op.start, s).1).1).1, t, ids, kinds)
    ensures var s1 := BoundReg(op.start, s).1; var s2 := BoundReg(op.end, s1).1; var s3 := BoundReg(op.step, s2).1;
      Ends(s, s1, F, kinds) && Ends(s1, s2, F, kinds) && Ends(s2, s3, F, kinds) && Ends(s3, t, F, kinds) &&
      s1.env == s.env && s2.env == s.env && s3.env == s.env
  {
    hide Good, Extends, Advances, BoundReg;
    var (first, s1) := BoundReg(op.start, s);
    var (last, s2) := BoundReg(op.end, s1);
    var (inc, s3) := BoundReg(op.step, s2);
    BoundRegOk(op.start, s, kinds);
    AdvancesGood(s, s1, {}, kinds);
    BoundRegOk(op.end, s1, kinds);
    AdvancesGood(s1, s2, {}, kinds);
    BoundRegOk(op.step, s2, kinds);
    AdvancesTrans(s2, s3, t, {}, ids, kinds);
    AdvancesTrans(s1, s2, t, {}, {} + ids, kinds);
    EndsBefore(s, s1, t, F, {}, {} + ({} + ids), kinds);
    EndsBefore(s1, s2, t, F, {}, {} + ids, kinds);
    EndsBefore(s2, s3, t, F, {}, ids, kinds);
  }

  /** The index gets a register and a copy of the first bound. */
  lemma IndexFlows(op: Op, first: nat, s: State, scope: set<nat>, F: State, D: set<int>, kinds: Kinds)
    requires op.ForOp? && op.loopVar !in scope && Available(F, s, scope, D) && first in D
    requires Ends(s, EmitBuiltin(s.next, Identity, [first], AllocBind(s, op.loopVar)).s, F, kinds)
    ensures var c := EmitBuiltin(s.next, Identity, [first], AllocBind(s, op.loopVar)); var D' := D + {s.next as int};
      Flows(RoomOf(F), c.code, D, D') && Available(F, c.s, scope + {op.loopVar}, D') && s.next < F.next &&
        s.next !in ConstsOf(F)
  {
    hide Good, Extends, Flows, EmitCall;
    var s4 := AllocBind(s, op.loopVar);
    var c := EmitBuiltin(s.next, Identity, [first], s4);
    AllocBindOk(s, op.loopVar, kinds);
    EmitCallOk(s.next, Builtin, Core(Identity), [first], [], s4, kinds);
    EndsBefore(s, s4, c.s, F, {op.loopVar}, {}, kinds);
    NotConst(s.next, s, s4, F, kinds);
    CallFlows(s.next, Builtin, Core(Identity), [first], [], s4, F, D, kinds);
  }

  /** From the index on, the state only advances. */
  lemma IndexStates(op: Op, first: nat, s: State, t: State, F: State, kinds: Kinds)
    requires op.ForOp? && Good(s, kinds) && PlainValues(IterInits(op.iters), kinds) && BuiltinKinds(kinds)
    requires var c := EmitBuiltin(s.next, Identity, [first], AllocBind(s, op.loopVar));
      t == GenIters(op.iters, c.s).s && Extends(t, F)
    ensures var c := EmitBuiltin(s.next, Identity, [first], AllocBind(s, op.loopVar));
      Advances(s, t, {op.loopVar} + Ids(IterVars(op.iters)), kinds) && Ends(s, c.s, F, kinds) && Ends(c.s, t, F, kinds)
  {
    hide Good, Extends, Advances, EmitCall, GenIters;
    var s4, vars := AllocBind(s, op.loopVar), Ids(IterVars(op.iters));
    var c := EmitBuiltin(s.next, Identity, [first], s4);
    AllocBindOk(s, op.loopVar, kinds);
    AdvancesGood(s, s4, {op.loopVar}, kinds);
    EmitCallOk(s.next, Builtin, Core(Identity), [first], [], s4, kinds);
    AdvancesGood(s4, c.s, {}, kinds);
    GenItersOk(op.iters, c.s, kinds);
    AdvancesTrans(s, s4, c.s, {op.loopVar}, {}, kinds);
    assert {op.loopVar} + {} == {op.loopVar};
    AdvancesTrans(s, c.s, t, {op.loopVar}, vars, kinds);
    EndsBefore(s, c.s, t, F, {op.loopVar}, vars, kinds);
  }

  /** Bounds, index and carried variables. */
  lemma {:induction false} EntryFlows(op: Op, s: State, scope: set<nat>, taken: set<nat>, F: State, D: set<int>,
                                      kinds: Kinds)
    requires op.ForOp? && WfOp(op, scope, taken, kinds) && scope <= taken
    requires Available(F, s, scope, D) && Ends(s, GenLoopEntry(op, s).s, F, kinds)
    ensures var h := GenLoopEntry(op, s);
      DefiningRegs(F, h.code, h.s, scope + Ids([op.loopVar] + IterVars(op.iters)), [h.last, h.inc, h.index] + h.iters,
                   D) &&
      Writable(F, [h.index] + h.iters) && |h.iters| == |op.iters|
  {
    hide Good, Extends, Flows, Advances, EmitBuiltin, GenIters, BoundReg, WfOp, AllocBind;
    var h, X := GenLoopEntry(op, s), RoomOf(F);
    var (first, s1) := BoundReg(op.start, s);
    var (last, s2) := BoundReg(op.end, s1);
    var (inc, s3) := BoundReg(op.step, s2);
    var c := EmitBuiltin(s3.next, Identity, [first], AllocBind(s3, op.loopVar));
    var its := GenIters(op.iters, c.s);
    var vars, inner := Ids(IterVars(op.iters)), scope + {op.loopVar};
    LoopNames(op, scope, taken, kinds);
    OkPlain(IterInits(op.iters), scope, kinds);
    GoodBounds(op, s, scope, kinds);
    IndexStates(op, first, s3, h.s, F, kinds);
    BoundStates(op, s, h.s, scope, F, {op.loopVar} + vars, kinds);
    BoundAvailable(op.start, s, scope, F, D, kinds);
    BoundAvailable(op.end, s1, scope, F, D, kinds);
    BoundAvailable(op.step, s2, scope, F, D, kinds);
    IndexFlows(op, first, s3, scope, F, D, kinds);
    var D1 := D + {s3.next as int};
    OkWider(IterInits(op.iters), scope, inner, kinds);
    ItersFlow(op.iters, c.s, inner, F, D1, kinds);
    var D2 :| D1 <= D2 && Flows(X, its.code, D1, D2) && InFrame(X, D2) && AllIn(its.regs, D2) &&
      forall id <- inner + vars :: id in its.s.env && its.s.env[id] in D2;
    FlowsSeq(X, c.code, its.code, D, D1, D2);
    assert scope + Ids([op.loopVar] + IterVars(op.iters)) == inner + vars
      by { IdsCons(op.loopVar, IterVars(op.iters)); }
    assert AllIn([h.last, h.inc, h.index] + h.iters, D2);
  }

  lemma GoodBounds(op: Op, s: State, scope: set<nat>, kinds: Kinds)
    requires op.ForOp? && OkValue(op.start, scope, kinds) && OkValue(op.end, scope, kinds)
    requires OkValue(op.step, scope, kinds)
    requires Good(s, kinds)
    ensures Good(BoundReg(op.step, BoundReg(op.end, BoundReg(op.start, s).1).1).1, kinds)
  {
    hide Good, Extends, BoundReg;
    BoundRegOk(op.start, s, kinds);
    BoundRegOk(op.end, BoundReg(op.start, s).1, kinds);
    BoundRegOk(op.step, BoundReg(op.end, BoundReg(op.start, s).1).1, kinds);
  }

  /** Names bound by a loop are apart from each other and from what is in scope. */
  lemma {:induction false} LoopNames(op: Op, scope: set<nat>, taken: set<nat>, kinds: Kinds)
    requires op.ForOp? && WfOp(op, scope, taken, kinds) && scope <= taken
    ensures OkValue(op.start, scope, kinds) && OkValue(op.end, scope, kinds) && OkValue(op.step, scope, kinds)
    ensures OkValues(IterInits(op.iters), scope, kinds)
    ensures IntegralBound(op.start) && IntegralBound(op.end) && IntegralBound(op.step)
    ensures op.loopVar !in scope && Distinct(IterVars(op.iters)) && Ids(IterVars(op.iters)) !! scope + {op.loopVar}
  {
    hide WfBlock, OkValues, OkValue, CopySafe;
    var names := [op.loopVar] + IterVars(op.iters);
    IdsCons(op.loopVar, IterVars(op.iters));
    assert names[1..] == IterVars(op.iters) && names[0] == op.loopVar;
    forall i, j | 0 <= i < j < |IterVars(op.iters)|
      ensures IterVars(op.iters)[i] != IterVars(op.iters)[j] { assert names[i + 1] != names[j + 1]; }
    forall k | 0 <= k < |IterVars(op.iters)|
      ensures IterVars(op.iters)[k] != op.loopVar { assert names[k + 1] != names[0]; }
  }

  /** The cycle keeps what is written before it. */
  lemma {:induction false} CycleFlows(op: Op, h: LoopHead, scope: set<nat>, taken: set<nat>, F: State, D: set<int>,
                                      kinds: Kinds)
    requires op.ForOp? && WfOp(op, scope, taken, kinds) && scope <= taken && |h.iters| == |op.iters|
    requires Available(F, h.s, scope + Ids([op.loopVar] + IterVars(op.iters)), D)
    requires Ends(h.s, GenLoopCycle(op, h).s, F, kinds)
    requires AllIn([h.last, h.inc, h.index], D) && Writable(F, [h.index] + h.iters)
    ensures Flows(RoomOf(F), GenLoopCycle(op, h).code, D, D)
    decreases op, 0
  {
    hide Good, Extends, Flows, Advances, GenBranch, WfBlock, EmitCall;
    var inner, X, all := Ids([op.loopVar] + IterVars(op.iters)), RoomOf(F), GenLoopCycle(op, h);
    var test := EmitFresh(LtI64, [h.index, h.last], h.s);
    var body := GenBranch(op.body, h.iters, test.s);
    var step := EmitBuiltin(h.index, AddI64, [h.index, h.inc], body.s);
    var bs := BindsOps(op.body.ops);
    EmitFreshOk(LtI64, [h.index, h.last], h.s, kinds);
    AdvancesGood(h.s, test.s, {}, kinds);
    GenBranchOk(op.body, |op.iters|, h.iters, test.s, scope + inner, taken + inner, kinds);
    AdvancesGood(test.s, body.s, bs, kinds);
    EmitCallOk(h.index, Builtin, Core(AddI64), [h.index, h.inc], [], body.s, kinds);
    AdvancesTrans(test.s, body.s, all.s, bs, {}, kinds);
    EndsBefore(h.s, test.s, all.s, F, {}, bs + {}, kinds);
    EndsBefore(test.s, body.s, all.s, F, bs, {}, kinds);
    var D1 := D + {test.reg as int};
    NotConst(test.reg, h.s, test.s, F, kinds);
    AvailableMore(F, h.s, scope + inner, D, test.s, D1);
    assert Writable(F, h.iters) by { assert forall r <- h.iters :: r in [h.index] + h.iters; }
    BranchFlows(op.body, |op.iters|, h.iters, test.s, scope + inner, taken + inner, F, D1, kinds);
    var B := D1 + Regs(h.iters);
    assert h.index in [h.index] + h.iters;
    AllocGood(h.s, kinds);
    CallShape(test.reg, LtI64, [h.index, h.last], Alloc(h.s), F, D, kinds);
    CallShape(h.index, AddI64, [h.index, h.inc], body.s, F, B, kinds);
    FlowsLoop(X, test.code[0], test.reg, body.code, step.code[0], D, B);
    assert test.code == [test.code[0]] && step.code == [step.code[0]];
  }

  lemma AllocGood(s: State, kinds: Kinds)
    requires Good(s, kinds)
    ensures Good(Alloc(s), kinds)
  {
  }

  /** One call instruction, taken by itself. */
  lemma CallShape(dst: nat, b: CoreBuiltin, args: seq<nat>, s: State, F: State, D: set<int>, kinds: Kinds)
    requires Ends(s, EmitBuiltin(dst, b, args, s).s, F, kinds) && AllIn(args, D) && dst < F.next && dst !in ConstsOf(F)
    ensures var g := EmitBuiltin(dst, b, args, s);
      |g.code| == 1 && g.code[0].op == CALL && g.code[0].dst == dst && InstrOk(RoomOf(F), g.code[0]) &&
        Uses(g.code[0]) <= D
  {
    InternFuncOk(s.funcs, Core(b), Builtin, kinds);
    var g := EmitBuiltin(dst, b, args, s);
    assert |g.s.funcs| <= |F.funcs|;
  }

  lemma {:induction false} LoopResultsFlow(results: seq<nat>, regs: seq<nat>, s: State, F: State, D: set<int>,
                                           kinds: Kinds)
    requires |results| <= |regs| && Distinct(results) && AllIn(regs, D) && InFrame(RoomOf(F), D) && ConstsOf(F) <= D
    requires Ends(s, GenLoopResults(results, regs, s).s, F, kinds)
    ensures Defining(F, GenLoopResults(results, regs, s).code, GenLoopResults(results, regs, s).s, Ids(results), D)
    decreases |results|
  {
    hide Good, Extends, Flows, Advances, EmitResult;
    var all, X := GenLoopResults(results, regs, s), RoomOf(F);
    if results == [] {
      FlowsNone(X, D);
    } else {
      var c := EmitDefine(results[0], Identity, [regs[0]], s);
      var rest := GenLoopResults(results[1..], regs[1..], c.s);
      DefineIs(results[0], Identity, [regs[0]], s);
      EmitResultOk(Some(results[0]), Builtin, Core(Identity), [regs[0]], [], s, kinds);
      AdvancesGood(s, c.s, {results[0]}, kinds);
      GenLoopResultsOk(results[1..], regs[1..], c.s, kinds);
      EndsBefore(s, c.s, all.s, F, {results[0]}, Ids(results[1..]), kinds);
      assert regs[0] in regs && forall r <- regs[1..] :: r in regs;
      ResultFlows(Some(results[0]), Builtin, Core(Identity), [regs[0]], [], s, F, D, kinds);
      var D1 := D + {s.next as int};
      LoopResultsFlow(results[1..], regs[1..], c.s, F, D1, kinds);
      var D2 :| D1 <= D2 && Flows(X, rest.code, D1, D2) && InFrame(X, D2) && forall id <- Ids(results[1..]) ::
        id in rest.s.env && rest.s.env[id] in D2;
      FlowsSeq(X, c.code, rest.code, D, D1, D2);
      assert results[0] !in Ids(results[1..]);
      BindingStays(c.s, rest.s, Ids(results[1..]), results[0], kinds);
      assert Ids(results) == {results[0]} + Ids(results[1..])
        by { IdsCons(results[0], results[1..]); assert results == [results[0]] + results[1..]; }
    }
  }

  lemma {:induction false} ForFlows(op: Op, s: State, scope: set<nat>, taken: set<nat>, F: State, D: set<int>,
                                    kinds: Kinds)
    requires op.ForOp? && WfOp(op, scope, taken, kinds) && scope <= taken
    requires Available(F, s, scope, D) && Ends(s, GenFor(op, s).s, F, kinds)
    ensures Defining(F, GenFor(op, s).code, GenFor(op, s).s, Defines(op), D)
    decreases op, 1
  {
    hide Good, Extends, Flows, Advances, GenLoopEntry, GenLoopCycle, GenLoopResults, WfBlock;
    var inner, X, all := Ids([op.loopVar] + IterVars(op.iters)), RoomOf(F), GenFor(op, s);
    var h := GenLoopEntry(op, s);
    var cycle := GenLoopCycle(op, h);
    var tail := GenLoopResults(op.results, h.iters, cycle.s);
    var bs, rs := BindsOps(op.body.ops), Ids(op.results);
    LoopNames(op, scope, taken, kinds);
    OkPlain(IterInits(op.iters), scope, kinds);
    GenLoopEntryOk(op, s, kinds);
    AdvancesGood(s, h.s, inner, kinds);
    GenLoopCycleOk(op, h, scope, taken, kinds);
    AdvancesGood(h.s, cycle.s, bs, kinds);
    GenLoopResultsOk(op.results, h.iters, cycle.s, kinds);
    AdvancesTrans(h.s, cycle.s, all.s, bs, rs, kinds);
    EndsBefore(s, h.s, all.s, F, inner, bs + rs, kinds);
    EndsBefore(h.s, cycle.s, all.s, F, bs, rs, kinds);
    EntryFlows(op, s, scope, taken, F, D, kinds);
    var D1 :| D <= D1 && Flows(X, h.code, D, D1) && InFrame(X, D1) && AllIn([h.last, h.inc, h.index] + h.iters, D1) &&
      forall id <- scope + inner :: id in h.s.env && h.s.env[id] in D1;
    assert AllIn([h.last, h.inc, h.index], D1) && AllIn(h.iters, D1) by {
      assert forall r <- [h.last, h.inc, h.index] :: r in [h.last, h.inc, h.index] + h.iters;
      assert forall r <- h.iters :: r in [h.last, h.inc, h.index] + h.iters;
    }
    CycleFlows(op, h, scope, taken, F, D1, kinds);
    LoopResultsFlow(op.results, h.iters, cycle.s, F, D1, kinds);
    var D2 :| D1 <= D2 && Flows(X, tail.code, D1, D2) && InFrame(X, D2) && forall id <- rs ::
      id in tail.s.env && tail.s.env[id] in D2;
    FlowsSeq(X, h.code, cycle.code, D, D1, D1);
    FlowsSeq(X, h.code + cycle.code, tail.code, D, D1, D2);
  }

  // ---------------------------------------------------------------- entry code

  /** From D on, running the code leads to where this scope is available. */
  ghost predicate Leads(F: State, code: seq<Instr>, t: State, scope: set<nat>, D: set<int>) {
    exists D' :: D <= D' && Flows(RoomOf(F), code, D, D') && Available(F, t, scope, D')
  }

  /** A dimension is read into a new register. */
  lemma ReadDimFlows(dim: (nat, PrimExpr), shapeReg: nat, s: State, scope: set<nat>, F: State, D: set<int>,
                     kinds: Kinds)
    requires dim.1.PrimVar? && Available(F, s, scope, D) && shapeReg in D
    requires var (k, s1) := ConstReg(Int(dim.0), s); Ends(s, EmitDefine(dim.1.id, GetShapeDim, [shapeReg, k], s1).s, F,
                                                          kinds)
    ensures var (k, s1) := ConstReg(Int(dim.0), s); var c := EmitDefine(dim.1.id, GetShapeDim, [shapeReg, k], s1);
      var D' := D + {s1.next as int};
      Flows(RoomOf(F), c.code, D, D') && Available(F, c.s, scope + {dim.1.id}, D')
  {
    hide Good, Extends, Flows, Advances, EmitResult;
    var (k, s1) := ConstReg(Int(dim.0), s);
    var c := EmitDefine(dim.1.id, GetShapeDim, [shapeReg, k], s1);
    DefineIs(dim.1.id, GetShapeDim, [shapeReg, k], s1);
    ConstRegOk(Int(dim.0), s, kinds);
    AdvancesGood(s, s1, {}, kinds);
    EmitResultOk(Some(dim.1.id), Builtin, Core(GetShapeDim), [shapeReg, k], [], s1, kinds);
    EndsBefore(s, s1, c.s, F, {}, {dim.1.id}, kinds);
    ConstAvailable(Int(dim.0), s, F, kinds);
    ResultFlows(Some(dim.1.id), Builtin, Core(GetShapeDim), [shapeReg, k], [], s1, F, D, kinds);
  }

  /** Its bound, if it has one, is checked. */
  lemma {:induction false} CheckDimFlows(cs: seq<Const>, reg: nat, s: State, F: State, D: set<int>, kinds: Kinds)
    requires |cs| == 2 && (forall c <- cs :: Plain(c, kinds)) && reg in D && ConstsOf(F) <= D && InFrame(RoomOf(F), D)
    requires var (rs, s2) := ConstRegs(cs, s); Ends(s, EmitBuiltin(-1, AssertLeI64, [reg] + rs, s2).s, F, kinds)
    ensures var (rs, s2) := ConstRegs(cs, s); Flows(RoomOf(F), EmitBuiltin(-1, AssertLeI64, [reg] + rs, s2).code, D, D)
  {
    hide Good, Extends, Flows, Advances, EmitCall, ConstReg;
    var (r0, s0) := ConstReg(cs[0], s);
    var (r1, s1) := ConstReg(cs[1], s0);
    var (rs, s2) := ConstRegs(cs, s);
    TwoConsts(cs, s);
    var a := EmitBuiltin(-1, AssertLeI64, [reg] + rs, s2);
    ConstRegOk(cs[0], s, kinds);
    AdvancesGood(s, s0, {}, kinds);
    ConstRegOk(cs[1], s0, kinds);
    AdvancesGood(s0, s1, {}, kinds);
    EmitCallOk(-1, Builtin, Core(AssertLeI64), [reg] + rs, [], s2, kinds);
    AdvancesTrans(s0, s1, a.s, {}, {}, kinds);
    EndsBefore(s, s0, a.s, F, {}, {}, kinds);
    EndsBefore(s0, s1, a.s, F, {}, {}, kinds);
    ConstAvailable(cs[0], s, F, kinds);
    ConstAvailable(cs[1], s0, F, kinds);
    CallFlows(-1, Builtin, Core(AssertLeI64), [reg] + rs, [], s2, F, D, kinds);
    assert D + {} == D;
  }

  lemma {:induction false} TwoConsts(cs: seq<Const>, s: State)
    requires |cs| == 2
    ensures var (r0, s0) := ConstReg(cs[0], s); var (r1, s1) := ConstReg(cs[1], s0); ConstRegs(cs, s) == ([r0, r1], s1)
  {
    hide ConstReg;
    var (r0, s0) := ConstReg(cs[0], s);
    var (r1, s1) := ConstReg(cs[1], s0);
    var tail := cs[1..];
    assert tail[1..] == [] && tail[0] == cs[1];
    assert ConstRegs([], s1) == ([], s1);
    assert ConstRegs(tail, s0) == ([r1] + [], s1);
    assert [r1] + [] == [r1] && [r0] + [r1] == [r0, r1];
  }

  lemma DimFlows(dim: (nat, PrimExpr), shapeReg: nat, s: State, scope: set<nat>, F: State, D: set<int>, kinds: Kinds)
    requires dim.1.PrimVar? && Available(F, s, scope, D) && shapeReg in D
    requires Ends(s, GenDim(dim, shapeReg, s).s, F, kinds)
    ensures Leads(F, GenDim(dim, shapeReg, s).code, GenDim(dim, shapeReg, s).s, scope + {dim.1.id}, D)
  {
    hide Good, Extends, Flows, Advances, EmitCall, ConstReg, EmitResult, ConstRegs;
    var g := GenDim(dim, shapeReg, s);
    var (k, s1) := ConstReg(Int(dim.0), s);
    var c := EmitDefine(dim.1.id, GetShapeDim, [shapeReg, k], s1);
    DefineIs(dim.1.id, GetShapeDim, [shapeReg, k], s1);
    ConstRegOk(Int(dim.0), s, kinds);
    EmitResultOk(Some(dim.1.id), Builtin, Core(GetShapeDim), [shapeReg, k], [], s1, kinds);
    AdvancesTrans(s, s1, c.s, {}, {dim.1.id}, kinds);
    var D' := D + {s1.next as int};
    if dim.1.upper.None? {
      ReadDimFlows(dim, shapeReg, s, scope, F, D, kinds);
    } else {
      var cs := [Int(dim.1.upper.value), BoundMessage(dim.1.name, dim.1.upper.value)];
      var (rs, s2) := ConstRegs(cs, c.s);
      var a := EmitBuiltin(-1, AssertLeI64, [s1.next] + rs, s2);
      AdvancesGood(s, c.s, {} + {dim.1.id}, kinds);
      ConstRegsOk(cs, c.s, kinds);
      AdvancesGood(c.s, s2, {}, kinds);
      EmitCallOk(-1, Builtin, Core(AssertLeI64), [s1.next] + rs, [], s2, kinds);
      AdvancesTrans(c.s, s2, a.s, {}, {}, kinds);
      EndsBefore(s, c.s, a.s, F, {} + {dim.1.id}, {} + {}, kinds);
      ReadDimFlows(dim, shapeReg, s, scope, F, D, kinds);
      CheckDimFlows(cs, s1.next, c.s, F, D', kinds);
      FlowsSeq(RoomOf(F), c.code, a.code, D, D', D');
      AvailableMore(F, c.s, scope + {dim.1.id}, D', a.s, D');
    }
  }

  lemma {:induction false} DimsFlow(dims: seq<(nat, PrimExpr)>, shapeReg: nat, s: State, scope: set<nat>, F: State,
                                    D: set<int>, kinds: Kinds)
    requires (forall d <- dims :: d.1.PrimVar?) && Available(F, s, scope, D) && shapeReg in D
    requires Ends(s, GenDims(dims, shapeReg, s).s, F, kinds)
    ensures Leads(F, GenDims(dims, shapeReg, s).code, GenDims(dims, shapeReg, s).s, scope + DimIds(dims), D)
    decreases |dims|
  {
    hide Good, Extends, Flows, Advances, GenDim, Available;
    var all, X := GenDims(dims, shapeReg, s), RoomOf(F);
    InFrameOf(F, s, scope, D);
    if dims == [] {
      FlowsNone(X, D);
      assert scope + DimIds(dims) == scope;
    } else {
      var g := GenDim(dims[0], shapeReg, s);
      var gs := GenDims(dims[1..], shapeReg, g.s);
      var id := dims[0].1.id;
      GenDimOk(dims[0], shapeReg, s, kinds);
      AdvancesGood(s, g.s, {id}, kinds);
      GenDimsOk(dims[1..], shapeReg, g.s, kinds);
      EndsBefore(s, g.s, all.s, F, {id}, DimIds(dims[1..]), kinds);
      DimFlows(dims[0], shapeReg, s, scope, F, D, kinds);
      var D1 :| D <= D1 && Flows(X, g.code, D, D1) && Available(F, g.s, scope + {id}, D1);
      DimsFlow(dims[1..], shapeReg, g.s, scope + {id}, F, D1, kinds);
      var D2 :| D1 <= D2 && Flows(X, gs.code, D1, D2) && Available(F, gs.s, scope + {id} + DimIds(dims[1..]), D2);
      FlowsSeq(X, g.code, gs.code, D, D1, D2);
      DimIdsCons(dims);
      assert scope + DimIds(dims) == scope + {id} + DimIds(dims[1..]);
    }
  }

  lemma InFrameOf(F: State, s: State, scope: set<nat>, D: set<int>)
    requires Available(F, s, scope, D)
    ensures InFrame(RoomOf(F), D)
  {
  }

  lemma ParamAvailable(F: State, s: State, scope: set<nat>, D: set<int>, id: nat)
    requires Available(F, s, scope, D) && id in scope
    ensures AllIn([Lookup(s, id)], D)
  {
  }

  /** The shape of one parameter, and its dimensions. */
  lemma {:induction false} ParamFlows(params: seq<Param>, seen: set<nat>, s: State, scope: set<nat>, F: State,
                                      D: set<int>, kinds: Kinds)
    requires params != [] && Unseen(params[0], seen) != [] && params[0].id in scope && Available(F, s, scope, D)
    requires Good(s, kinds) && BuiltinKinds(kinds) && Extends(GenSetup(params, seen, s).s, F)
    ensures var unseen := Unseen(params[0], seen);
      var sh := EmitFresh(ShapeOf, [Lookup(s, params[0].id)], s); var g := GenDims(unseen, sh.reg, sh.s);
      Leads(F, sh.code + g.code, g.s, scope + DimIds(unseen), D) && Good(g.s, kinds)
  {
    hide Good, Extends, Flows, Advances, GenDims, EmitFresh, GenSetup, Available, Unseen;
    var unseen, X := Unseen(params[0], seen), RoomOf(F);
    var sh := EmitFresh(ShapeOf, [Lookup(s, params[0].id)], s);
    var g := GenDims(unseen, sh.reg, sh.s);
    SetupExtends(params, seen, s, F, kinds);
    InFrameOf(F, s, scope, D);
    ParamAvailable(F, s, scope, D, params[0].id);
    FreshFlows(ShapeOf, [Lookup(s, params[0].id)], s, F, D, kinds);
    var D1 := D + {sh.reg as int};
    EmitFreshOk(ShapeOf, [Lookup(s, params[0].id)], s, kinds);
    AvailableMore(F, s, scope, D, sh.s, D1) by { ScopeBound(F, s, scope, D); }
    DimsFlow(unseen, sh.reg, sh.s, scope, F, D1, kinds);
    var D2 :| D1 <= D2 && Flows(X, g.code, D1, D2) && Available(F, g.s, scope + DimIds(unseen), D2);
    FlowsSeq(X, sh.code, g.code, D, D1, D2);
  }

  lemma ScopeBound(F: State, s: State, scope: set<nat>, D: set<int>)
    requires Available(F, s, scope, D)
    ensures forall id <- scope :: id in s.env
  {
  }

  /** The entry code reads only parameters, and leaves every symbolic dimension in a register. */
  lemma {:induction false} SetupFlows(params: seq<Param>, seen: set<nat>, s: State, scope: set<nat>, F: State,
                                      D: set<int>, kinds: Kinds)
    requires (forall p <- params :: p.id in scope) && seen <= scope && Available(F, s, scope, D)
    requires Good(s, kinds) && BuiltinKinds(kinds) && Extends(GenSetup(params, seen, s).s, F)
    ensures Leads(F, GenSetup(params, seen, s).code, GenSetup(params, seen, s).s, scope + ShapeIds(params), D)
    decreases |params|
  {
    hide Good, Extends, Flows, GenDims, EmitFresh, GenSetup, Available, Unseen, ShapeIds;
    var all, X := GenSetup(params, seen, s), RoomOf(F);
    if params == [] {
      GenSetupNone(seen, s);
      NoShapeIds();
      InFrameOf(F, s, scope, D);
      FlowsNone(X, D);
      assert scope + ShapeIds(params) == scope;
    } else {
      var unseen := Unseen(params[0], seen);
      var ds := DimIds(unseen);
      GenSetupCons(params, seen, s);
      ShapeIdsCons(params);
      UnseenCovers(params[0], seen);
      assert params[0] in params && forall p <- params[1..] :: p in params;
      if unseen == [] {
        SetupFlows(params[1..], seen, s, scope, F, D, kinds);
        assert scope + ShapeIds(params) == scope + ShapeIds(params[1..]);
      } else {
        var sh := EmitFresh(ShapeOf, [Lookup(s, params[0].id)], s);
        var g := GenDims(unseen, sh.reg, sh.s);
        var gs := GenSetup(params[1..], seen + ds, g.s);
        ParamFlows(params, seen, s, scope, F, D, kinds);
        var D1 :| D <= D1 && Flows(X, sh.code + g.code, D, D1) && Available(F, g.s, scope + ds, D1);
        SetupFlows(params[1..], seen + ds, g.s, scope + ds, F, D1, kinds);
        var D2 :| D1 <= D2 && Flows(X, gs.code, D1, D2) && Available(F, gs.s, scope + ds + ShapeIds(params[1..]), D2);
        FlowsSeq(X, sh.code + g.code, gs.code, D, D1, D2);
        assert scope + ShapeIds(params) == scope + ds + ShapeIds(params[1..]);
      }
    }
  }

  // ---------------------------------------------------------------- whole functions

  /** What is written when a function is entered: parameters, and the preloaded constants. */
  function EntryRegs(fn: Function, F: State): set<int> {
    ConstsOf(F) + Regs(RegRange(0, |fn.params|))
  }

  lemma InRange(params: seq<Param>, k: nat)
    requires k < |params|
    ensures k in Regs(RegRange(0, |params|))
  {
    var regs := RegRange(0, |params|);
    assert regs[k] == k && k in regs;
  }

  lemma StartAvailable(fn: Function, funcs: seq<Entry>, consts: seq<Const>, F: State, kinds: Kinds)
    requires Distinct(ParamIds(fn.params)) && GoodPools(funcs, consts, kinds)
    requires Good(F, kinds) && Extends(StartState(fn, funcs, consts), F)
    ensures Available(F, StartState(fn, funcs, consts), Ids(ParamIds(fn.params)), EntryRegs(fn, F))
  {
    var s, D := StartState(fn, funcs, consts), EntryRegs(fn, F);
    assert ParamIds(fn.params)[..0] == [];
    BindParamsOk(fn.params, 0, State(0, map[], [], funcs, consts), kinds);
    forall r | r in D ensures 0 <= r < F.next {
      if r in ConstsOf(F) { var ci :| ci in F.inits && ci.reg == r; }
    }
    assert forall k: nat :: k < |fn.params| ==> RegRange(0, |fn.params|)[k] == k;
    forall id | id in Ids(ParamIds(fn.params)) ensures id in s.env && s.env[id] in D {
      var k :| 0 <= k < |fn.params| && ParamIds(fn.params)[k] == id;
      assert fn.params[k].id == id && s.env[id] == k;
      InRange(fn.params, k);
    }
  }

  /** The code of a well-formed function, in the frame it asks for: on every path from the entry,
      registers and callees exist, jumps stay inside, control never runs off the end, no preloaded
      constant is overwritten, and every register is written before it is read. */
  lemma FunctionCodeIsOk(fn: Function, funcs: seq<Entry>, consts: seq<Const>, kinds: Kinds)
    requires WfFunction(fn, kinds) && BuiltinKinds(kinds) && GoodPools(funcs, consts, kinds)
    ensures var g := GenFunction(fn, funcs, consts); PathsOk(RoomOf(g.s), g.code, EntryRegs(fn, g.s))
  {
    hide Good, Extends, Flows, WfOps, GenOps, GenSetup, Available, BindParams, PathsOk, ShapeIds, UniqueNames;
    var s := StartState(fn, funcs, consts);
    var setup := GenSetup(fn.params, {}, s);
    var body := GenOps(fn.body, setup.s);
    var F := GenFunction(fn, funcs, consts).s;
    var X, D := RoomOf(F), EntryRegs(fn, F);
    var ids := Ids(ParamIds(fn.params));
    FunctionStates(fn, funcs, consts, kinds);
    StartAvailable(fn, funcs, consts, F, kinds);
    assert forall p <- fn.params :: p.id in ids by { ParamsIn(fn.params); }
    SetupFlows(fn.params, {}, s, ids, F, D, kinds);
    var D1 :| D <= D1 && Flows(X, setup.code, D, D1) && Available(F, setup.s, EntryScope(fn), D1);
    OpsFlow(fn.body, setup.s, EntryScope(fn), EntryScope(fn), F, D1, kinds);
    var D2 :| D1 <= D2 && Flows(X, body.code, D1, D2) && InFrame(X, D2) &&
      forall id <- DefinesOps(fn.body) :: id in body.s.env && body.s.env[id] in D2;
    FlowsSeq(X, setup.code, body.code, D, D1, D2);
    ScopeBound(F, setup.s, EntryScope(fn), D1);
    ScopeStays(fn.body, setup.s, EntryScope(fn), EntryScope(fn), kinds);
    BodyAvailable(fn, setup.s, body.s, F, D1, D2);
    ReturnAvailable(fn, body.s, F, D2, kinds);
    var ret := GenReturn(fn.ret, body.s).code[0];
    EndsInReturn(X, setup.code + body.code, ret.src, D, D2);
    assert GenFunction(fn, funcs, consts).code == setup.code + body.code + [RetInstr(ret.src)];
  }

  lemma ParamsIn(params: seq<Param>)
    ensures forall p <- params :: p.id in Ids(ParamIds(params))
  {
    forall p | p in params ensures p.id in Ids(ParamIds(params)) {
      var k :| 0 <= k < |params| && params[k] == p;
      assert ParamIds(params)[k] == p.id;
    }
  }

  lemma BodyAvailable(fn: Function, s: State, t: State, F: State, D: set<int>, D': set<int>)
    requires Available(F, s, EntryScope(fn), D) && D <= D' && InFrame(RoomOf(F), D')
    requires forall id <- EntryScope(fn) :: id in t.env && t.env[id] == s.env[id]
    requires forall id <- DefinesOps(fn.body) :: id in t.env && t.env[id] in D'
    ensures Available(F, t, EntryScope(fn) + DefinesOps(fn.body), D')
  {
  }

  lemma ReturnAvailable(fn: Function, s: State, F: State, D: set<int>, kinds: Kinds)
    requires OkValues(fn.ret, EntryScope(fn) + DefinesOps(fn.body), kinds)
    requires Available(F, s, EntryScope(fn) + DefinesOps(fn.body), D)
    requires Good(s, kinds) && BuiltinKinds(kinds) && F == GenReturn(fn.ret, s).s
    ensures var i := GenReturn(fn.ret, s).code[0];
      GenReturn(fn.ret, s).code == [RetInstr(i.src)] && (i.src >= 0 ==> i.src in D)
  {
    if fn.ret != [] {
      ExtendsRefl(F);
      RegAvailable(fn.ret[0], s, EntryScope(fn) + DefinesOps(fn.body), F, D, kinds);
    }
  }

  // ---------------------------------------------------------------- modules

  /** The frame of a function of an executable, and its part of the instructions. */
  function FrameOf(e: Entry, funcs: nat): Room
    requires 0 <= e.numRegs
  {
    Room(set ci <- e.inits :: ci.reg, e.numRegs, funcs)
  }

  function WrittenAtEntry(e: Entry): set<int>
    requires 0 <= e.numArgs
  {
    (set ci <- e.inits :: ci.reg) + Regs(RegRange(0, e.numArgs))
  }

  ghost predicate EntryOk(exe: Program, e: Entry) {
    && 0 <= e.instrOffset && 0 < e.instrCount && e.instrOffset + e.instrCount <= |exe.instrs|
    && 0 <= e.numRegs && 0 <= e.numArgs
    && PathsOk(FrameOf(e, |exe.funcs|), exe.instrs[e.instrOffset..e.instrOffset + e.instrCount], WrittenAtEntry(e))
  }

  /** More callees do no harm. */
  lemma MoreFuncs(X: Room, funcs: nat, code: seq<Instr>, D: set<int>)
    requires PathsOk(X, code, D) && X.funcs <= funcs
    ensures PathsOk(X.(funcs := funcs), code, D)
  {
    forall p | IsPath(code, p)
      ensures var i := code[p[|p| - 1]];
        InstrOk(X.(funcs := funcs), i) && Uses(i) <= Written(code, p, D) && InFrame(X.(funcs := funcs), Uses(i)) &&
        Inside(Nexts(i, p[|p| - 1]), |code|)
    {
      assert InstrOk(X, code[p[|p| - 1]]);
    }
  }

  lemma EndsInCode(fn: Function, funcs: seq<Entry>, consts: seq<Const>)
    ensures |GenFunction(fn, funcs, consts).code| > 0
  {
    hide GenSetup, GenOps, BindParams, RegOf;
  }

  lemma AddedIsOk(name: string, fn: Function, exe: Program, kinds: Kinds)
    requires WfFunction(fn, kinds) && BuiltinKinds(kinds) && GoodPools(exe.funcs, exe.consts, kinds)
    ensures var exe' := AddFunction(name, fn, exe); EntryOk(exe', exe'.funcs[|exe'.funcs| - 1])
  {
    hide PathsOk, WfFunction, GenFunction;
    var g := GenFunction(fn, exe.funcs, exe.consts);
    var exe' := AddFunction(name, fn, exe);
    FunctionCodeIsOk(fn, exe.funcs, exe.consts, kinds);
    EndsInCode(fn, exe.funcs, exe.consts);
    MoreFuncs(RoomOf(g.s), |exe'.funcs|, g.code, EntryRegs(fn, g.s));
    assert exe'.instrs[|exe.instrs|..|exe.instrs| + |g.code|] == g.code;
  }

  lemma StillOk(exe: Program, exe': Program, e: Entry)
    requires EntryOk(exe, e) && PC.Contains(exe', exe)
    ensures EntryOk(exe', e)
  {
    hide PathsOk;
    var a, b := e.instrOffset, e.instrOffset + e.instrCount;
    assert exe'.instrs[a..b] == exe.instrs[a..b];
    MoreFuncs(FrameOf(e, |exe.funcs|), |exe'.funcs|, exe.instrs[a..b], WrittenAtEntry(e));
  }

  /** Every function of a compiled module is statically well formed where it lies in the executable. */
  lemma {:induction false} CompiledFunctionsAreOk(fns: seq<PC.Named>, k: nat, kinds: Kinds)
    requires PC.WfModule(fns, kinds) && k < |fns|
    ensures var exe := PC.CompileModule(fns); var f := FindFunc(exe.funcs, Builtins.Named(fns[k].name), 0);
      f < |exe.funcs| && EntryOk(exe, exe.funcs[f])
  {
    hide WfFunction, EntryOk, AddFunction, PC.GoodProgram;
    var exe, before, f := PC.CompileModule(fns), fns[..k], fns[k];
    PC.PrefixWf(fns, k, kinds);
    PC.CompileModuleOk(before, kinds);
    PC.CompileModuleOk(fns, kinds);
    PC.CompilePrefix(fns, k + 1, kinds);
    assert fns[..k + 1][..k] == before && fns[..k + 1][k] == f;
    var part := PC.CompileModule(before);
    var exe' := AddFunction(f.name, f.fn, part);
    PoolsOf(before, part, kinds);
    PoolsOf(fns, exe, kinds);
    AddedIsOk(f.name, f.fn, part, kinds);
    LastName(f.name, f.fn, part);
    var i := |exe'.funcs| - 1;
    StillOk(exe', exe, exe'.funcs[i]);
    assert exe.funcs[i] == exe'.funcs[i];
    PC.FoundAt(exe.funcs, i);
  }

  lemma PoolsOf(fns: seq<PC.Named>, exe: Program, kinds: Kinds)
    requires PC.GoodProgram(fns, exe, kinds)
    ensures GoodPools(exe.funcs, exe.consts, kinds) && UniqueNames(exe.funcs)
  {
  }

  lemma LastName(name: string, fn: Function, exe: Program)
    ensures var exe' := AddFunction(name, fn, exe);
      |exe'.funcs| > 0 && exe'.funcs[|exe'.funcs| - 1].name == Builtins.Named(name)
  {
    hide GenFunction;
  }
}

/** Code generation as it is done: one context object per function, one growing instruction list,
    jumps patched once their target is known (python/devproc2/compiler/passes/vm_codegen.py,
    python/devproc2/compiler/passes/shape_expr_lowering.py).

    Every method is proved to produce exactly the fragment CodegenSpec gives, and to raise exactly
    when the op does not compile. */
module Codegen {
  import opened Bytecode
  import opened Runtime
  import opened Builtins
  import opened PrimExprs
  import opened IRValues
  import opened MemoryIR
  import opened CodegenSpec
  import ModuleForm

  // ---------------------------------------------------------------- unfolding the specification

  lemma {:induction false} GenArgsCons(a: Arg, rest: seq<Arg>, s: State)
    ensures var g := GenArg(a, s); var gs := GenArgs(rest, g.s);
      GenArgs([a] + rest, s) == RegsGen([g.reg] + gs.regs, g.code + gs.code, gs.s)
  {
    assert ([a] + rest)[1..] == rest;
  }

  lemma {:induction false} GenArgsAppend(a: seq<Arg>, b: seq<Arg>, s: State)
    ensures var g := GenArgs(a, s); var h := GenArgs(b, g.s);
      GenArgs(a + b, s) == RegsGen(g.regs + h.regs, g.code + h.code, h.s)
    decreases |a|
  {
    hide GenArg, GenArgs;
    if a == [] {
      assert a + b == b;
      GenArgsNone(s);
    } else {
      var x, rest := GenArg(a[0], s), a[1..];
      assert a == [a[0]] + rest && a + b == [a[0]] + (rest + b);
      GenArgsCons(a[0], rest, s);
      GenArgsCons(a[0], rest + b, s);
      GenArgsAppend(rest, b, x.s);
    }
  }

  /** Three call arguments, in order. */
  lemma {:induction false} GenArgs3(a: Arg, b: Arg, c: Arg, s: State)
    ensures var x := GenArg(a, s); var y := GenArg(b, x.s); var z := GenArg(c, y.s);
      GenArgs([a, b, c], s) == RegsGen([x.reg, y.reg, z.reg], x.code + y.code + z.code, z.s)
  {
    hide GenArg, GenArgs;
    var x := GenArg(a, s);
    var y := GenArg(b, x.s);
    var z := GenArg(c, y.s);
    GenArgsNone(z.s);
    GenArgsCons(a, [b, c], s);
    GenArgsCons(b, [c], x.s);
    GenArgsCons(c, [], y.s);
    assert [a, b, c] == [a] + [b, c] && [b, c] == [b] + [c] && [c] == [c] + [];
    assert x.code + (y.code + (z.code + [])) == x.code + y.code + z.code;
  }

  lemma {:induction false} GenArgsNone(s: State)
    ensures GenArgs([], s) == RegsGen([], [], s)
  {
  }

  lemma Appended(before: seq<Instr>, a: seq<Instr>, b: seq<Instr>)
    ensures before + a + b == before + (a + b)
  {
  }

  lemma {:induction false} ExprArg(e: PrimExpr, s: State)
    ensures GenArg(AExpr(e), s) == Materialize(e, s)
  {
  }

  /** A combined expression: left, right, then the builtin into a fresh register. */
  lemma {:induction false} MaterializeBin(e: PrimExpr, s: State, bound: set<nat>)
    requires e.Bin?
    ensures BoundPrim(e, bound) <==> BuiltinOf(e.op).Some? && BoundPrim(e.lhs, bound) && BoundPrim(e.rhs, bound)
    ensures BuiltinOf(e.op).Some? ==>
      var gl := Materialize(e.lhs, s);
      var gr := Materialize(e.rhs, gl.s);
      var g := EmitFresh(BuiltinOf(e.op).value, [gl.reg, gr.reg], gr.s);
      Materialize(e, s) == RegGen(g.reg, gl.code + gr.code + g.code, g.s)
  {
  }

  lemma {:induction false} MaterializeLeaf(e: PrimExpr, s: State, bound: set<nat>)
    ensures e.IntImm? ==>
      BoundPrim(e, bound) && Materialize(e, s) == RegGen(ConstReg(Int(e.value), s).0, [], ConstReg(Int(e.value), s).1)
    ensures e.PrimVar? ==>
      (BoundPrim(e, bound) <==> e.id in bound) && Materialize(e, s) == RegGen(Lookup(s, e.id), [], s)
  {
  }

  lemma {:induction false} MaterializeAllFrom(es: seq<PrimExpr>, k: nat, s: State)
    requires k < |es|
    ensures var g := Materialize(es[k], s); var gs := MaterializeAll(es[k + 1..], g.s);
      MaterializeAll(es[k..], s) == RegsGen([g.reg] + gs.regs, g.code + gs.code, gs.s)
  {
    assert es[k..][1..] == es[k + 1..];
  }

  lemma {:induction false} MaterializeAllNone(s: State)
    ensures MaterializeAll([], s) == RegsGen([], [], s)
  {
  }

  /** An op that is one builtin call: its arguments, then the call. */
  lemma {:induction false} CoreGen(res: Option<nat>, b: CoreBuiltin, args: seq<Arg>, s: State)
    ensures var g := GenArgs(args, s); var call := EmitResult(res, Builtin, Core(b), g.regs, [], g.s);
      GenCall(CoreCall(res, b, args), s) == Gen(g.code + call.code, call.s)
  {
    hide GenArgs, EmitResult;
    GenArgsNone(GenArgs(args, s).s);
    assert GenArgs(args, s).code + [] == GenArgs(args, s).code;
  }

  /** Looking a name up again finds the same entry. */
  lemma InternAgain(funcs: seq<Entry>, name: Name, kind: CalleeKind)
    ensures var (table, i) := InternFunc(funcs, name, kind);
      InternFunc(table, name, kind) == (table, i)
  {
    var (table, i) := InternFunc(funcs, name, kind);
    var j := FindFunc(table, name, 0);
    assert table[i].name == name;
    if j < i { assert table[j] == funcs[j]; }
  }

  lemma {:induction false} GenArgsEnv(args: seq<Arg>, s: State)
    ensures GenArgs(args, s).s.env == s.env
  {
    if args != [] {
      GenArgEnv(args[0], s);
      GenArgsEnv(args[1..], GenArg(args[0], s).s);
    }
  }

  lemma GenArgEnv(a: Arg, s: State)
    ensures GenArg(a, s).s.env == s.env
  {
    match a
    case AShape(shape) => MaterializeAllEnv(shape, s);
    case AExpr(e) => MaterializeEnv(e, s);
    case _ =>
  }

  lemma {:induction false} MaterializeEnv(e: PrimExpr, s: State)
    ensures Materialize(e, s).s.env == s.env
  {
    if e.Bin? {
      MaterializeEnv(e.lhs, s);
      MaterializeEnv(e.rhs, Materialize(e.lhs, s).s);
    }
  }

  lemma {:induction false} MaterializeAllEnv(es: seq<PrimExpr>, s: State)
    ensures MaterializeAll(es, s).s.env == s.env
  {
    if es != [] {
      MaterializeEnv(es[0], s);
      MaterializeAllEnv(es[1..], Materialize(es[0], s).s);
    }
  }

  /** A straight-line op binds its result and nothing else. */
  lemma {:induction false} SimpleBinds(op: Op, s: State)
    requires !op.IfOp? && !op.ForOp?
    ensures GenSimple(op, s).s.env.Keys == s.env.Keys + Binds(op)
  {
    hide GenArgs;
    var c := CallOf(op);
    GenArgsEnv(c.args, s);
    GenArgsEnv(c.launch, GenArgs(c.args, s).s);
    assert c.res == match op
      case AllocStorageOp(res, _, _, _, _) => Some(res)
      case AllocTensorOp(res, _, _, _, _) => Some(res)
      case TensorViewOp(res, _, _, _, _, _) => Some(res)
      case TupleOp(res, _) => Some(res)
      case TupleGetItemOp(res, _, _) => Some(res)
      case _ => None;
  }

  /** Filling in one instruction of a list. */
  lemma Patch(a: seq<Instr>, i: Instr, b: seq<Instr>, i': Instr)
    ensures |a| < |a + [i] + b| && (a + [i] + b)[|a|] == i && (a + [i] + b)[|a| := i'] == a + [i'] + b
  {
  }

  lemma {:induction false} GenCopiesFrom(dsts: seq<nat>, vals: seq<Value>, k: nat, s: State)
    requires k < |dsts| && k < |vals|
    ensures var (r, s1) := RegOf(vals[k], s);
      var c := EmitBuiltin(dsts[k], Identity, [r], s1);
      var rest := GenCopies(dsts[k + 1..], vals[k + 1..], c.s);
      GenCopies(dsts[k..], vals[k..], s) == Gen(c.code + rest.code, rest.s)
  {
    hide RegOf, EmitBuiltin;
    assert dsts[k..][1..] == dsts[k + 1..] && vals[k..][1..] == vals[k + 1..];
  }

  lemma {:induction false} GenCopiesNone(dsts: seq<nat>, vals: seq<Value>, s: State)
    requires dsts == [] || vals == []
    ensures GenCopies(dsts, vals, s) == Gen([], s)
  {
  }

  lemma IfPatched(before: seq<Instr>, c: nat, thn: seq<Instr>)
    ensures var blank := before + [IfInstr(c, 1, 0)] + thn;
      blank[|before|] == IfInstr(c, 1, 0) &&
      blank[|before| := IfInstr(c, 1, |thn| + 1)] == before + ([IfInstr(c, 1, |thn| + 1)] + thn)
  {
  }

  lemma IfElsePatched(before: seq<Instr>, c: nat, thn: seq<Instr>, els: seq<Instr>)
    ensures var blank := before + [IfInstr(c, 1, 0)] + thn + [GotoInstr(0)];
      blank[|before|] == IfInstr(c, 1, 0) &&
      var half := blank[|before| := IfInstr(c, 1, |thn| + 2)] + els;
      half[|before| + 1 + |thn|] == GotoInstr(0) &&
      half[|before| + 1 + |thn| := GotoInstr(|els| + 1)] ==
        before + ([IfInstr(c, 1, |thn| + 2)] + thn + [GotoInstr(|els| + 1)] + els)
  {
  }

  lemma {:induction false} CompilesIf(op: Op, bound: set<nat>)
    requires op.IfOp?
    ensures Compiles(op, bound) <==>
      (op.results != [] ==> op.els.Some?) && BoundValue(op.cond, bound) &&
      CompilesBlock(op.thn, |op.results|, bound + Ids(op.results)) &&
      (op.els.Some? ==> CompilesBlock(op.els.value, |op.results|, bound + Ids(op.results) + BindsOps(op.thn.ops)))
    ensures Binds(op) == Ids(op.results) + BindsOps(op.thn.ops) +
      (if op.els.Some? then BindsOps(op.els.value.ops) else {})
  {
  }

  /** The code of a conditional, from that of its branches. */
  lemma {:induction false} GenIfIs(op: Op, s: State)
    requires op.IfOp?
    ensures var (c, s1) := RegOf(op.cond, s); var dsts := RegRange(s1.next, |op.results|);
      var thn := GenBranch(op.thn, dsts, AllocBindAll(op.results, s1));
      GenIf(op, s) ==
      if op.els.None? then Gen([IfInstr(c, 1, |thn.code| + 1)] + thn.code, thn.s)
      else
        var els := GenBranch(op.els.value, dsts, thn.s);
        Gen([IfInstr(c, 1, |thn.code| + 2)] + thn.code + [GotoInstr(|els.code| + 1)] + els.code, els.s)
  {
  }

  ghost predicate EntryCompiles(op: Op, bound: set<nat>)
    requires op.ForOp?
  {
    IntegralBound(op.start) && IntegralBound(op.end) && IntegralBound(op.step) &&
    BoundValue(op.start, bound) && BoundValue(op.end, bound) && BoundValue(op.step, bound) &&
    InitsBound(op.iters, bound + {op.loopVar})
  }

  lemma {:induction false} CompilesFor(op: Op, bound: set<nat>)
    requires op.ForOp?
    ensures Compiles(op, bound) <==>
      EntryCompiles(op, bound) && CompilesBlock(op.body, |op.iters|, bound + {op.loopVar} + Ids(IterVars(op.iters))) &&
      |op.results| <= |op.iters|
    ensures Binds(op) == {op.loopVar} + Ids(IterVars(op.iters)) + BindsOps(op.body.ops) + Ids(op.results)
  {
  }

  lemma {:induction false} GenItersCount(iters: seq<IterArg>, s: State)
    ensures |GenIters(iters, s).regs| == |iters|
    decreases |iters|
  {
    if iters != [] {
      var (r, s1) := RegOf(iters[0].init, AllocBind(s, iters[0].v));
      GenItersCount(iters[1..], EmitBuiltin(s.next, Identity, [r], s1).s);
    }
  }

  lemma EntryCount(op: Op, s: State)
    requires op.ForOp?
    ensures |GenLoopEntry(op, s).iters| == |op.iters|
  {
    var s3 := BoundReg(op.step, BoundReg(op.end, BoundReg(op.start, s).1).1).1;
    GenItersCount(op.iters, EmitBuiltin(s3.next, Identity, [BoundReg(op.start, s).0], AllocBind(s3, op.loopVar)).s);
  }

  lemma {:induction false} GenItersFrom(iters: seq<IterArg>, k: nat, s: State, bound: set<nat>)
    requires k < |iters|
    ensures var (r, s1) := RegOf(iters[k].init, AllocBind(s, iters[k].v));
      var c := EmitBuiltin(s.next, Identity, [r], s1);
      var rest := GenIters(iters[k + 1..], c.s);
      GenIters(iters[k..], s) == RegsGen([s.next] + rest.regs, c.code + rest.code, rest.s) && c.s.env == s1.env
    ensures InitsBound(iters[k..], bound) <==>
      BoundValue(iters[k].init, bound + {iters[k].v}) && InitsBound(iters[k + 1..], bound + {iters[k].v})
    ensures Ids(IterVars(iters[k..])) == {iters[k].v} + Ids(IterVars(iters[k + 1..]))
  {
    hide RegOf, EmitCall;
    assert iters[k..][1..] == iters[k + 1..];
    EmitKeepsEnv(s.next, Identity, [RegOf(iters[k].init, AllocBind(s, iters[k].v)).0],
                 RegOf(iters[k].init, AllocBind(s, iters[k].v)).1);
    assert IterVars(iters[k..]) == [iters[k].v] + IterVars(iters[k + 1..]);
  }

  lemma RegsGenAssoc(regs: seq<nat>, code: seq<Instr>, reg: nat, more: seq<Instr>, rest: RegsGen)
    ensures RegsGen(regs + ([reg] + rest.regs), code + (more + rest.code), rest.s) ==
            RegsGen(regs + [reg] + rest.regs, code + more + rest.code, rest.s)
  {
    assert regs + ([reg] + rest.regs) == regs + [reg] + rest.regs;
    assert code + (more + rest.code) == code + more + rest.code;
  }

  lemma EmitKeepsEnv(dst: int, b: CoreBuiltin, args: seq<nat>, s: State)
    ensures EmitBuiltin(dst, b, args, s).s.env == s.env
  {
  }

  lemma {:induction false} GenItersNone(s: State, bound: set<nat>)
    ensures GenIters([], s) == RegsGen([], [], s) && InitsBound([], bound) && Ids(IterVars([])) == {}
  {
  }

  lemma FreshKeeps(b: CoreBuiltin, args: seq<nat>, s: State)
    ensures EmitFresh(b, args, s).s.env == s.env && |EmitFresh(b, args, s).code| == 1
  {
  }

  lemma BuiltinKeeps(dst: int, b: CoreBuiltin, args: seq<nat>, s: State)
    ensures EmitBuiltin(dst, b, args, s).s.env == s.env && |EmitBuiltin(dst, b, args, s).code| == 1
  {
  }

  lemma DefineBinds(id: nat, b: CoreBuiltin, args: seq<nat>, s: State)
    ensures EmitDefine(id, b, args, s).s.env.Keys == s.env.Keys + {id}
  {
  }

  lemma IdsPrefix(ids: seq<nat>, k: nat)
    requires k < |ids|
    ensures Ids(ids[..k + 1]) == Ids(ids[..k]) + {ids[k]}
    ensures Ids(ids[..|ids|]) == Ids(ids) && Ids(ids[..0]) == {}
  {
    assert ids[..k + 1] == ids[..k] + [ids[k]];
    assert ids[..|ids|] == ids;
  }

  lemma {:induction false} GenOpsFrom(ops: seq<Op>, k: nat, s: State, bound: set<nat>)
    requires k < |ops|
    ensures var g := GenOp(ops[k], s); var gs := GenOps(ops[k + 1..], g.s);
      GenOps(ops[k..], s) == Gen(g.code + gs.code, gs.s)
    ensures CompilesOps(ops[k..], bound) <==>
      Compiles(ops[k], bound) && CompilesOps(ops[k + 1..], bound + Binds(ops[k]))
    ensures BindsOps(ops[k..]) == Binds(ops[k]) + BindsOps(ops[k + 1..])
  {
    assert ops[k..][1..] == ops[k + 1..];
  }

  lemma {:induction false} GenOpsNone(s: State, bound: set<nat>)
    ensures GenOps([], s) == Gen([], s) && CompilesOps([], bound) && BindsOps([]) == {}
  {
  }

  // ---------------------------------------------------------------- the executable under construction

  class ExecBuilder {
    var funcs: seq<Entry>
    var instrs: seq<Instr>
    var consts: seq<Const>

    constructor ()
      ensures Exe() == Executable([], [], [])
    {
      funcs, instrs, consts := [], [], [];
    }

    function Exe(): Program
      reads this
    {
      Executable(funcs, instrs, consts)
    }
  }

  // ---------------------------------------------------------------- the per-function context

  class FnCtx {
    const exec: ExecBuilder
    var valueReg: map<nat, nat>
    var instrs: seq<Instr>
    var nextReg: nat
    var constInits: seq<ConstInit>

    constructor (exec: ExecBuilder)
      ensures this.exec == exec && instrs == [] && S() == State(0, map[], [], exec.funcs, exec.consts)
    {
      this.exec := exec;
      valueReg, instrs, nextReg, constInits := map[], [], 0, [];
    }

    function S(): State
      reads this, exec
    {
      State(nextReg, valueReg, constInits, exec.funcs, exec.consts)
    }

    method AllocReg() returns (r: nat)
      modifies this`nextReg
      ensures r == old(nextReg) && S() == Alloc(old(S()))
    {
      r := nextReg;
      nextReg := nextReg + 1;
    }

    method Bind(id: nat, reg: nat)
      modifies this`valueReg
      ensures S() == BindReg(old(S()), id, reg)
    {
      valueReg := valueReg[id := reg];
    }

    /** First pooled constant of the same type and value, or a new one. */
    method InternConst(c: Const) returns (i: nat)
      modifies exec`consts
      ensures (exec.consts, i) == CodegenSpec.InternConst(old(exec.consts), c)
    {
      i := 0;
      while i < |exec.consts|
        invariant i <= |exec.consts| && FindConst(exec.consts, c, 0) == FindConst(exec.consts, c, i)
        invariant exec.consts == old(exec.consts)
      {
        if SameConst(exec.consts[i], c) { return; }
        i := i + 1;
      }
      exec.consts := exec.consts + [c];
    }

    method RegForConst(c: Const) returns (r: nat)
      modifies this`nextReg, this`constInits, exec`consts
      ensures (r, S()) == ConstReg(c, old(S()))
    {
      var i := InternConst(c);
      r := AllocReg();
      constInits := constInits + [ConstInit(r, i)];
    }

    method RegForInt(i: int) returns (r: nat)
      modifies this`nextReg, this`constInits, exec`consts
      ensures GenArg(AInt(i), old(S())) == RegGen(r, [], S())
    {
      r := RegForConst(Int(i));
    }

    method RegOf(v: Value) returns (ok: bool, r: nat)
      modifies this`nextReg, this`constInits, exec`consts
      ensures ok <==> BoundValue(v, valueReg.Keys)
      ensures ok ==> (r, S()) == CodegenSpec.RegOf(v, old(S()))
      ensures ok ==> GenArg(AVal(v), old(S())) == RegGen(r, [], S())
    {
      ok, r := true, 0;
      match v {
        case Imm(c) => r := RegForConst(c);
        case Var(id, _) => if id in valueReg { r := valueReg[id]; } else { ok := false; }
        case Res(id) => if id in valueReg { r := valueReg[id]; } else { ok := false; }
      }
    }

    method Emit(i: Instr) returns (idx: nat)
      modifies this`instrs
      ensures idx == |old(instrs)| && instrs == old(instrs) + [i]
    {
      idx := |instrs|;
      instrs := instrs + [i];
    }

    method EmitPlaceholder(op: Opcode) returns (idx: nat)
      modifies this`instrs
      ensures idx == |old(instrs)| && instrs == old(instrs) + [Blank(op)]
    {
      idx := Emit(Blank(op));
    }

    /** The entry of an external callee, by name alone; created when new. */
    method InternFunc(name: Name, kind: CalleeKind) returns (i: nat)
      modifies exec`funcs
      ensures (exec.funcs, i) == CodegenSpec.InternFunc(old(exec.funcs), name, kind)
    {
      i := 0;
      while i < |exec.funcs|
        invariant i <= |exec.funcs| && FindFunc(exec.funcs, name, 0) == FindFunc(exec.funcs, name, i)
        invariant exec.funcs == old(exec.funcs)
      {
        if exec.funcs[i].name == name { return; }
        i := i + 1;
      }
      exec.funcs := exec.funcs + [External(name, kind)];
    }

    /** A call of an external callee. */
    method EmitCall(dst: int, kind: CalleeKind, name: Name, args: seq<nat>, launch: seq<nat>)
      modifies this`instrs, exec`funcs
      ensures var g := CodegenSpec.EmitCall(dst, kind, name, args, launch, old(S()));
        instrs == old(instrs) + g.code && S() == g.s
    {
      var f := InternFunc(name, kind);
      var _ := Emit(CallInstr(dst, f, args, launch));
    }

    method EmitBuiltin(dst: int, b: CoreBuiltin, args: seq<nat>)
      modifies this`instrs, exec`funcs
      ensures var g := CodegenSpec.EmitBuiltin(dst, b, args, old(S()));
        instrs == old(instrs) + g.code && S() == g.s
    {
      EmitCall(dst, Builtin, Core(b), args, []);
    }

    method EmitFresh(b: CoreBuiltin, args: seq<nat>) returns (r: nat)
      modifies this`instrs, this`nextReg, exec`funcs
      ensures var g := CodegenSpec.EmitFresh(b, args, old(S()));
        r == g.reg && instrs == old(instrs) + g.code && S() == g.s
    {
      r := AllocReg();
      EmitBuiltin(r, b, args);
    }

    /** Allocates the result register, binds it, then emits the call into it. */
    method EmitDefine(id: nat, b: CoreBuiltin, args: seq<nat>)
      modifies this`instrs, this`nextReg, this`valueReg, exec`funcs
      ensures var g := CodegenSpec.EmitDefine(id, b, args, old(S()));
        instrs == old(instrs) + g.code && S() == g.s
    {
      var r := AllocReg();
      Bind(id, r);
      EmitBuiltin(r, b, args);
    }

    // -------------------------------------------------------------- symbolic expressions

    method Materialize(e: PrimExpr) returns (ok: bool, r: nat)
      modifies this`instrs, this`nextReg, this`constInits, exec`funcs, exec`consts
      ensures ok <==> BoundPrim(e, valueReg.Keys)
      ensures ok ==> var g := CodegenSpec.Materialize(e, old(S()));
        r == g.reg && instrs == old(instrs) + g.code && S() == g.s
      decreases e
    {
      hide CodegenSpec.Materialize, BoundPrim, CodegenSpec.EmitFresh, ConstReg;
      ok, r := true, 0;
      MaterializeLeaf(e, S(), valueReg.Keys);
      match e {
        case IntImm(i) => r := RegForConst(Int(i));
        case PrimVar(id, _, _) => if id in valueReg { r := valueReg[id]; } else { ok := false; }
        case Bin(op, lhs, rhs) =>
          MaterializeBin(e, S(), valueReg.Keys);
          var b := BuiltinOf(op);
          if b.None? { ok := false; return; }
          var left, right;
          ok, left := Materialize(lhs);
          if !ok { return; }
          ok, right := Materialize(rhs);
          if !ok { return; }
          r := EmitFresh(b.value, [left, right]);
      }
    }

    method MaterializeAll(es: seq<PrimExpr>) returns (ok: bool, rs: seq<nat>)
      modifies this`instrs, this`nextReg, this`constInits, exec`funcs, exec`consts
      ensures ok <==> BoundPrims(es, valueReg.Keys)
      ensures ok ==> var g := CodegenSpec.MaterializeAll(es, old(S()));
        rs == g.regs && instrs == old(instrs) + g.code && S() == g.s
    {
      hide CodegenSpec.Materialize, CodegenSpec.MaterializeAll, BoundPrim;
      ok, rs := true, [];
      ghost var code: seq<Instr> := [];
      assert es[0..] == es;
      for k := 0 to |es|
        modifies this`instrs, this`nextReg, this`constInits, exec`funcs, exec`consts
        invariant forall j :: 0 <= j < k ==> BoundPrim(es[j], valueReg.Keys)
        invariant instrs == old(instrs) + code
        invariant var rest := CodegenSpec.MaterializeAll(es[k..], S());
          CodegenSpec.MaterializeAll(es, old(S())) == RegsGen(rs + rest.regs, code + rest.code, rest.s)
      {
        MaterializeAllFrom(es, k, S());
        ghost var g := CodegenSpec.Materialize(es[k], S());
        var r;
        ok, r := Materialize(es[k]);
        if !ok { return; }
        rs, code := rs + [r], code + g.code;
      }
      assert es[|es|..] == [];
      MaterializeAllNone(S());
      assert rs + [] == rs && code + [] == code;
    }

    /** A shape tuple, made from its dimensions. */
    method LowerShape(shape: seq<PrimExpr>) returns (ok: bool, r: nat)
      modifies this`instrs, this`nextReg, this`constInits, exec`funcs, exec`consts
      ensures ok <==> BoundPrims(shape, valueReg.Keys)
      ensures ok ==> var g := GenArg(AShape(shape), old(S()));
        r == g.reg && instrs == old(instrs) + g.code && S() == g.s
    {
      var dims;
      r := 0;
      ok, dims := MaterializeAll(shape);
      if ok { r := EmitFresh(MakeShape, dims); }
    }

    // -------------------------------------------------------------- straight-line ops

    method RegsOf(vs: seq<Value>) returns (ok: bool, rs: seq<nat>)
      modifies this`nextReg, this`constInits, exec`consts
      ensures ok <==> BoundValues(vs, valueReg.Keys)
      ensures ok ==> GenArgs(Values(vs), old(S())) == RegsGen(rs, [], S())
    {
      ok, rs := true, [];
      ghost var args := Values(vs);
      assert args[0..] == args;
      for k := 0 to |vs|
        modifies this`nextReg, this`constInits, exec`consts
        invariant forall j :: 0 <= j < k ==> BoundValue(vs[j], valueReg.Keys)
        invariant var rest := GenArgs(args[k..], S());
          GenArgs(args, old(S())) == RegsGen(rs + rest.regs, rest.code, rest.s)
      {
        assert args[k..][1..] == args[k + 1..];
        var r;
        ok, r := RegOf(vs[k]);
        if !ok { return; }
        rs := rs + [r];
      }
    }

    method LowerAllocStorage(op: Op) returns (ok: bool)
      requires op.AllocStorageOp?
      modifies this, exec`funcs, exec`consts
      ensures ok <==> Compiles(op, old(valueReg).Keys)
      ensures ok ==> var g := GenSimple(op, old(S())); instrs == old(instrs) + g.code && S() == g.s
    {
      hide GenArg, GenArgs, CodegenSpec.Materialize;
      var size;
      ok, size := Materialize(op.size);
      if !ok { return; }
      ghost var s1 := S();
      var alignment := RegForInt(op.alignment);
      var devType := RegForInt(op.devType);
      var devId := RegForInt(op.devId);
      ghost var s2, done := S(), instrs;
      EmitDefine(op.res, AllocStorage, [size, alignment, devType, devId]);
      CoreGen(Some(op.res), AllocStorage, CallOf(op).args, old(S()));
      ExprArg(op.size, old(S()));
      GenArgsCons(AExpr(op.size), [AInt(op.alignment), AInt(op.devType), AInt(op.devId)], old(S()));
      GenArgs3(AInt(op.alignment), AInt(op.devType), AInt(op.devId), s1);
      assert [AExpr(op.size)] + [AInt(op.alignment), AInt(op.devType), AInt(op.devId)] == CallOf(op).args;
      assert GenArgs(CallOf(op).args, old(S())).regs == [size, alignment, devType, devId];
      assert done == old(instrs) + GenArgs(CallOf(op).args, old(S())).code;
      Appended(old(instrs), GenArgs(CallOf(op).args, old(S())).code,
               CodegenSpec.EmitDefine(op.res, AllocStorage, [size, alignment, devType, devId], s2).code);
    }

    method LowerAllocTensor(op: Op) returns (ok: bool)
      requires op.AllocTensorOp?
      modifies this, exec`funcs, exec`consts
      ensures ok <==> Compiles(op, old(valueReg).Keys)
      ensures ok ==> var g := GenSimple(op, old(S())); instrs == old(instrs) + g.code && S() == g.s
    {
      hide GenArg, GenArgs, CodegenSpec.Materialize;
      var storage, shape;
      ok, storage := RegOf(op.storage);
      if !ok { return; }
      var offset := RegForInt(op.offset);
      ok, shape := LowerShape(op.shape);
      if !ok { return; }
      ghost var s1 := S();
      var code := RegForInt(op.dtype.code);
      var bits := RegForInt(op.dtype.bits);
      var lanes := RegForInt(op.dtype.lanes);
      ghost var s2, done := S(), instrs;
      EmitDefine(op.res, AllocTensor, [storage, offset, shape, code, bits, lanes]);
      CoreGen(Some(op.res), AllocTensor, CallOf(op).args, old(S()));
      GenArgs3(AVal(op.storage), AInt(op.offset), AShape(op.shape), old(S()));
      GenArgs3(AInt(op.dtype.code), AInt(op.dtype.bits), AInt(op.dtype.lanes), s1);
      GenArgsAppend([AVal(op.storage), AInt(op.offset), AShape(op.shape)],
                    [AInt(op.dtype.code), AInt(op.dtype.bits), AInt(op.dtype.lanes)], old(S()));
      assert [AVal(op.storage), AInt(op.offset), AShape(op.shape)] +
             [AInt(op.dtype.code), AInt(op.dtype.bits), AInt(op.dtype.lanes)] == CallOf(op).args;
      assert GenArgs(CallOf(op).args, old(S())).regs == [storage, offset, shape, code, bits, lanes];
      assert done == old(instrs) + GenArgs(CallOf(op).args, old(S())).code;
      Appended(old(instrs), GenArgs(CallOf(op).args, old(S())).code,
               CodegenSpec.EmitDefine(op.res, AllocTensor, [storage, offset, shape, code, bits, lanes], s2).code);
    }

    /** The offset is scaled and displaced in code, each only when it matters. */
    method LowerOffset(v: Value, byteStride: int, baseOffset: int) returns (ok: bool, offset: nat)
      modifies this`instrs, this`nextReg, this`constInits, exec`funcs, exec`consts
      ensures ok <==> BoundValue(v, valueReg.Keys)
      ensures ok ==> var g := GenArg(AOffset(v, byteStride, baseOffset), old(S()));
        offset == g.reg && instrs == old(instrs) + g.code && S() == g.s
    {
      hide CodegenSpec.EmitFresh, ConstReg, CodegenSpec.RegOf;
      ok, offset := RegOf(v);
      if !ok { return; }
      if byteStride != 1 {
        var stride := RegForConst(Int(byteStride));
        offset := EmitFresh(MulI64, [offset, stride]);
      }
      if baseOffset != 0 {
        var displacement := RegForConst(Int(baseOffset));
        offset := EmitFresh(AddI64, [offset, displacement]);
      }
    }

    method LowerTensorView(op: Op) returns (ok: bool)
      requires op.TensorViewOp?
      modifies this, exec`funcs, exec`consts
      ensures ok <==> Compiles(op, old(valueReg).Keys)
      ensures ok ==> var g := GenSimple(op, old(S())); instrs == old(instrs) + g.code && S() == g.s
    {
      hide GenArg, GenArgs, CodegenSpec.Materialize;
      var base, offset, shape;
      ok, base := RegOf(op.base);
      if !ok { return; }
      ok, offset := LowerOffset(op.byteOffset, op.byteStride, op.baseOffset);
      if !ok { return; }
      ok, shape := LowerShape(op.shape);
      if !ok { return; }
      EmitDefine(op.res, TensorView, [base, offset, shape]);
      CoreGen(Some(op.res), TensorView, CallOf(op).args, old(S()));
      GenArgs3(AVal(op.base), AOffset(op.byteOffset, op.byteStride, op.baseOffset), AShape(op.shape), old(S()));
    }

    method LowerCallDPS(op: Op) returns (ok: bool)
      requires op.CallDPSOp?
      modifies this, exec`funcs, exec`consts
      ensures ok <==> Compiles(op, old(valueReg).Keys)
      ensures ok ==> var g := GenSimple(op, old(S())); instrs == old(instrs) + g.code && S() == g.s
    {
      hide GenArg, GenArgs, CodegenSpec.Materialize;
      if op.kind == VMFunc { return false; }
      var inputs, outputs, launch;
      ok, inputs := RegsOf(op.inputs);
      if !ok { return; }
      ghost var s1 := S();
      ok, outputs := RegsOf(op.outputs);
      if !ok { return; }
      ghost var s2 := S();
      ok, launch := MaterializeAll(op.launch);
      if !ok { return; }
      EmitCall(-1, op.kind, op.name, inputs + outputs, launch);
      GenArgsAppend(Values(op.inputs), Values(op.outputs), old(S()));
      assert Values(op.inputs) + Values(op.outputs) == Values(op.inputs + op.outputs);
      ExprsAreMaterialized(op.launch, s2);
    }

    method LowerShapeAssert(op: Op) returns (ok: bool)
      requires op.ShapeAssertOp?
      modifies this, exec`funcs, exec`consts
      ensures ok <==> Compiles(op, old(valueReg).Keys)
      ensures ok ==> var g := GenSimple(op, old(S())); instrs == old(instrs) + g.code && S() == g.s
    {
      hide GenArg, GenArgs, CodegenSpec.Materialize;
      var tensor;
      ok, tensor := RegOf(op.tensor);
      if !ok { return; }
      var dim := RegForInt(op.dim);
      var upper := RegForInt(op.upper);
      EmitBuiltin(-1, ShapeAssert, [tensor, dim, upper]);
      CoreGen(None, ShapeAssert, CallOf(op).args, old(S()));
      GenArgs3(AVal(op.tensor), AInt(op.dim), AInt(op.upper), old(S()));
    }

    method LowerTuple(op: Op) returns (ok: bool)
      requires op.TupleOp?
      modifies this, exec`funcs, exec`consts
      ensures ok <==> Compiles(op, old(valueReg).Keys)
      ensures ok ==> var g := GenSimple(op, old(S())); instrs == old(instrs) + g.code && S() == g.s
    {
      hide GenArg, GenArgs, CodegenSpec.Materialize;
      var elems;
      ok, elems := RegsOf(op.elems);
      if ok { EmitDefine(op.res, MakeTuple, elems); }
      CoreGen(Some(op.res), MakeTuple, CallOf(op).args, old(S()));
    }

    method LowerTupleGetItem(op: Op) returns (ok: bool)
      requires op.TupleGetItemOp?
      modifies this, exec`funcs, exec`consts
      ensures ok <==> Compiles(op, old(valueReg).Keys)
      ensures ok ==> var g := GenSimple(op, old(S())); instrs == old(instrs) + g.code && S() == g.s
    {
      hide GenArg, GenArgs, CodegenSpec.Materialize;
      var tup;
      ok, tup := RegOf(op.tup);
      if !ok { return; }
      ghost var s1 := S();
      var index := RegForInt(op.index);
      ghost var s2, done := S(), instrs;
      EmitDefine(op.res, TupleGetItem, [tup, index]);
      CoreGen(Some(op.res), TupleGetItem, CallOf(op).args, old(S()));
      GenArgsNone(s2);
      GenArgsCons(AVal(op.tup), [AInt(op.index)], old(S()));
      GenArgsCons(AInt(op.index), [], s1);
      assert [AVal(op.tup)] + [AInt(op.index)] == CallOf(op).args && [AInt(op.index)] + [] == [AInt(op.index)];
      assert GenArgs(CallOf(op).args, old(S())).regs == [tup, index];
      assert done == old(instrs) + GenArgs(CallOf(op).args, old(S())).code;
      Appended(old(instrs), GenArgs(CallOf(op).args, old(S())).code,
               CodegenSpec.EmitDefine(op.res, TupleGetItem, [tup, index], s2).code);
    }

    // -------------------------------------------------------------- control flow

    /** Result registers, in order, before either branch is emitted. */
    method AllocResults(ids: seq<nat>) returns (regs: seq<nat>)
      modifies this`nextReg, this`valueReg
      ensures regs == RegRange(old(nextReg), |ids|) && S() == AllocBindAll(ids, old(S()))
      ensures valueReg.Keys == old(valueReg).Keys + Ids(ids)
    {
      regs := [];
      assert ids[0..] == ids;
      for k := 0 to |ids|
        invariant AllocBindAll(ids[k..], S()) == AllocBindAll(ids, old(S()))
        invariant nextReg == old(nextReg) + k && regs == RegRange(old(nextReg), k)
        invariant valueReg.Keys == old(valueReg).Keys + Ids(ids[..k])
      {
        assert ids[k..][1..] == ids[k + 1..];
        IdsPrefix(ids, k);
        var r := AllocReg();
        Bind(ids[k], r);
        regs := regs + [r];
        assert regs == RegRange(old(nextReg), k + 1);
      }
      assert ids[..|ids|] == ids;
    }

    /** Copies yielded values, as many as there are destinations. */
    method EmitCopies(dsts: seq<nat>, vals: seq<Value>) returns (ok: bool)
      modifies this`instrs, this`nextReg, this`constInits, exec`funcs, exec`consts
      ensures ok <==> BoundValues(if |vals| <= |dsts| then vals else vals[..|dsts|], valueReg.Keys)
      ensures ok ==> var g := GenCopies(dsts, vals, WithIdentity(old(S())));
        instrs == old(instrs) + g.code && S() == g.s
    {
      hide CodegenSpec.RegOf, GenCopies, CodegenSpec.EmitBuiltin;
      ok := true;
      var identity := InternFunc(Core(Identity), Builtin);
      InternAgain(old(exec.funcs), Core(Identity), Builtin);
      ghost var code: seq<Instr> := [];
      ghost var funcs := exec.funcs;
      var k := 0;
      assert dsts[0..] == dsts && vals[0..] == vals;
      while k < |dsts| && k < |vals|
        modifies this`instrs, this`nextReg, this`constInits, exec`consts
        invariant k <= |dsts| && k <= |vals|
        invariant forall j :: 0 <= j < k ==> BoundValue(vals[j], valueReg.Keys)
        invariant instrs == old(instrs) + code
        invariant var rest := GenCopies(dsts[k..], vals[k..], S());
          GenCopies(dsts, vals, WithIdentity(old(S()))) == Gen(code + rest.code, rest.s)
      {
        GenCopiesFrom(dsts, vals, k, S());
        var src;
        ok, src := RegOf(vals[k]);
        if !ok { return; }
        var _ := Emit(CallInstr(dsts[k], identity, [src], []));
        CopyIs(dsts[k], src, S(), identity);
        code := code + [CallInstr(dsts[k], identity, [src], [])];
        k := k + 1;
      }
      GenCopiesNone(dsts[k..], vals[k..], S());
      assert code + [] == code;
    }

    method LowerBranch(b: Block, dsts: seq<nat>) returns (ok: bool)
      modifies this, exec`funcs, exec`consts
      ensures ok <==> CompilesBlock(b, |dsts|, old(valueReg).Keys)
      ensures ok ==> var g := GenBranch(b, dsts, old(S())); instrs == old(instrs) + g.code && S() == g.s
      ensures ok ==> valueReg.Keys == old(valueReg).Keys + BindsOps(b.ops)
      decreases b, 1
    {
      hide GenOps, GenCopies, CompilesOps, BindsOps, WithIdentity;
      ok := LowerOps(b.ops);
      if !ok { return; }
      ok := EmitCopies(dsts, b.yielded);
    }

    /** The conditional jump is emitted blank and filled in when its target is known. */
    method LowerThen(op: Op, cond: nat, regs: seq<nat>) returns (ok: bool)
      requires op.IfOp?
      modifies this, exec`funcs, exec`consts
      ensures ok <==> CompilesBlock(op.thn, |regs|, old(valueReg).Keys)
      ensures ok ==> var thn := GenBranch(op.thn, regs, old(S()));
        instrs == old(instrs) + ([IfInstr(cond, 1, |thn.code| + 1)] + thn.code) && S() == thn.s
      ensures ok ==> valueReg.Keys == old(valueReg).Keys + BindsOps(op.thn.ops)
      decreases op, 1
    {
      hide CompilesBlock, GenBranch, BindsOps;
      ghost var thn := GenBranch(op.thn, regs, S());
      IfPatched(instrs, cond, thn.code);
      var ifPc := EmitPlaceholder(IF);
      instrs := instrs[ifPc := instrs[ifPc].(cond := cond, trueOff := 1)];
      ok := LowerBranch(op.thn, regs);
      if !ok { return; }
      instrs := instrs[ifPc := instrs[ifPc].(falseOff := |instrs| - ifPc)];
    }

    /** With an else-branch there is a second jump, over that branch. */
    method LowerThenElse(op: Op, cond: nat, regs: seq<nat>) returns (ok: bool)
      requires op.IfOp? && op.els.Some?
      modifies this, exec`funcs, exec`consts
      ensures ok <==>
        CompilesBlock(op.thn, |regs|, old(valueReg).Keys) &&
        CompilesBlock(op.els.value, |regs|, old(valueReg).Keys + BindsOps(op.thn.ops))
      ensures ok ==> var thn := GenBranch(op.thn, regs, old(S())); var els := GenBranch(op.els.value, regs, thn.s);
        instrs == old(instrs) + ([IfInstr(cond, 1, |thn.code| + 2)] + thn.code + [GotoInstr(|els.code| + 1)] +
                                 els.code) && S() == els.s
      ensures ok ==> valueReg.Keys == old(valueReg).Keys + BindsOps(op.thn.ops) + BindsOps(op.els.value.ops)
      decreases op, 1
    {
      hide CompilesBlock, GenBranch, BindsOps;
      ghost var thn := GenBranch(op.thn, regs, S());
      ghost var els := GenBranch(op.els.value, regs, thn.s);
      IfElsePatched(instrs, cond, thn.code, els.code);
      var ifPc := EmitPlaceholder(IF);
      instrs := instrs[ifPc := instrs[ifPc].(cond := cond, trueOff := 1)];
      ok := LowerBranch(op.thn, regs);
      if !ok { return; }
      var gotoPc := EmitPlaceholder(GOTO);
      instrs := instrs[ifPc := instrs[ifPc].(falseOff := |instrs| - ifPc)];
      ok := LowerBranch(op.els.value, regs);
      if !ok { return; }
      instrs := instrs[gotoPc := instrs[gotoPc].(off := |instrs| - gotoPc)];
    }

    method LowerIf(op: Op) returns (ok: bool)
      requires op.IfOp?
      modifies this, exec`funcs, exec`consts
      ensures ok <==> Compiles(op, old(valueReg).Keys)
      ensures ok ==> var g := GenIf(op, old(S())); instrs == old(instrs) + g.code && S() == g.s
      ensures ok ==> valueReg.Keys == old(valueReg).Keys + Binds(op)
      decreases op, 2
    {
      hide Compiles, CompilesBlock, GenIf, GenBranch, CodegenSpec.RegOf, AllocBindAll, Binds, BindsOps, RegRange;
      CompilesIf(op, valueReg.Keys);
      GenIfIs(op, S());
      if op.results != [] && op.els.None? { return false; }
      var cond;
      ok, cond := RegOf(op.cond);
      if !ok { return; }
      var regs := AllocResults(op.results);
      if op.els.None? {
        ok := LowerThen(op, cond, regs);
      } else {
        ok := LowerThenElse(op, cond, regs);
      }
    }

    /** A loop bound; a constant is coerced to an integer. */
    method MaterializeValue(v: Value) returns (ok: bool, r: nat)
      modifies this`nextReg, this`constInits, exec`consts
      ensures ok <==> IntegralBound(v) && BoundValue(v, valueReg.Keys)
      ensures ok ==> (r, S()) == BoundReg(v, old(S()))
    {
      if v.Imm? {
        ok, r := RangeConst(v.c).Some?, 0;
        if ok { r := RegForConst(Int(RangeConst(v.c).value)); }
      } else {
        ok, r := RegOf(v);
      }
    }

    /** Every carried variable gets a register, then a copy of its initial value. */
    method LowerIters(iters: seq<IterArg>) returns (ok: bool, regs: seq<nat>)
      modifies this, exec`funcs, exec`consts
      ensures ok <==> InitsBound(iters, old(valueReg).Keys)
      ensures ok ==> var g := GenIters(iters, old(S())); regs == g.regs && instrs == old(instrs) + g.code && S() == g.s
      ensures ok ==> valueReg.Keys == old(valueReg).Keys + Ids(IterVars(iters))
    {
      hide GenIters, CodegenSpec.RegOf, CodegenSpec.EmitBuiltin, InitsBound, Ids, IterVars;
      ok, regs := true, [];
      ghost var code: seq<Instr> := [];
      assert iters[0..] == iters;
      for k := 0 to |iters|
        modifies this, exec`funcs, exec`consts
        invariant instrs == old(instrs) + code
        invariant var rest := GenIters(iters[k..], S());
          GenIters(iters, old(S())) == RegsGen(regs + rest.regs, code + rest.code, rest.s)
        invariant InitsBound(iters[k..], valueReg.Keys) <==> InitsBound(iters, old(valueReg).Keys)
        invariant valueReg.Keys + Ids(IterVars(iters[k..])) == old(valueReg).Keys + Ids(IterVars(iters))
      {
        GenItersFrom(iters, k, S(), valueReg.Keys);
        ghost var bound := valueReg.Keys;
        var reg := AllocReg();
        Bind(iters[k].v, reg);
        assert valueReg.Keys == bound + {iters[k].v};
        var init;
        ok, init := RegOf(iters[k].init);
        if !ok { return; }
        ghost var c := CodegenSpec.EmitBuiltin(reg, Identity, [init], S());
        EmitBuiltin(reg, Identity, [init]);
        ghost var rest := GenIters(iters[k + 1..], c.s);
        RegsGenAssoc(regs, code, reg, c.code, rest);
        regs, code := regs + [reg], code + c.code;
      }
      assert iters[|iters|..] == [];
      GenItersNone(S(), valueReg.Keys);
      assert regs + [] == regs && code + [] == code;
    }

    method LowerLoopEntry(op: Op) returns (ok: bool, h: LoopHead)
      requires op.ForOp?
      modifies this, exec`funcs, exec`consts
      ensures ok <==> EntryCompiles(op, old(valueReg).Keys)
      ensures ok ==> h == GenLoopEntry(op, old(S())) && instrs == old(instrs) + h.code && S() == h.s
      ensures ok ==> valueReg.Keys == old(valueReg).Keys + {op.loopVar} + Ids(IterVars(op.iters))
    {
      hide GenIters, BoundReg, InitsBound;
      var first, last, inc, regs;
      var start := |instrs|;
      h := LoopHead(0, 0, 0, 0, [], [], S());
      ok, first := MaterializeValue(op.start);
      if !ok { return; }
      ok, last := MaterializeValue(op.end);
      if !ok { return; }
      ok, inc := MaterializeValue(op.step);
      if !ok { return; }
      var i := AllocReg();
      Bind(op.loopVar, i);
      assert valueReg.Keys == old(valueReg).Keys + {op.loopVar};
      ghost var c := CodegenSpec.EmitBuiltin(i, Identity, [first], S());
      EmitBuiltin(i, Identity, [first]);
      ghost var its := GenIters(op.iters, S());
      ok, regs := LowerIters(op.iters);
      if !ok { return; }
      assert instrs == old(instrs) + (c.code + its.code);
      h := LoopHead(first, last, inc, i, regs, instrs[start..], S());
    }

    /** Test, body, increment, jump back; the exit of the test is filled in last. */
    method LowerLoopCycle(op: Op, h: LoopHead) returns (ok: bool)
      requires op.ForOp? && S() == h.s
      modifies this, exec`funcs, exec`consts
      ensures ok <==> CompilesBlock(op.body, |h.iters|, old(valueReg).Keys)
      ensures ok ==> var g := GenLoopCycle(op, h); instrs == old(instrs) + g.code && S() == g.s
      ensures ok ==> valueReg.Keys == old(valueReg).Keys + BindsOps(op.body.ops)
      decreases op, 1
    {
      hide CompilesBlock, GenBranch, BindsOps, CodegenSpec.EmitFresh, CodegenSpec.EmitBuiltin;
      ghost var before := instrs;
      var header := |instrs|;
      ghost var test := CodegenSpec.EmitFresh(LtI64, [h.index, h.last], h.s);
      var cond := EmitFresh(LtI64, [h.index, h.last]);
      FreshKeeps(LtI64, [h.index, h.last], h.s);
      var ifPc := EmitPlaceholder(IF);
      instrs := instrs[ifPc := instrs[ifPc].(cond := cond, trueOff := 1)];
      ghost var body := GenBranch(op.body, h.iters, test.s);
      ok := LowerBranch(op.body, h.iters);
      if !ok { return; }
      ghost var step := CodegenSpec.EmitBuiltin(h.index, AddI64, [h.index, h.inc], body.s);
      EmitBuiltin(h.index, AddI64, [h.index, h.inc]);
      BuiltinKeeps(h.index, AddI64, [h.index, h.inc], body.s);
      var gotoPc := |instrs|;
      var _ := Emit(GotoInstr(header - gotoPc));
      Patch(before + test.code, IfInstr(cond, 1, 0), body.code + step.code + [GotoInstr(header - gotoPc)],
            IfInstr(cond, 1, |body.code| + 3));
      assert instrs == before + test.code + [IfInstr(cond, 1, 0)] +
        (body.code + step.code + [GotoInstr(header - gotoPc)]);
      instrs := instrs[ifPc := instrs[ifPc].(falseOff := |instrs| - ifPc)];
      assert instrs == before +
        (test.code + [IfInstr(cond, 1, |body.code| + 3)] + body.code + step.code + [GotoInstr(header - gotoPc)]);
    }

    method LowerLoopResults(results: seq<nat>, regs: seq<nat>)
      requires |results| <= |regs|
      modifies this, exec`funcs
      ensures var g := GenLoopResults(results, regs, old(S())); instrs == old(instrs) + g.code && S() == g.s
      ensures valueReg.Keys == old(valueReg).Keys + Ids(results)
    {
      hide CodegenSpec.EmitDefine;
      ghost var code: seq<Instr> := [];
      assert results[0..] == results && regs[0..] == regs;
      for k := 0 to |results|
        modifies this, exec`funcs
        invariant instrs == old(instrs) + code
        invariant var rest := GenLoopResults(results[k..], regs[k..], S());
          GenLoopResults(results, regs, old(S())) == Gen(code + rest.code, rest.s)
        invariant valueReg.Keys == old(valueReg).Keys + Ids(results[..k])
      {
        assert results[k..][1..] == results[k + 1..] && regs[k..][1..] == regs[k + 1..];
        IdsPrefix(results, k);
        ghost var g := CodegenSpec.EmitDefine(results[k], Identity, [regs[k]], S());
        DefineBinds(results[k], Identity, [regs[k]], S());
        EmitDefine(results[k], Identity, [regs[k]]);
        code := code + g.code;
      }
      assert results[..|results|] == results;
    }

    method LowerFor(op: Op) returns (ok: bool)
      requires op.ForOp?
      modifies this, exec`funcs, exec`consts
      ensures ok <==> Compiles(op, old(valueReg).Keys)
      ensures ok ==> var g := GenFor(op, old(S())); instrs == old(instrs) + g.code && S() == g.s
      ensures ok ==> valueReg.Keys == old(valueReg).Keys + Binds(op)
      decreases op, 2
    {
      hide Compiles, CompilesBlock, EntryCompiles, GenLoopEntry, GenLoopCycle, GenLoopResults, Binds, BindsOps;
      CompilesFor(op, valueReg.Keys);
      var h;
      ghost var before := instrs;
      ok, h := LowerLoopEntry(op);
      if !ok { return; }
      EntryCount(op, old(S()));
      ghost var cycle := GenLoopCycle(op, h);
      ok := LowerLoopCycle(op, h);
      if !ok { return; }
      if |op.results| > |h.iters| { return false; }
      ghost var tail := GenLoopResults(op.results, h.iters, S());
      LowerLoopResults(op.results, h.iters);
      assert instrs == before + (h.code + cycle.code + tail.code);
    }

    method LowerSimple(op: Op) returns (ok: bool)
      requires !op.IfOp? && !op.ForOp?
      modifies this, exec`funcs, exec`consts
      ensures ok <==> Compiles(op, old(valueReg).Keys)
      ensures ok ==> var g := GenSimple(op, old(S())); instrs == old(instrs) + g.code && S() == g.s
      ensures ok ==> valueReg.Keys == old(valueReg).Keys + Binds(op)
    {
      hide Compiles, GenSimple, Binds;
      SimpleBinds(op, S());
      match op {
        case AllocStorageOp(_, _, _, _, _) => ok := LowerAllocStorage(op);
        case AllocTensorOp(_, _, _, _, _) => ok := LowerAllocTensor(op);
        case TensorViewOp(_, _, _, _, _, _) => ok := LowerTensorView(op);
        case CallDPSOp(_, _, _, _, _) => ok := LowerCallDPS(op);
        case ShapeAssertOp(_, _, _) => ok := LowerShapeAssert(op);
        case TupleOp(_, _) => ok := LowerTuple(op);
        case TupleGetItemOp(_, _, _) => ok := LowerTupleGetItem(op);
      }
    }

    method LowerOp(op: Op) returns (ok: bool)
      modifies this, exec`funcs, exec`consts
      ensures ok <==> Compiles(op, old(valueReg).Keys)
      ensures ok ==> var g := GenOp(op, old(S())); instrs == old(instrs) + g.code && S() == g.s
      ensures ok ==> valueReg.Keys == old(valueReg).Keys + Binds(op)
      decreases op, 3
    {
      hide Compiles, GenIf, GenFor, GenSimple, Binds;
      if op.IfOp? {
        ok := LowerIf(op);
      } else if op.ForOp? {
        ok := LowerFor(op);
      } else {
        ok := LowerSimple(op);
      }
    }

    method LowerOps(ops: seq<Op>) returns (ok: bool)
      modifies this, exec`funcs, exec`consts
      ensures ok <==> CompilesOps(ops, old(valueReg).Keys)
      ensures ok ==> var g := GenOps(ops, old(S())); instrs == old(instrs) + g.code && S() == g.s
      ensures ok ==> valueReg.Keys == old(valueReg).Keys + BindsOps(ops)
      decreases ops, 0
    {
      hide GenOps, CompilesOps, BindsOps, GenOp, Compiles, Binds;
      ok := true;
      ghost var code: seq<Instr> := [];
      assert ops[0..] == ops;
      for k := 0 to |ops|
        modifies this, exec`funcs, exec`consts
        invariant instrs == old(instrs) + code
        invariant var rest := GenOps(ops[k..], S()); GenOps(ops, old(S())) == Gen(code + rest.code, rest.s)
        invariant CompilesOps(ops[k..], valueReg.Keys) <==> CompilesOps(ops, old(valueReg).Keys)
        invariant valueReg.Keys + BindsOps(ops[k..]) == old(valueReg).Keys + BindsOps(ops)
      {
        GenOpsFrom(ops, k, S(), valueReg.Keys);
        ghost var g := GenOp(ops[k], S());
        ok := LowerOp(ops[k]);
        if !ok { return; }
        code := code + g.code;
      }
      assert ops[|ops|..] == [];
      GenOpsNone(S(), valueReg.Keys);
      assert code + [] == code;
    }

    // -------------------------------------------------------------- functions

    method UnseenVars(shape: seq<PrimExpr>, seen: set<nat>) returns (dims: seq<(nat, PrimExpr)>)
      ensures dims == UnseenDims(shape, seen, 0)
    {
      dims := [];
      for k := 0 to |shape|
        invariant dims + UnseenDims(shape, seen, k) == UnseenDims(shape, seen, 0)
      {
        if shape[k].PrimVar? && shape[k].id !in seen { dims := dims + [(k, shape[k])]; }
      }
    }

    /** Reads one dimension from a shape and emits its bound check. */
    method SetupDim(dim: (nat, PrimExpr), shapeReg: nat)
      requires dim.1.PrimVar?
      modifies this, exec`funcs, exec`consts
      ensures var g := GenDim(dim, shapeReg, old(S())); instrs == old(instrs) + g.code && S() == g.s
      ensures valueReg.Keys == old(valueReg).Keys + {dim.1.id}
    {
      hide ConstReg, Decimal;
      var k := RegForConst(Int(dim.0));
      var r := nextReg;
      ghost var s1, before := S(), instrs;
      EmitDefine(dim.1.id, GetShapeDim, [shapeReg, k]);
      ConstEnv(Int(dim.0), old(S()));
      if dim.1.upper.Some? {
        ghost var s2 := S();
        var upper, msg := Int(dim.1.upper.value), BoundMessage(dim.1.name, dim.1.upper.value);
        ConstRegs2(upper, msg, s2);
        ConstEnv(upper, s2);
        var bound := RegForConst(upper);
        ConstEnv(msg, S());
        var text := RegForConst(msg);
        EmitBuiltin(-1, AssertLeI64, [r, bound, text]);
        assert [r] + [bound, text] == [r, bound, text];
        Appended(before, CodegenSpec.EmitDefine(dim.1.id, GetShapeDim, [shapeReg, k], s1).code,
                 CodegenSpec.EmitBuiltin(-1, AssertLeI64, [r, bound, text], ConstRegs([upper, msg], s2).1).code);
      }
    }

    /** Entry code for the dimensions of one parameter that were not met before. */
    method SetupParam(p: Param, seen: set<nat>) returns (seen': set<nat>)
      requires p.id in valueReg
      modifies this, exec`funcs, exec`consts
      ensures var g := ParamGen(p, seen, old(S())); instrs == old(instrs) + g.code && S() == g.s
      ensures var dims := DimIds(Unseen(p, seen));
        seen' == seen + dims && valueReg.Keys == old(valueReg).Keys + dims
    {
      hide GenDims, CodegenSpec.EmitFresh, CodegenSpec.RegOf;
      seen' := seen;
      if p.info.KnownShape? {
        var dims := UnseenVars(p.info.shape, seen);
        if dims != [] {
          RegOfBound(p.id, S());
          var _, reg := RegOf(Res(p.id));
          FreshKeeps(ShapeOf, [reg], S());
          var shape := EmitFresh(ShapeOf, [reg]);
          SetupDims(dims, shape);
          seen' := seen + set d <- dims :: d.1.id;
        }
      }
    }

    /** Entry code for all symbolic dimensions of the parameters. */
    method Setup(params: seq<Param>)
      requires forall p <- params :: p.id in valueReg
      modifies this, exec`funcs, exec`consts
      ensures var g := GenSetup(params, {}, old(S())); instrs == old(instrs) + g.code && S() == g.s
      ensures valueReg.Keys == old(valueReg).Keys + ShapeIds(params)
    {
      hide GenSetup, ParamGen, ShapeIds;
      var seen: set<nat> := {};
      ghost var code: seq<Instr> := [];
      assert params[0..] == params;
      for k := 0 to |params|
        modifies this, exec`funcs, exec`consts
        invariant forall p <- params :: p.id in valueReg
        invariant instrs == old(instrs) + code && seen <= valueReg.Keys
        invariant var rest := GenSetup(params[k..], seen, S()); GenSetup(params, {}, old(S())) == Gen(code + rest.code,
          rest.s)
        invariant valueReg.Keys + ShapeIds(params[k..]) == old(valueReg).Keys +
          ShapeIds(params)
      {
        GenSetupFrom(params, k, seen, S());
        ShapeIdsFrom(params, k, seen);
        ghost var g := ParamGen(params[k], seen, S());
        seen := SetupParam(params[k], seen);
        code := code + g.code;
      }
      assert params[|params|..] == [];
      ModuleForm.GenSetupNone(seen, S());
      assert code + [] == code;
      NoShapeIds();
    }

    method SetupDims(dims: seq<(nat, PrimExpr)>, shapeReg: nat)
      requires forall d <- dims :: d.1.PrimVar?
      modifies this, exec`funcs, exec`consts
      ensures var g := GenDims(dims, shapeReg, old(S())); instrs == old(instrs) + g.code && S() == g.s
      ensures valueReg.Keys == old(valueReg).Keys + DimIds(dims)
    {
      hide GenDim, GenDims;
      ghost var code: seq<Instr> := [];
      assert dims[0..] == dims;
      for k := 0 to |dims|
        modifies this, exec`funcs, exec`consts
        invariant instrs == old(instrs) + code
        invariant var rest := GenDims(dims[k..], shapeReg, S()); GenDims(dims, shapeReg, old(S())) == Gen(code +
          rest.code, rest.s)
        invariant valueReg.Keys + DimIds(dims[k..]) == old(valueReg).Keys + DimIds(dims)
      {
        GenDimsFrom(dims, k, shapeReg, S());
        ghost var g := GenDim(dims[k], shapeReg, S());
        SetupDim(dims[k], shapeReg);
        code := code + g.code;
      }
      assert dims[|dims|..] == [];
      GenDimsNone(shapeReg, S());
      assert code + [] == code;
    }

    method LowerReturn(ret: seq<Value>) returns (ok: bool)
      modifies this, exec`consts
      ensures ok <==> |ret| <= 1 && BoundValues(ret, old(valueReg).Keys)
      ensures ok ==> var g := GenReturn(ret, old(S())); instrs == old(instrs) + g.code && S() == g.s
    {
      if ret == [] {
        var _ := Emit(RetInstr(-1));
        return true;
      }
      if |ret| > 1 { return false; }
      var src;
      ok, src := RegOf(ret[0]);
      if ok { var _ := Emit(RetInstr(src)); }
    }

    /** Parameters occupy the first registers. */
    method BindParams(params: seq<Param>)
      modifies this`valueReg, this`nextReg
      ensures S() == CodegenSpec.BindParams(params, 0, old(S()))
      ensures valueReg.Keys == old(valueReg).Keys + Ids(ParamIds(params))
    {
      ghost var ids := ParamIds(params);
      for k := 0 to |params|
        invariant CodegenSpec.BindParams(params, k, S()) == CodegenSpec.BindParams(params, 0, old(S()))
        invariant valueReg.Keys == old(valueReg).Keys + Ids(ids[..k])
      {
        IdsPrefix(ids, k);
        assert ids[k] == params[k].id;
        Bind(params[k].id, k);
        nextReg := k + 1;
      }
      assert ids[..|ids|] == ids;
    }
  }

  /** Compiles one function into the executable. */
  method CodegenFn(exec: ExecBuilder, name: string, fn: Function) returns (ok: bool)
    modifies exec
    ensures ok <==> CompilesFunction(fn)
    ensures ok ==> exec.Exe() == AddFunction(name, fn, old(exec.Exe()))
  {
    hide GenSetup, GenOps, GenReturn, CompilesOps, BindsOps, CodegenSpec.BindParams;
    var ctx := new FnCtx(exec);
    ctx.BindParams(fn.params);
    ParamsAreBound(fn, ctx.valueReg.Keys);
    ctx.Setup(fn.params);
    ghost var setup := ctx.instrs;
    ok := ctx.LowerOps(fn.body);
    if !ok { return; }
    ok := ctx.LowerReturn(fn.ret);
    if !ok { return; }
    var entry := FunctionEntry(Named(name), VMFunc, |exec.instrs|, |ctx.instrs|, ctx.nextReg, |fn.params|,
                               ctx.constInits, ParamNames(fn.params));
    exec.funcs := exec.funcs + [entry];
    exec.instrs := exec.instrs + ctx.instrs;
  }

  /** The pass: every function in turn, into one executable. */
  method CodegenModule(fns: seq<ModuleForm.Named>) returns (exec: ExecBuilder, ok: bool)
    ensures ok <==> forall f <- fns :: CompilesFunction(f.fn)
    ensures ok ==> exec.Exe() == ModuleForm.CompileModule(fns)
    ensures fresh(exec)
  {
    hide CompilesFunction, AddFunction;
    exec := new ExecBuilder();
    ok := true;
    assert fns[..0] == [];
    for k := 0 to |fns|
      modifies exec
      invariant exec.Exe() == ModuleForm.CompileModule(fns[..k])
      invariant forall j :: 0 <= j < k ==> CompilesFunction(fns[j].fn)
    {
      assert fns[..k + 1][..k] == fns[..k];
      ok := CodegenFn(exec, fns[k].name, fns[k].fn);
      if !ok { return; }
    }
    assert fns[..|fns|] == fns;
  }

  // ---------------------------------------------------------------- what compiles

  /** The function is compiled without an error. */
  predicate CompilesFunction(fn: Function) {
    CompilesOps(fn.body, ModuleForm.EntryScope(fn)) && |fn.ret| <= 1 &&
    BoundValues(fn.ret, ModuleForm.EntryScope(fn) + BindsOps(fn.body))
  }

  lemma ParamsAreBound(fn: Function, bound: set<nat>)
    requires bound == Ids(ParamIds(fn.params))
    ensures forall p <- fn.params :: p.id in bound
    ensures bound + ShapeIds(fn.params) == ModuleForm.EntryScope(fn)
  {
    forall p | p in fn.params ensures p.id in bound {
      var k :| 0 <= k < |fn.params| && fn.params[k] == p;
      assert ParamIds(fn.params)[k] == p.id;
    }
  }

  /** The entry code of one parameter. */
  function ParamGen(p: Param, seen: set<nat>, s: State): Gen {
    var unseen := Unseen(p, seen);
    if unseen == [] then Gen([], s)
    else
      var sh := EmitFresh(ShapeOf, [Lookup(s, p.id)], s);
      var g := GenDims(unseen, sh.reg, sh.s);
      Gen(sh.code + g.code, g.s)
  }

  lemma {:induction false} GenSetupFrom(params: seq<Param>, k: nat, seen: set<nat>, s: State)
    requires k < |params|
    ensures var g := ParamGen(params[k], seen, s);
      var gs := GenSetup(params[k + 1..], seen + DimIds(Unseen(params[k], seen)), g.s);
      GenSetup(params[k..], seen, s) == Gen(g.code + gs.code, gs.s)
  {
    hide GenSetup, GenDims, EmitFresh;
    assert params[k..][1..] == params[k + 1..] && params[k..][0] == params[k];
    ModuleForm.GenSetupCons(params[k..], seen, s);
    if Unseen(params[k], seen) == [] {
      assert seen + DimIds([]) == seen;
      assert [] + GenSetup(params[k + 1..], seen, s).code == GenSetup(params[k + 1..], seen, s).code;
    }
  }

  lemma ShapeIdsFrom(params: seq<Param>, k: nat, seen: set<nat>)
    requires k < |params|
    ensures seen + ShapeIds(params[k..]) ==
            seen + DimIds(Unseen(params[k], seen)) + ShapeIds(params[k + 1..])
  {
    assert params[k..][1..] == params[k + 1..] && params[k..][0] == params[k];
    ShapeIdsCons(params[k..]);
    UnseenCovers(params[k], seen);
  }

  lemma {:induction false} GenDimsFrom(dims: seq<(nat, PrimExpr)>, k: nat, shapeReg: nat, s: State)
    requires k < |dims| && forall d <- dims :: d.1.PrimVar?
    ensures var g := GenDim(dims[k], shapeReg, s); var gs := GenDims(dims[k + 1..], shapeReg, g.s);
      GenDims(dims[k..], shapeReg, s) == Gen(g.code + gs.code, gs.s)
    ensures DimIds(dims[k..]) == {dims[k].1.id} + DimIds(dims[k + 1..])
  {
    assert dims[k..][1..] == dims[k + 1..] && dims[k..][0] == dims[k];
    DimIdsCons(dims[k..]);
  }

  lemma {:induction false} GenDimsNone(shapeReg: nat, s: State)
    ensures GenDims([], shapeReg, s) == Gen([], s)
  {
  }

  lemma ConstEnv(c: Const, s: State)
    ensures ConstReg(c, s).1.env == s.env
  {
  }

  lemma {:induction false} ConstRegs2(c: Const, d: Const, s: State)
    ensures var (x, s1) := ConstReg(c, s); var (y, s2) := ConstReg(d, s1); ConstRegs([c, d], s) == ([x, y], s2)
  {
    hide ConstReg;
    assert [c, d][1..] == [d] && [d][1..] == [];
    var (x, s1) := ConstReg(c, s);
    var (y, s2) := ConstReg(d, s1);
    assert ConstRegs([], s2) == ([], s2);
    assert ConstRegs([d], s1) == ([y] + [], s2);
    assert [y] + [] == [y] && [x] + [y] == [x, y];
  }

  lemma RegOfBound(id: nat, s: State)
    ensures RegOf(Res(id), s) == (Lookup(s, id), s)
  {
  }

  lemma CopyIs(dst: nat, src: nat, s: State, identity: nat)
    requires InternFunc(s.funcs, Core(Identity), Builtin) == (s.funcs, identity)
    ensures EmitBuiltin(dst, Identity, [src], s) == Gen([CallInstr(dst, identity, [src], [])], s)
  {
  }

  lemma {:induction false} ExprsAreMaterialized(es: seq<PrimExpr>, s: State)
    ensures GenArgs(Exprs(es), s) == MaterializeAll(es, s)
  {
    if es != [] {
      assert Exprs(es)[1..] == Exprs(es[1..]);
      ExprsAreMaterialized(es[1..], Materialize(es[0], s).s);
    }
  }
}

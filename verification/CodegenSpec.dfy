/** Code generation as a function: every op becomes a relocatable code fragment
    (python/devproc2/compiler/passes/vm_codegen.py).

    Jumps are relative, so a fragment does not depend on where it is placed.  The class in
    Codegen.dfy emits into one growing buffer and patches its jumps afterwards; it is proved
    to produce exactly these fragments. */
module CodegenSpec {
  import opened Bytecode
  import opened Runtime
  import opened Builtins
  import opened PrimExprs
  import opened IRValues
  import opened MemoryIR

  /** Compiler state other than the emitted instructions. */
  datatype State = State(
    next: nat,                  // next free register
    env: map<nat, nat>,         // register of each bound id
    inits: seq<ConstInit>,      // registers preloaded with constants
    funcs: seq<Entry>,          // function table so far
    consts: seq<Const>)         // constant pool so far

  datatype Gen = Gen(code: seq<Instr>, s: State)
  datatype RegGen = RegGen(reg: nat, code: seq<Instr>, s: State)
  datatype RegsGen = RegsGen(regs: seq<nat>, code: seq<Instr>, s: State)

  // ---------------------------------------------------------------- pools

  /** First pooled constant at or after k equal to c, or the pool's length. */
  function FindConst(consts: seq<Const>, c: Const, k: nat): (i: nat)
    requires k <= |consts|
    ensures k <= i <= |consts|
    ensures i < |consts| ==> SameConst(consts[i], c)
    decreases |consts| - k
  {
    if k == |consts| || SameConst(consts[k], c) then k else FindConst(consts, c, k + 1)
  }

  function InternConst(consts: seq<Const>, c: Const): (seq<Const>, nat) {
    var i := FindConst(consts, c, 0);
    (if i == |consts| then consts + [c] else consts, i)
  }

  function External(name: Name, kind: CalleeKind): Entry {
    FunctionEntry(name, kind, -1, 0, 0, 0, [], [])
  }

  /** An entry is looked up by name alone; its kind is that of whoever came first. */
  function InternFunc(funcs: seq<Entry>, name: Name, kind: CalleeKind): (seq<Entry>, nat) {
    var i := FindFunc(funcs, name, 0);
    (if i == |funcs| then funcs + [External(name, kind)] else funcs, i)
  }

  // ---------------------------------------------------------------- registers

  function Alloc(s: State): State {
    s.(next := s.next + 1)
  }

  function BindReg(s: State, id: nat, reg: nat): State {
    s.(env := s.env[id := reg])
  }

  /** A fresh register bound to a new id. */
  function AllocBind(s: State, id: nat): State {
    BindReg(Alloc(s), id, s.next)
  }

  function ConstReg(c: Const, s: State): (nat, State) {
    var (pool, i) := InternConst(s.consts, c);
    (s.next, s.(next := s.next + 1, inits := s.inits + [ConstInit(s.next, i)], consts := pool))
  }

  function Lookup(s: State, id: nat): nat {
    if id in s.env then s.env[id] else 0
  }

  function RegOf(v: Value, s: State): (nat, State) {
    match v
    case Imm(c) => ConstReg(c, s)
    case _ => (Lookup(s, v.id), s)
  }

  function RegsOf(vs: seq<Value>, s: State): (seq<nat>, State) {
    if vs == [] then ([], s)
    else
      var (r, s1) := RegOf(vs[0], s);
      var (rs, s2) := RegsOf(vs[1..], s1);
      ([r] + rs, s2)
  }

  function ConstRegs(cs: seq<Const>, s: State): (seq<nat>, State) {
    if cs == [] then ([], s)
    else
      var (r, s1) := ConstReg(cs[0], s);
      var (rs, s2) := ConstRegs(cs[1..], s1);
      ([r] + rs, s2)
  }

  // ---------------------------------------------------------------- single calls

  function EmitCall(dst: int, kind: CalleeKind, name: Name, args: seq<nat>, launch: seq<nat>, s: State): Gen {
    var (table, f) := InternFunc(s.funcs, name, kind);
    Gen([CallInstr(dst, f, args, launch)], s.(funcs := table))
  }

  function EmitBuiltin(dst: int, b: CoreBuiltin, args: seq<nat>, s: State): Gen {
    EmitCall(dst, Builtin, Core(b), args, [], s)
  }

  /** A call into a fresh register. */
  function EmitFresh(b: CoreBuiltin, args: seq<nat>, s: State): RegGen {
    var g := EmitBuiltin(s.next, b, args, Alloc(s));
    RegGen(s.next, g.code, g.s)
  }

  /** The call that ends an op: into a fresh register bound to the op's result, if it has one. */
  function EmitResult(res: Option<nat>, kind: CalleeKind, name: Name, args: seq<nat>, launch: seq<nat>, s: State): Gen {
    match res
    case Some(id) => EmitCall(s.next, kind, name, args, launch, AllocBind(s, id))
    case None => EmitCall(-1, kind, name, args, launch, s)
  }

  function EmitDefine(id: nat, b: CoreBuiltin, args: seq<nat>, s: State): Gen {
    EmitResult(Some(id), Builtin, Core(b), args, [], s)
  }

  // ---------------------------------------------------------------- symbolic expressions

  function Materialize(e: PrimExpr, s: State): RegGen {
    match e
    case IntImm(i) => var (r, s1) := ConstReg(Int(i), s); RegGen(r, [], s1)
    case PrimVar(id, _, _) => RegGen(Lookup(s, id), [], s)
    case Bin(op, l, r) =>
      var gl := Materialize(l, s);
      var gr := Materialize(r, gl.s);
      if BuiltinOf(op).None? then RegGen(0, gl.code + gr.code, gr.s)
      else
        var g := EmitFresh(BuiltinOf(op).value, [gl.reg, gr.reg], gr.s);
        RegGen(g.reg, gl.code + gr.code + g.code, g.s)
  }

  function MaterializeAll(es: seq<PrimExpr>, s: State): RegsGen {
    if es == [] then RegsGen([], [], s)
    else
      var g := Materialize(es[0], s);
      var gs := MaterializeAll(es[1..], g.s);
      RegsGen([g.reg] + gs.regs, g.code + gs.code, gs.s)
  }

  /** A shape tuple in a register. */
  function GenShape(shape: seq<PrimExpr>, s: State): RegGen {
    var g := MaterializeAll(shape, s);
    var m := EmitFresh(MakeShape, g.regs, g.s);
    RegGen(m.reg, g.code + m.code, m.s)
  }

  // ---------------------------------------------------------------- straight-line ops

  /** What can stand in an argument position of the call an op lowers to. */
  datatype Arg =
    | AVal(v: Value)
    | AConst(c: Const)
    | AShape(shape: seq<PrimExpr>)
    | AExpr(e: PrimExpr)
    | AOffset(v: Value, stride: int, base: int)

  /** `reg := reg <op> k` in a fresh register, unless k is the op's unit. */
  function GenScale(b: CoreBuiltin, unit: int, k: int, reg: nat, s: State): RegGen {
    if k == unit then RegGen(reg, [], s)
    else
      var (c, s1) := ConstReg(Int(k), s);
      EmitFresh(b, [reg, c], s1)
  }

  function GenArg(a: Arg, s: State): RegGen {
    match a
    case AVal(v) => var (r, s1) := RegOf(v, s); RegGen(r, [], s1)
    case AConst(c) => var (r, s1) := ConstReg(c, s); RegGen(r, [], s1)
    case AShape(shape) => GenShape(shape, s)
    case AExpr(e) => Materialize(e, s)
    case AOffset(v, stride, base) =>
      var (r, s1) := RegOf(v, s);
      var scaled := GenScale(MulI64, 1, stride, r, s1);
      var moved := GenScale(AddI64, 0, base, scaled.reg, scaled.s);
      RegGen(moved.reg, scaled.code + moved.code, moved.s)
  }

  function GenArgs(args: seq<Arg>, s: State): RegsGen {
    if args == [] then RegsGen([], [], s)
    else
      var g := GenArg(args[0], s);
      var gs := GenArgs(args[1..], g.s);
      RegsGen([g.reg] + gs.regs, g.code + gs.code, gs.s)
  }

  /** The single call a straight-line op comes down to, once its arguments are in registers. */
  datatype LoweredCall = LoweredCall(res: Option<nat>, kind: CalleeKind, name: Name, args: seq<Arg>, launch: seq<Arg>)

  function Values(vs: seq<Value>): (args: seq<Arg>)
    ensures |args| == |vs| && forall k :: 0 <= k < |vs| ==> args[k] == AVal(vs[k])
  {
    seq(|vs|, k requires 0 <= k < |vs| => AVal(vs[k]))
  }

  function Exprs(es: seq<PrimExpr>): (args: seq<Arg>)
    ensures |args| == |es| && forall k :: 0 <= k < |es| ==> args[k] == AExpr(es[k])
  {
    seq(|es|, k requires 0 <= k < |es| => AExpr(es[k]))
  }

  function AInt(i: int): Arg {
    AConst(Int(i))
  }

  function CoreCall(res: Option<nat>, b: CoreBuiltin, args: seq<Arg>): LoweredCall {
    LoweredCall(res, Builtin, Core(b), args, [])
  }

  function CallOf(op: Op): LoweredCall
    requires !op.IfOp? && !op.ForOp?
  {
    match op
    case AllocStorageOp(res, size, alignment, devType, devId) =>
      CoreCall(Some(res), AllocStorage, [AExpr(size), AInt(alignment), AInt(devType), AInt(devId)])
    case AllocTensorOp(res, storage, offset, shape, dtype) =>
      CoreCall(Some(res), AllocTensor,
        [AVal(storage), AInt(offset), AShape(shape), AInt(dtype.code), AInt(dtype.bits), AInt(dtype.lanes)])
    case TensorViewOp(res, base, byteOffset, shape, stride, baseOffset) =>
      CoreCall(Some(res), TensorView, [AVal(base), AOffset(byteOffset, stride, baseOffset), AShape(shape)])
    case CallDPSOp(kind, name, inputs, outputs, launch) =>
      LoweredCall(None, kind, name, Values(inputs + outputs), Exprs(launch))
    case ShapeAssertOp(tensor, dim, upper) => CoreCall(None, ShapeAssert, [AVal(tensor), AInt(dim), AInt(upper)])
    case TupleOp(res, elems) => CoreCall(Some(res), MakeTuple, Values(elems))
    case TupleGetItemOp(res, tup, index) => CoreCall(Some(res), TupleGetItem, [AVal(tup), AInt(index)])
  }

  function GenCall(c: LoweredCall, s: State): Gen {
    var g := GenArgs(c.args, s);
    var l := GenArgs(c.launch, g.s);
    var call := EmitResult(c.res, c.kind, c.name, g.regs, l.regs, l.s);
    Gen(g.code + l.code + call.code, call.s)
  }

  function GenSimple(op: Op, s: State): Gen
    requires !op.IfOp? && !op.ForOp?
  {
    GenCall(CallOf(op), s)
  }

  // ---------------------------------------------------------------- control flow

  /** Fresh registers for ids, in order. */
  function AllocBindAll(ids: seq<nat>, s: State): State
    decreases |ids|
  {
    if ids == [] then s else AllocBindAll(ids[1..], AllocBind(s, ids[0]))
  }

  function RegRange(first: nat, n: nat): (regs: seq<nat>)
    ensures |regs| == n
    ensures forall k :: 0 <= k < n ==> regs[k] == first + k
  {
    seq(n, k requires 0 <= k < n => first + k)
  }

  /** The identity builtin is entered in the table even when nothing is copied. */
  function WithIdentity(s: State): State {
    s.(funcs := InternFunc(s.funcs, Core(Identity), Builtin).0)
  }

  /** One identity call per (register, value) pair, one after another. */
  function GenCopies(dsts: seq<nat>, vals: seq<Value>, s: State): Gen
    decreases |vals|
  {
    if dsts == [] || vals == [] then Gen([], s)
    else
      var (r, s1) := RegOf(vals[0], s);
      var c := EmitBuiltin(dsts[0], Identity, [r], s1);
      var rest := GenCopies(dsts[1..], vals[1..], c.s);
      Gen(c.code + rest.code, rest.s)
  }

  /** Loop bounds: constants are coerced to integers. */
  function BoundReg(v: Value, s: State): (nat, State) {
    match v
    case Imm(c) => ConstReg(Int(if RangeConst(c).Some? then RangeConst(c).value else 0), s)
    case _ => RegOf(v, s)
  }

  /** Carried variables: each gets a register and a copy of its initial value. */
  function GenIters(iters: seq<IterArg>, s: State): RegsGen
    decreases |iters|
  {
    if iters == [] then RegsGen([], [], s)
    else
      var (r, s1) := RegOf(iters[0].init, AllocBind(s, iters[0].v));
      var c := EmitBuiltin(s.next, Identity, [r], s1);
      var rest := GenIters(iters[1..], c.s);
      RegsGen([s.next] + rest.regs, c.code + rest.code, rest.s)
  }

  /** Results of a loop: each gets a fresh register and a copy of the carried variable. */
  function GenLoopResults(results: seq<nat>, regs: seq<nat>, s: State): Gen
    decreases |results|
  {
    if results == [] || regs == [] then Gen([], s)
    else
      var c := EmitDefine(results[0], Identity, [regs[0]], s);
      var rest := GenLoopResults(results[1..], regs[1..], c.s);
      Gen(c.code + rest.code, rest.s)
  }

  function GenBranch(b: Block, dsts: seq<nat>, s: State): Gen
    decreases b, 0
  {
    var body := GenOps(b.ops, s);
    var copies := GenCopies(dsts, b.yielded, WithIdentity(body.s));
    Gen(body.code + copies.code, copies.s)
  }

  function GenIf(op: Op, s: State): Gen
    requires op.IfOp?
    decreases op, 0
  {
    var (c, s1) := RegOf(op.cond, s);
    var dsts := RegRange(s1.next, |op.results|);
    var thn := GenBranch(op.thn, dsts, AllocBindAll(op.results, s1));
    if op.els.None? then
      Gen([IfInstr(c, 1, |thn.code| + 1)] + thn.code, thn.s)
    else
      var els := GenBranch(op.els.value, dsts, thn.s);
      Gen([IfInstr(c, 1, |thn.code| + 2)] + thn.code + [GotoInstr(|els.code| + 1)] + els.code, els.s)
  }

  datatype LoopHead = LoopHead(first: nat, last: nat, inc: nat, index: nat, iters: seq<nat>, code: seq<Instr>, s: State)

  /** Everything before the loop header. */
  function GenLoopEntry(op: Op, s: State): LoopHead
    requires op.ForOp?
  {
    var (first, s1) := BoundReg(op.start, s);
    var (last, s2) := BoundReg(op.end, s1);
    var (inc, s3) := BoundReg(op.step, s2);
    var i := s3.next;
    var c := EmitBuiltin(i, Identity, [first], AllocBind(s3, op.loopVar));
    var its := GenIters(op.iters, c.s);
    LoopHead(first, last, inc, i, its.regs, c.code + its.code, its.s)
  }

  /** From the loop header to the backward jump. */
  function GenLoopCycle(op: Op, h: LoopHead): Gen
    requires op.ForOp?
    decreases op, 0
  {
    var test := EmitFresh(LtI64, [h.index, h.last], h.s);
    var body := GenBranch(op.body, h.iters, test.s);
    var step := EmitBuiltin(h.index, AddI64, [h.index, h.inc], body.s);
    Gen(test.code + [IfInstr(test.reg, 1, |body.code| + 3)] + body.code + step.code + [GotoInstr(-(|body.code| + 3))],
        step.s)
  }

  function GenFor(op: Op, s: State): Gen
    requires op.ForOp?
    decreases op, 1
  {
    var head := GenLoopEntry(op, s);
    var cycle := GenLoopCycle(op, head);
    var tail := GenLoopResults(op.results, head.iters, cycle.s);
    Gen(head.code + cycle.code + tail.code, tail.s)
  }

  function GenOp(op: Op, s: State): Gen
    decreases op, 2
  {
    match op
    case IfOp(_, _, _, _) => GenIf(op, s)
    case ForOp(_, _, _, _, _, _, _, _) => GenFor(op, s)
    case _ => GenSimple(op, s)
  }

  function GenOps(ops: seq<Op>, s: State): Gen
    decreases ops, 0
  {
    if ops == [] then Gen([], s)
    else
      var g := GenOp(ops[0], s);
      var gs := GenOps(ops[1..], g.s);
      Gen(g.code + gs.code, gs.s)
  }

  // ---------------------------------------------------------------- functions

  /** The text reported when a dimension exceeds its bound; only its identity as a constant matters. */
  function BoundMessage(name: string, upper: int): Const {
    Str(name + " exceeds upper bound " + Decimal(upper))
  }

  function Digits(n: nat): string {
    if n < 10 then ["0123456789"[n]] else Digits(n / 10) + ["0123456789"[n % 10]]
  }

  function Decimal(n: int): string {
    if n < 0 then "-" + Digits(-n) else Digits(n)
  }

  /** The number that digits spell. */
  function Spelled(s: string): nat {
    if s == "" then 0 else 10 * Spelled(s[..|s| - 1]) + (if '0' <= s[|s| - 1] <= '9' then s[|s| - 1] as int - 48 else 0)
  }

  lemma {:induction false} DigitsSpell(n: nat)
    ensures Spelled(Digits(n)) == n
  {
    if n >= 10 {
      DigitsSpell(n / 10);
      assert Digits(n)[..|Digits(n)| - 1] == Digits(n / 10);
    } else {
      assert Digits(n)[..0] == "";
    }
  }

  function GenDim(dim: (nat, PrimExpr), shapeReg: nat, s: State): Gen
    requires dim.1.PrimVar?
  {
    var (k, s1) := ConstReg(Int(dim.0), s);
    var c := EmitDefine(dim.1.id, GetShapeDim, [shapeReg, k], s1);
    if dim.1.upper.None? then c
    else
      var (rs, s2) := ConstRegs([Int(dim.1.upper.value), BoundMessage(dim.1.name, dim.1.upper.value)], c.s);
      var a := EmitBuiltin(-1, AssertLeI64, [s1.next] + rs, s2);
      Gen(c.code + a.code, a.s)
  }

  function GenDims(dims: seq<(nat, PrimExpr)>, shapeReg: nat, s: State): Gen
    requires forall d <- dims :: d.1.PrimVar?
  {
    if dims == [] then Gen([], s)
    else
      var g := GenDim(dims[0], shapeReg, s);
      var gs := GenDims(dims[1..], shapeReg, g.s);
      Gen(g.code + gs.code, gs.s)
  }

  /** Entry code: read every symbolic dimension from a parameter and check its bound. */
  function GenSetup(params: seq<Param>, seen: set<nat>, s: State): Gen
    decreases |params|
  {
    if params == [] then Gen([], s)
    else
      var unseen := Unseen(params[0], seen);
      if unseen == [] then GenSetup(params[1..], seen, s)
      else
        var sh := EmitFresh(ShapeOf, [Lookup(s, params[0].id)], s);
        var g := GenDims(unseen, sh.reg, sh.s);
        var gs := GenSetup(params[1..], seen + DimIds(unseen), g.s);
        Gen(sh.code + g.code + gs.code, gs.s)
  }

  function BindParams(params: seq<Param>, k: nat, s: State): State
    requires k <= |params|
    decreases |params| - k
  {
    if k == |params| then s else BindParams(params, k + 1, BindReg(s, params[k].id, k).(next := k + 1))
  }

  function GenReturn(ret: seq<Value>, s: State): Gen {
    if ret == [] then Gen([RetInstr(-1)], s)
    else
      var (r, s1) := RegOf(ret[0], s);
      Gen([RetInstr(r)], s1)
  }

  /** A whole function, starting from the pools the executable already has. */
  function GenFunction(fn: Function, funcs: seq<Entry>, consts: seq<Const>): Gen {
    var s := BindParams(fn.params, 0, State(0, map[], [], funcs, consts));
    var setup := GenSetup(fn.params, {}, s);
    var body := GenOps(fn.body, setup.s);
    var ret := GenReturn(fn.ret, body.s);
    Gen(setup.code + body.code + ret.code, ret.s)
  }

  function ParamNames(params: seq<Param>): (names: seq<Name>)
    ensures |names| == |params| && forall k :: 0 <= k < |params| ==> names[k] == Named(params[k].name)
  {
    seq(|params|, k requires 0 <= k < |params| => Named(params[k].name))
  }

  /** The executable after compiling one more function into it. */
  function AddFunction(name: string, fn: Function, exe: Program): Program {
    var g := GenFunction(fn, exe.funcs, exe.consts);
    var entry := FunctionEntry(Named(name), VMFunc, |exe.instrs|, |g.code|, g.s.next, |fn.params|,
                               g.s.inits, ParamNames(fn.params));
    Executable(g.s.funcs + [entry], exe.instrs + g.code, g.s.consts)
  }

  // ---------------------------------------------------------------- what compiles

  predicate BoundValue(v: Value, bound: set<nat>) {
    v.Imm? || v.id in bound
  }

  predicate BoundValues(vs: seq<Value>, bound: set<nat>) {
    forall k :: 0 <= k < |vs| ==> BoundValue(vs[k], bound)
  }

  predicate BoundPrim(e: PrimExpr, bound: set<nat>) {
    match e
    case IntImm(_) => true
    case PrimVar(id, _, _) => id in bound
    case Bin(op, l, r) => BoundPrim(l, bound) && BoundPrim(r, bound) && BuiltinOf(op).Some?
  }

  predicate BoundPrims(es: seq<PrimExpr>, bound: set<nat>) {
    forall k :: 0 <= k < |es| ==> BoundPrim(es[k], bound)
  }

  predicate IntegralBound(v: Value) {
    v.Imm? ==> RangeConst(v.c).Some?
  }

  /** Every id an op binds, including inside its regions: bindings are never removed. */
  function Binds(op: Op): set<nat>
    decreases op, 1
  {
    match op
    case AllocStorageOp(res, _, _, _, _) => {res}
    case AllocTensorOp(res, _, _, _, _) => {res}
    case TensorViewOp(res, _, _, _, _, _) => {res}
    case CallDPSOp(_, _, _, _, _) => {}
    case ShapeAssertOp(_, _, _) => {}
    case TupleOp(res, _) => {res}
    case TupleGetItemOp(res, _, _) => {res}
    case IfOp(results, _, thn, els) =>
      Ids(results) + BindsOps(thn.ops) + (if els.Some? then BindsOps(els.value.ops) else {})
    case ForOp(results, loopVar, _, _, _, _, iters, body) =>
      {loopVar} + Ids(IterVars(iters)) + BindsOps(body.ops) + Ids(results)
  }

  function BindsOps(ops: seq<Op>): set<nat>
    decreases ops, 0
  {
    if ops == [] then {} else Binds(ops[0]) + BindsOps(ops[1..])
  }

  function Ids(ids: seq<nat>): set<nat> {
    set id <- ids
  }

  /** Every initial value is bound by the time it is copied. */
  predicate InitsBound(iters: seq<IterArg>, bound: set<nat>)
    decreases |iters|
  {
    iters == [] || (BoundValue(iters[0].init, bound + {iters[0].v}) && InitsBound(iters[1..], bound + {iters[0].v}))
  }

  /** The op is lowered without an error, given the ids already bound to registers. */
  predicate Compiles(op: Op, bound: set<nat>)
    decreases op, 1
  {
    match op
    case AllocStorageOp(_, size, _, _, _) => BoundPrim(size, bound)
    case AllocTensorOp(_, storage, _, shape, _) => BoundValue(storage, bound) && BoundPrims(shape, bound)
    case TensorViewOp(_, base, byteOffset, shape, _, _) =>
      BoundValue(base, bound) && BoundValue(byteOffset, bound) && BoundPrims(shape, bound)
    case CallDPSOp(kind, _, inputs, outputs, launch) =>
      kind != VMFunc && BoundValues(inputs, bound) && BoundValues(outputs, bound) && BoundPrims(launch, bound)
    case ShapeAssertOp(tensor, _, _) => BoundValue(tensor, bound)
    case TupleOp(_, elems) => BoundValues(elems, bound)
    case TupleGetItemOp(_, tup, _) => BoundValue(tup, bound)
    case IfOp(results, cond, thn, els) =>
      (results != [] ==> els.Some?) &&
      BoundValue(cond, bound) &&
      CompilesBlock(thn, |results|, bound + Ids(results)) &&
      (els.Some? ==> CompilesBlock(els.value, |results|, bound + Ids(results) + BindsOps(thn.ops)))
    case ForOp(results, loopVar, _, start, end, step, iters, body) =>
      IntegralBound(start) && IntegralBound(end) && IntegralBound(step) &&
      BoundValue(start, bound) && BoundValue(end, bound) && BoundValue(step, bound) &&
      InitsBound(iters, bound + {loopVar}) &&
      CompilesBlock(body, |iters|, bound + {loopVar} + Ids(IterVars(iters))) &&
      |results| <= |iters|
  }

  /** Only as many yielded values are looked up as there are destinations. */
  predicate CompilesBlock(b: Block, n: nat, bound: set<nat>)
    decreases b, 0
  {
    CompilesOps(b.ops, bound) &&
    BoundValues(if |b.yielded| <= n then b.yielded else b.yielded[..n], bound + BindsOps(b.ops))
  }

  predicate CompilesOps(ops: seq<Op>, bound: set<nat>)
    decreases ops, 0
  {
    ops == [] || (Compiles(ops[0], bound) && CompilesOps(ops[1..], bound + Binds(ops[0])))
  }
}

/** When the C++ and the Python machine compute the same. */
module Lockstep {
  import opened Bytecode
  import opened Runtime
  import opened Builtins
  import FM = FrameMachine
  import opened VirtualMachine
  import opened FlatMachines

  // ---------------------------------------------------------------- where the hosts differ

  /** The division is exact, or both numbers have one sign. */
  predicate OneQuotient(x: int, y: int)
    requires y != 0
  {
    x % y == 0 || (x > 0 <==> y > 0)
  }

  /** Truncating and flooring division agree exactly when the division is exact or the signs are the same. */
  lemma DivisionsAgree(x: int, y: int)
    requires y != 0
    ensures HostDiv(Cpp, x, y) == HostDiv(Py, x, y) <==> OneQuotient(x, y)
  {
    hide TruncDiv, FloorDiv, OneQuotient;
    if y < 0 {
      Mirrored(x, y);
      PositiveDivisor(-x, -y);
    } else {
      PositiveDivisor(x, y);
    }
  }

  /** Changing both signs changes no quotient. */
  lemma Mirrored(x: int, y: int)
    requires y < 0
    ensures TruncDiv(x, y) == TruncDiv(-x, -y) && FloorDiv(x, y) == FloorDiv(-x, -y)
    ensures OneQuotient(x, y) <==> OneQuotient(-x, -y)
  {
    NegativeDivisor(x, y);
    NegativeDivisor(-x, y);
    ExactBothWays(x, -y);
    if x == 0 { Quotient(0, -y, 0, 0); }
  }

  lemma ExactBothWays(x: int, y: int)
    requires y > 0
    ensures x % y == 0 <==> (-x) % y == 0
  {
    if x % y == 0 { Quotient(-x, y, -(x / y), 0); }
    if (-x) % y == 0 { Quotient(x, y, -((-x) / y), 0); }
  }

  /** Dividing by a negative number. */
  lemma NegativeDivisor(x: int, y: int)
    requires y < 0
    ensures x / y == -(x / -y) && x % y == x % -y
  {
    var q, r := x / y, x % y;
    assert x == (-q) * (-y) + r;
    Quotient(x, -y, -q, r);
  }

  lemma PositiveDivisor(x: int, y: int)
    requires y > 0
    ensures HostDiv(Cpp, x, y) == HostDiv(Py, x, y) <==> OneQuotient(x, y)
  {
    if x == 0 { Quotient(0, y, 0, 0); }
    if x < 0 {
      var q, r := (-x) / y, (-x) % y;
      assert -x == q * y + r;
      if r == 0 {
        assert x == (-q) * y;
        Quotient(x, y, -q, 0);
      } else {
        assert x == (-q - 1) * y + (y - r);
        Quotient(x, y, -q - 1, y - r);
      }
    }
  }

  /** Quotient and remainder are unique. */
  lemma Quotient(x: int, y: int, q: int, r: int)
    requires y > 0 && x == q * y + r && 0 <= r < y
    ensures x / y == q && x % y == r
  {
    var d := x / y - q;
    assert d * y == r - x % y;
    assert d >= 1 ==> d * y >= y;
    assert d <= -1 ==> d * y <= -y;
  }

  /** Rounding up: C++ refuses divisors that are not positive; otherwise the hosts agree exactly when
      they agree on the quotient they compute. */
  lemma CeilDivisionsAgree(x: int, y: int)
    ensures y <= 0 ==> CallBuiltin(Cpp, CeilDivI64, [VInt(x), VInt(y)]) == None
    ensures y > 0 ==>
      (CallBuiltin(Cpp, CeilDivI64, [VInt(x), VInt(y)]) == CallBuiltin(Py, CeilDivI64, [VInt(x), VInt(y)]) <==>
       x + y - 1 >= 0 || (x + y - 1) % y == 0)
  {
    if y > 0 { DivisionsAgree(x + y - 1, y); }
  }

  predicate Within(v: Val, m: int) {
    v.VInt? && 0 <= v.i < m
  }

  /** A call on which the hosts cannot disagree: no division on which they round differently, no element
      type that wraps, and no tensor view, which only the C++ host has. */
  predicate Portable(b: CoreBuiltin, args: seq<Val>) {
    match b
    case TensorView => false
    case FloorDivI64 => |args| >= 2 && args[0].VInt? && args[1].VInt? &&
      (args[1].i == 0 || OneQuotient(args[0].i, args[1].i))
    case CeilDivI64 => |args| >= 2 && args[0].VInt? && args[1].VInt? &&
      (args[1].i <= 0 || OneQuotient(args[0].i + args[1].i - 1, args[1].i))
    case AllocTensor => |args| == 6 && Within(args[3], 256) && Within(args[4], 256) && Within(args[5], 65536)
    case _ => true
  }

  lemma CoercionsAgree(v: Val)
    ensures AsInt(Cpp, v).Some? ==> AsInt(Py, v) == AsInt(Cpp, v)
    ensures AsBool(Cpp, v).Some? ==> AsBool(Py, v) == AsBool(Cpp, v)
    ensures AsDims(Cpp, v).Some? ==> AsDims(Py, v) == AsDims(Cpp, v)
    ensures AsFields(Cpp, v).Some? ==> AsFields(Py, v) == AsFields(Cpp, v)
  {
  }

  lemma {:induction false} IntsAgree(vs: seq<Val>)
    ensures AsInts(Cpp, vs).Some? ==> AsInts(Py, vs) == AsInts(Cpp, vs)
  {
    if vs != [] {
      CoercionsAgree(vs[0]);
      IntsAgree(vs[1..]);
    }
  }

  /** What the C++ host accepts, the Python host accepts with the same result. */
  lemma BuiltinsAgree(b: CoreBuiltin, args: seq<Val>)
    requires Portable(b, args) && CallBuiltin(Cpp, b, args).Some?
    ensures CallBuiltin(Py, b, args) == CallBuiltin(Cpp, b, args)
  {
    hide Arithmetic;
    IntsAgree(args);
    forall a | a in args
      ensures AsInt(Cpp, a).Some? ==> AsInt(Py, a) == AsInt(Cpp, a)
      ensures AsDims(Cpp, a).Some? ==> AsDims(Py, a) == AsDims(Cpp, a)
      ensures AsFields(Cpp, a).Some? ==> AsFields(Py, a) == AsFields(Cpp, a)
    {
      CoercionsAgree(a);
    }
    assert forall k :: 0 <= k < |args| ==> args[k] in args;
    if Arithmetic(Cpp, b, args).Some? { ArithmeticAgrees(b, args); }
  }

  lemma ArithmeticAgrees(b: CoreBuiltin, args: seq<Val>)
    requires Portable(b, args) && Arithmetic(Cpp, b, args).Some?
    ensures Arithmetic(Py, b, args) == Arithmetic(Cpp, b, args)
  {
    hide OneQuotient, HostDiv;
    CoercionsAgree(args[0]);
    CoercionsAgree(args[1]);
    if b == FloorDivI64 && args[1].i != 0 { DivisionsAgree(args[0].i, args[1].i); }
    if b == CeilDivI64 && args[1].i > 0 { DivisionsAgree(args[0].i + args[1].i - 1, args[1].i); }
  }

  lemma DivisionsDiffer(b: CoreBuiltin, args: seq<Val>)
    requires (b == FloorDivI64 || b == CeilDivI64) && CallBuiltin(Cpp, b, args).Some? && !Portable(b, args)
    ensures CallBuiltin(Py, b, args) != CallBuiltin(Cpp, b, args)
  {
    hide OneQuotient, HostDiv;
    var x, y := args[0].i, args[1].i;
    if b == FloorDivI64 { DivisionsAgree(x, y); } else { DivisionsAgree(x + y - 1, y); }
  }

  lemma FieldsDiffer(args: seq<Val>)
    requires CallBuiltin(Cpp, AllocTensor, args).Some? && !Portable(AllocTensor, args)
    ensures CallBuiltin(Py, AllocTensor, args) != CallBuiltin(Cpp, AllocTensor, args)
  {
    var r, r' := CallBuiltin(Cpp, AllocTensor, args).value, CallBuiltin(Py, AllocTensor, args);
    assert 0 <= r.dtype.code < 256 && 0 <= r.dtype.bits < 256 && 0 <= r.dtype.lanes < 65536;
    if r'.Some? { assert r'.value.dtype == DType(args[3].i, args[4].i, args[5].i); }
  }

  /** Of what the C++ host accepts, views apart, the Python host gives the same exactly on portable arguments. */
  lemma BuiltinsAgreeExactly(b: CoreBuiltin, args: seq<Val>)
    requires b != TensorView && CallBuiltin(Cpp, b, args).Some?
    ensures CallBuiltin(Py, b, args) == CallBuiltin(Cpp, b, args) <==> Portable(b, args)
  {
    hide CallBuiltin;
    if Portable(b, args) {
      BuiltinsAgree(b, args);
    } else if b == AllocTensor {
      FieldsDiffer(args);
    } else {
      DivisionsDiffer(b, args);
    }
  }

  /** The converse fails: Python coerces integers to conditions and has negative positions. */
  lemma PythonIsMoreLenient()
    ensures AsBool(Cpp, VInt(1)) == None && AsBool(Py, VInt(1)) == Some(true)
    ensures CallBuiltin(Cpp, GetShapeDim, [VShape([5]), VInt(-1)]) == None
    ensures CallBuiltin(Py, GetShapeDim, [VShape([5]), VInt(-1)]) == Some(VInt(5))
    ensures CallBuiltin(Cpp, FloorDivI64, [VInt(-7), VInt(2)]) == Some(VInt(-3))
    ensures CallBuiltin(Py, FloorDivI64, [VInt(-7), VInt(2)]) == Some(VInt(-4))
    ensures CallBuiltin(Cpp, FloorDivI64, [VInt(7), VInt(-2)]) == Some(VInt(-3))
    ensures CallBuiltin(Py, FloorDivI64, [VInt(7), VInt(-2)]) == Some(VInt(-4))
  {
  }

  // ---------------------------------------------------------------- one history

  /** Only the C++ host tells kernels their launch dimensions. */
  function Erase(e: Event): Event {
    e.(launch := [])
  }

  function EraseAll(w: World): World {
    seq(|w|, k requires 0 <= k < |w| => Erase(w[k]))
  }

  /** Foreign code behaves the same on both hosts. */
  ghost predicate SameForeign(cpp: Foreign, py: Foreign) {
    forall w, e :: cpp(w, e) == py(EraseAll(w), Erase(e))
  }

  lemma EraseAppend(w: World, e: Event)
    ensures EraseAll(w + [e]) == EraseAll(w) + [Erase(e)]
  {
  }

  // ---------------------------------------------------------------- strings

  /** The hosts load a constant alike exactly when it is no string. */
  lemma LoadsAgree(c: Const)
    ensures Load(Cpp, c) == Load(Py, c) <==> !c.Str?
  {
  }

  /** Equal, or a string constant that the C++ host has lost; when there are none, equal. */
  predicate Like(strings: bool, v: Val, v': Val) {
    v == v' || (strings && v == VNull && v'.VStr?)
  }

  predicate AllLike(strings: bool, R: seq<Val>, R': seq<Val>) {
    |R| == |R'| && forall k :: 0 <= k < |R| ==> Like(strings, R[k], R'[k])
  }

  predicate FrameLike(strings: bool, f: Frame, f': Frame) {
    f'.func == f.func && f'.pc == f.pc && f'.dst == f.dst && AllLike(strings, f.regs, f'.regs)
  }

  predicate FramesLike(strings: bool, fs: seq<Frame>, fs': seq<Frame>) {
    |fs| == |fs'| && forall k :: 0 <= k < |fs| ==> FrameLike(strings, fs[k], fs'[k])
  }

  /** The Python run next to the C++ run: like frames, the same calls. */
  predicate RunLike(strings: bool, st: Run<seq<Frame>>, st': Run<seq<Frame>>) {
    match st
    case Going(fs, w) => st'.Going? && FramesLike(strings, fs, st'.s) && st'.w == EraseAll(w)
    case Done(v, w) => st'.Done? && Like(strings, v, st'.v) && st'.w == EraseAll(w)
    case Failed(w) => st' == Failed(EraseAll(w))
    case Stuck => st' == Stuck
  }

  /** Equal arguments; the message of a bound check does not matter. */
  predicate SameArgs(callee: Entry, args: seq<Val>, args': seq<Val>) {
    args == args' ||
    (callee.kind == Builtin && callee.name == Core(AssertLeI64) && |args| == |args'| && |args| >= 2 &&
     args[..2] == args'[..2])
  }

  /** A portable call, and no string constant reaches it. */
  predicate PortableCall(callee: Entry, args: seq<Val>, args': seq<Val>) {
    callee.kind != VMFunc ==>
      SameArgs(callee, args, args') &&
      (callee.kind == Builtin && callee.name.Core? && Interpreted(Cpp, callee.name.b) ==> Portable(callee.name.b, args))
  }

  predicate PortableTop(X: Vm, top: Frame, top': Frame) {
    IsFunction(X.exe, top.func) && 0 <= top.pc < |Body(X.exe, top.func)| ==>
      var i := Body(X.exe, top.func)[top.pc];
      i.op == CALL && 0 <= i.func < |X.exe.funcs| && FM.InRange(i.args, |top.regs|) && |top'.regs| == |top.regs| ==>
        PortableCall(X.exe.funcs[i.func], FM.Read(top.regs, i.args), FM.Read(top'.regs, i.args))
  }

  /** The next instruction is a portable call, or none of foreign code or a builtin. */
  predicate PortableStep(X: Vm, st: Run<seq<Frame>>, st': Run<seq<Frame>>) {
    st.Going? && st.s != [] && st'.Going? && st'.s != [] ==> PortableTop(X, st.s[|st.s| - 1], st'.s[|st'.s| - 1])
  }

  // ---------------------------------------------------------------- one step

  lemma DispatchAgrees(cpp: Foreign, py: Foreign, kind: CalleeKind, name: Name, args: seq<Val>, launch: seq<int>,
                       w: World)
    requires SameForeign(cpp, py)
    requires kind == Builtin && name.Core? && Interpreted(Cpp, name.b) ==> Portable(name.b, args)
    requires Dispatch(Cpp, cpp, kind, name, args, launch, w).result.Some?
    ensures var r := Dispatch(Cpp, cpp, kind, name, args, launch, w);
      Dispatch(Py, py, kind, name, args, [], EraseAll(w)) == CallResult(r.result, EraseAll(r.w))
  {
    hide CallBuiltin;
    if kind == Builtin && name.Core? && Interpreted(Cpp, name.b) {
      BuiltinsAgree(name.b, args);
    } else {
      var e := Event(kind, name, args, launch);
      EraseAppend(w, e);
      assert cpp(w, e) == py(EraseAll(w), Erase(e));
    }
  }

  lemma {:induction false} FirstTwoDecide(h: Host, args: seq<Val>, args': seq<Val>)
    requires |args| == |args'| && |args| >= 2 && args[..2] == args'[..2]
    ensures CallBuiltin(h, AssertLeI64, args) == CallBuiltin(h, AssertLeI64, args')
  {
    assert args[0] == args[..2][0] == args'[0] && args[1] == args[..2][1] == args'[1];
  }

  lemma CheckAgrees(cpp: Foreign, py: Foreign, callee: Entry, args: seq<Val>, args': seq<Val>, launch: seq<int>,
                    w: World)
    requires SameForeign(cpp, py) && PortableCall(callee, args, args') && callee.kind != VMFunc
    requires Dispatch(Cpp, cpp, callee.kind, callee.name, args, launch, w).result.Some?
    ensures var r := Dispatch(Cpp, cpp, callee.kind, callee.name, args, launch, w);
      Dispatch(Py, py, callee.kind, callee.name, args', [], EraseAll(w)) == CallResult(r.result, EraseAll(r.w))
  {
    hide CallBuiltin, Portable;
    DispatchAgrees(cpp, py, callee.kind, callee.name, args, launch, w);
    if args != args' { FirstTwoDecide(Py, args, args'); }
  }

  /** The same program on the two hosts; when string constants are left out of account, it has none. */
  ghost predicate Paired(strings: bool, C: Vm, P: Vm) {
    && C.M.host == Cpp && P.M.host == Py && C.exe == P.exe && SameForeign(C.M.ext, P.M.ext)
    && (strings || forall c <- C.exe.consts :: !c.Str?)
  }

  predicate StatusLike(strings: bool, st: FM.Status, st': FM.Status) {
    match st
    case Running(pc, regs, w) => st'.Running? && st'.pc == pc && AllLike(strings, regs, st'.regs) &&
      st'.w == EraseAll(w)
    case Halted(v, w) => st'.Halted? && Like(strings, v, st'.v) && st'.w == EraseAll(w)
    case Failed(w) => st' == FM.Failed(EraseAll(w))
    case Stuck => st' == FM.Stuck
  }

  lemma CallAgrees(strings: bool, C: Vm, P: Vm, top: Frame, top': Frame, i: Instr, w: World)
    requires Paired(strings, C, P) && IsFunction(C.exe, top.func) && FrameLike(strings, top, top')
    requires 0 <= i.func < |C.exe.funcs| && C.exe.funcs[i.func].kind != VMFunc && FM.InRange(i.args, |top.regs|)
    requires PortableCall(C.exe.funcs[i.func], FM.Read(top.regs, i.args), FM.Read(top'.regs, i.args))
    requires FM.StepCall(CodeOf(C, top.func), i, top.pc, top.regs, w).Running?
    ensures StatusLike(strings, FM.StepCall(CodeOf(C, top.func), i, top.pc, top.regs, w),
                       FM.StepCall(CodeOf(P, top'.func), i, top'.pc, top'.regs, EraseAll(w)))
  {
    hide Dispatch, PortableCall;
    var callee := C.exe.funcs[i.func];
    var launch := LaunchArgs(Cpp, FM.Read(top.regs, i.launch)).value;
    CheckAgrees(C.M.ext, P.M.ext, callee, FM.Read(top.regs, i.args), FM.Read(top'.regs, i.args), launch, w);
  }

  lemma LocalAgrees(strings: bool, C: Vm, P: Vm, top: Frame, top': Frame, w: World)
    requires Paired(strings, C, P) && IsFunction(C.exe, top.func) && FrameLike(strings, top, top')
    requires PortableTop(C, top, top')
    requires var st := FM.Step(CodeOf(C, top.func), FM.Running(top.pc, top.regs, w)); st.Running? || st.Halted?
    ensures StatusLike(strings, FM.Step(CodeOf(C, top.func), FM.Running(top.pc, top.regs, w)),
                       FM.Step(CodeOf(P, top'.func), FM.Running(top'.pc, top'.regs, EraseAll(w))))
  {
    hide FM.StepCall, PortableCall;
    var i := Body(C.exe, top.func)[top.pc];
    if i.op == CALL {
      assert FM.Step(CodeOf(C, top.func), FM.Running(top.pc, top.regs, w)) == FM.StepCall(CodeOf(C, top.func), i,
        top.pc, top.regs, w);
      CallRunning(CodeOf(C, top.func), i, top.pc, top.regs, w);
      CallAgrees(strings, C, P, top, top', i, w);
    } else if i.op == IF {
      CoercionsAgree(top.regs[i.cond]);
      assert Like(strings, top.regs[i.cond], top'.regs[i.cond]);
    } else if i.op == RET && i.src >= 0 {
      assert Like(strings, top.regs[i.src], top'.regs[i.src]);
    }
  }

  lemma CallRunning(P: FM.Code, i: Instr, pc: int, regs: seq<Val>, w: World)
    ensures var st := FM.StepCall(P, i, pc, regs, w);
      !st.Halted? && (st.Running? ==>
                      0 <= i.func < |P.funcs| && P.funcs[i.func].kind != VMFunc && FM.InRange(i.args, |regs|))
  {
  }

  lemma {:induction false} PreloadLike(strings: bool, R: seq<Val>, R': seq<Val>, inits: seq<ConstInit>,
                                       consts: seq<Const>)
    requires AllLike(strings, R, R') && (strings || forall c <- consts :: !c.Str?)
    requires forall ci <- inits :: 0 <= ci.reg < |R| && 0 <= ci.idx < |consts|
    ensures AllLike(strings, FM.Preload(Cpp, R, inits, consts), FM.Preload(Py, R', inits, consts))
    decreases |inits|
  {
    if inits != [] {
      var ci := inits[0];
      assert ci in inits && consts[ci.idx] in consts;
      LoadsAgree(consts[ci.idx]);
      PreloadLike(strings, R[ci.reg := Load(Cpp, consts[ci.idx])], R'[ci.reg := Load(Py, consts[ci.idx])], inits[1..],
                  consts);
    }
  }

  lemma FrameRegsLike(strings: bool, e: Entry, args: seq<Val>, args': seq<Val>, consts: seq<Const>)
    requires FM.FrameFits(e, args, consts) && AllLike(strings, args, args')
    requires (strings || forall c <- consts :: !c.Str?)
    ensures FM.FrameFits(e, args', consts)
    ensures AllLike(strings, FM.FrameRegs(Cpp, e, args, consts), FM.FrameRegs(Py, e, args', consts))
  {
    var pad := seq(e.numRegs - |args|, _ => VNull);
    PreloadLike(strings, args + pad, args' + pad, e.inits, consts);
  }

  lemma ReadLike(strings: bool, R: seq<Val>, R': seq<Val>, idx: seq<int>)
    requires AllLike(strings, R, R') && FM.InRange(idx, |R|)
    ensures AllLike(strings, FM.Read(R, idx), FM.Read(R', idx))
  {
  }

  lemma PushLike(strings: bool, fs: seq<Frame>, fs': seq<Frame>, f: Frame, f': Frame)
    requires FramesLike(strings, fs, fs') && FrameLike(strings, f, f')
    ensures FramesLike(strings, fs + [f], fs' + [f'])
  {
    hide FrameLike;
  }

  lemma EnterAgrees(strings: bool, C: Vm, P: Vm, below: seq<Frame>, below': seq<Frame>, top: Frame, top': Frame,
                    w: World)
    requires Paired(strings, C, P) && IsCall(C, top) && FramesLike(strings, below, below')
    requires FrameLike(strings, top, top')
    requires Enter(C, below, top, w).Going?
    ensures IsCall(P, top') && RunLike(strings, Enter(C, below, top, w), Enter(P, below', top', EraseAll(w)))
  {
    hide FM.FrameRegs, AllLike, FramesLike, AsInts, FM.FrameFits;
    var i := Body(C.exe, top.func)[top.pc];
    var callee := C.exe.funcs[i.func];
    SizesLike(strings, top.regs, top'.regs);
    ReadLike(strings, top.regs, top'.regs, i.args);
    var args, args' := FM.Read(top.regs, i.args), FM.Read(top'.regs, i.args);
    FrameRegsLike(strings, callee, args, args', C.exe.consts);
    var on, on' := top.(pc := top.pc + 1), top'.(pc := top.pc + 1);
    var f, f' := Frame(i.func, 0, FM.FrameRegs(Cpp, callee, args, C.exe.consts), i.dst),
                 Frame(i.func, 0, FM.FrameRegs(Py, callee, args', C.exe.consts), i.dst);
    PushLike(strings, below, below', on, on');
    PushLike(strings, below + [on], below' + [on'], f, f');
    assert below + [on] + [f] == below + [on, f] && below' + [on'] + [f'] == below' + [on', f'];
  }

  lemma EnterIsNotDone(X: Vm, below: seq<Frame>, top: Frame, w: World)
    requires IsCall(X, top)
    ensures !Enter(X, below, top, w).Done?
  {
  }

  lemma SizesLike(strings: bool, R: seq<Val>, R': seq<Val>)
    requires AllLike(strings, R, R')
    ensures |R| == |R'|
  {
  }

  lemma LeaveAgrees(strings: bool, below: seq<Frame>, below': seq<Frame>, dst: int, v: Val, v': Val, w: World)
    requires FramesLike(strings, below, below') && Like(strings, v, v') && !Leave(below, dst, v, w).Stuck?
    ensures RunLike(strings, Leave(below, dst, v, w), Leave(below', dst, v', EraseAll(w)))
  {
    hide Like;
    if below != [] {
      var n := |below| - 1;
      assert FrameLike(strings, below[n], below'[n]);
      var f, f' := below[n].(regs := FM.Write(below[n].regs, dst, v)),
        below'[n].(regs := FM.Write(below'[n].regs, dst, v'));
      assert FrameLike(strings, f, f');
      PushLike(strings, below[..n], below'[..n], f, f');
    }
  }

  lemma StepAgrees(strings: bool, C: Vm, P: Vm, st: Run<seq<Frame>>, st': Run<seq<Frame>>)
    requires Paired(strings, C, P) && RunLike(strings, st, st') && PortableStep(C, st, st')
    requires !Step(C, st).Failed? && !Step(C, st).Stuck?
    ensures RunLike(strings, Step(C, st), Step(P, st'))
  {
    hide FM.Step, Enter, Leave, PortableTop, AllLike, Like, SameForeign;
    if st.Going? {
      var n := |st.s| - 1;
      var below, below', top, top' := st.s[..n], st'.s[..n], st.s[n], st'.s[n];
      assert FrameLike(strings, top, top') && FramesLike(strings, below, below');
      if IsCall(C, top) {
        EnterIsNotDone(C, below, top, st.w);
        EnterAgrees(strings, C, P, below, below', top, top', st.w);
      } else {
        LocalAgrees(strings, C, P, top, top', st.w);
        var r, r' := FM.Step(CodeOf(C, top.func), FM.Running(top.pc, top.regs, st.w)),
          FM.Step(CodeOf(P, top'.func), FM.Running(top'.pc, top'.regs, st'.w));
        if r.Running? {
          PushLike(strings, below, below', top.(pc := r.pc, regs := r.regs), top'.(pc := r'.pc, regs := r'.regs));
        } else {
          LeaveAgrees(strings, below, below', top.dst, r.v, r'.v, r.w);
        }
      }
    }
  }

  // ---------------------------------------------------------------- whole runs

  /** As long as the C++ run is not refused and makes only portable calls, the Python run is the
      same run: same frames, same calls, and the same registers and result, except that Python may
      have a string where C++ has null. */
  lemma {:induction false} RunsAgree(strings: bool, C: Vm, P: Vm, st: Run<seq<Frame>>, st': Run<seq<Frame>>, n: nat)
    requires Paired(strings, C, P) && RunLike(strings, st, st') && !Steps(C, st, n).Failed? && !Steps(C, st, n).Stuck?
    requires forall m: nat :: m < n ==> PortableStep(C, Steps(C, st, m), Steps(P, st', m))
    ensures RunLike(strings, Steps(C, st, n), Steps(P, st', n))
    decreases n
  {
    if n > 0 {
      hide Step, Steps, PortableStep, RunLike, Paired;
      StepsFirst(C, st, n - 1);
      StepsFirst(P, st', n - 1);
      assert PortableStep(C, Steps(C, st, 0), Steps(P, st', 0));
      forall m: nat | m < n - 1 ensures PortableStep(C, Steps(C, Step(C, st), m), Steps(P, Step(P, st'), m)) {
        StepsFirst(C, st, m);
        StepsFirst(P, st', m);
      }
      StepsStay(C, Step(C, st), n - 1);
      StepAgrees(strings, C, P, st, st');
      RunsAgree(strings, C, P, Step(C, st), Step(P, st'), n - 1);
    }
  }

  lemma {:induction false} StepsFirst(X: Vm, st: Run<seq<Frame>>, m: nat)
    ensures Steps(X, st, 0) == st && Steps(X, st, m + 1) == Steps(X, Step(X, st), m)
  {
  }

  lemma {:induction false} StepsStay(X: Vm, st: Run<seq<Frame>>, n: nat)
    ensures !st.Going? ==> Steps(X, st, n) == st
  {
    if !st.Going? { StepsStopped(X, st, n); }
  }

  /** The two flat machines in lockstep: they go through the flat forms of like runs. */
  lemma {:induction false} FlatMachinesAgree(strings: bool, C: Vm, P: Vm, st: Run<seq<Frame>>, st': Run<seq<Frame>>,
                                             n: nat)
    requires Paired(strings, C, P) && RunLike(strings, st, st') && !Steps(C, st, n).Failed? && !Steps(C, st, n).Stuck?
    requires forall m: nat :: m < n ==> PortableStep(C, Steps(C, st, m), Steps(P, st', m))
    ensures CppSteps(C, Flat(st, FlatCpp), n) == Flat(Steps(C, st, n), FlatCpp)
    ensures PySteps(P, Flat(st', FlatPy), n) == Flat(Steps(P, st', n), FlatPy)
    ensures RunLike(strings, Steps(C, st, n), Steps(P, st', n))
  {
    RunsAgree(strings, C, P, st, st', n);
    CppRefines(C, st, n);
    PyRefines(P, st', n);
  }

  lemma LikeIsEqual(R: seq<Val>, R': seq<Val>)
    requires AllLike(false, R, R')
    ensures R == R'
  {
    assert forall k :: 0 <= k < |R| ==> Like(false, R[k], R'[k]);
  }

  /** Without string constants like runs are equal. */
  lemma LikeRunsAreEqual(st: Run<seq<Frame>>, st': Run<seq<Frame>>)
    requires RunLike(false, st, st')
    ensures st.Going? ==> st' == Going(st.s, EraseAll(st.w))
    ensures st.Done? ==> st' == Done(st.v, EraseAll(st.w))
  {
    if st.Going? {
      forall k | 0 <= k < |st.s| ensures st.s[k] == st'.s[k] {
        assert FrameLike(false, st.s[k], st'.s[k]);
        LikeIsEqual(st.s[k].regs, st'.s[k].regs);
      }
      assert st.s == st'.s;
    }
  }

  /** With them they are not: a function that returns a string constant. */
  lemma StringsAreLost(s: string)
    ensures var e := FunctionEntry(Named("f"), VMFunc, 0, 1, 1, 0, [ConstInit(0, 0)], []);
      var exe: Program := Executable([e], [RetInstr(0)], [Str(s)]);
      (forall ext, w :: Step(Vm(Machine(Cpp, ext), exe),
                             Going([Frame(0, 0, FM.FrameRegs(Cpp, e, [], exe.consts), -1)], w)) == Done(VNull, w)) &&
      (forall ext, w :: Step(Vm(Machine(Py, ext), exe),
                             Going([Frame(0, 0, FM.FrameRegs(Py, e, [], exe.consts), -1)], w)) == Done(VStr(s), w))
  {
    var e: Entry := FunctionEntry(Named("f"), VMFunc, 0, 1, 1, 0, [ConstInit(0, 0)], []);
    var exe: Program := Executable([e], [RetInstr(0)], [Str(s)]);
    assert e.inits[1..] == [];
    assert FM.FrameRegs(Cpp, e, [], exe.consts)[0] == VNull && FM.FrameRegs(Py, e, [], exe.consts)[0] == VStr(s);
    assert Body(exe, 0)[0] == RetInstr(0);
  }
}

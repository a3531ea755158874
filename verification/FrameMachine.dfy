/** One activation of one function: a program counter, its own registers, and the outside world. */
module FrameMachine {
  import opened Bytecode
  import opened Runtime
  import opened Builtins

  datatype Code = Code(M: Machine, funcs: seq<Entry>, instrs: seq<Instr>)

  datatype Status =
    | Running(pc: int, regs: seq<Val>, w: World)
    | Halted(v: Val, w: World)
    | Failed(w: World)
    | Stuck    // register, function or instruction index out of range, or a call to another VM function

  predicate InRange(idx: seq<int>, n: nat) {
    forall k :: 0 <= k < |idx| ==> 0 <= idx[k] < n
  }

  function Read(regs: seq<Val>, idx: seq<int>): (vals: seq<Val>)
    requires InRange(idx, |regs|)
    ensures |vals| == |idx|
    ensures forall k :: 0 <= k < |idx| ==> vals[k] == regs[idx[k]]
  {
    seq(|idx|, k requires 0 <= k < |idx| => regs[idx[k]])
  }

  function Write(regs: seq<Val>, dst: int, v: Val): seq<Val>
    requires dst < |regs|
  {
    if dst < 0 then regs else regs[dst := v]
  }

  function StepCall(P: Code, i: Instr, pc: int, regs: seq<Val>, w: World): Status {
    if !(0 <= i.func < |P.funcs|) || P.funcs[i.func].kind == VMFunc then Stuck
    else if !InRange(i.args, |regs|) || !InRange(i.launch, |regs|) || i.dst >= |regs| then Stuck
    else
      match LaunchArgs(P.M.host, Read(regs, i.launch))
      case None => Failed(w)
      case Some(dims) =>
        var callee := P.funcs[i.func];
        var r := Dispatch(P.M.host, P.M.ext, callee.kind, callee.name, Read(regs, i.args), dims, w);
        match r.result
        case None => Failed(r.w)
        case Some(v) => Running(pc + 1, Write(regs, i.dst, v), r.w)
  }

  function Step(P: Code, st: Status): Status {
    if !st.Running? then st
    else if !(0 <= st.pc < |P.instrs|) then Stuck
    else
      var i := P.instrs[st.pc];
      match i.op
      case CALL => StepCall(P, i, st.pc, st.regs, st.w)
      case RET =>
        if i.src < 0 then Halted(VNull, st.w)
        else if i.src >= |st.regs| then Stuck
        else Halted(st.regs[i.src], st.w)
      case IF =>
        if !(0 <= i.cond < |st.regs|) then Stuck
        else
          (match AsBool(P.M.host, st.regs[i.cond])
           case None => Failed(st.w)
           case Some(c) => Running(st.pc + (if c then i.trueOff else i.falseOff), st.regs, st.w))
      case GOTO => Running(st.pc + i.off, st.regs, st.w)
  }

  function Steps(P: Code, st: Status, n: nat): Status
    decreases n
  {
    if n == 0 then st else Steps(P, Step(P, st), n - 1)
  }

  lemma {:induction false} StepsAdd(P: Code, st: Status, a: nat, b: nat)
    ensures Steps(P, st, a + b) == Steps(P, Steps(P, st, a), b)
    decreases a
  {
    if a > 0 { StepsAdd(P, Step(P, st), a - 1, b); }
  }

  /** A stopped activation stays as it is. */
  lemma {:induction false} StepsStopped(P: Code, st: Status, n: nat)
    requires !st.Running?
    ensures Steps(P, st, n) == st
  {
    if n > 0 { StepsStopped(P, st, n - 1); }
  }

  predicate At(instrs: seq<Instr>, pc: int, code: seq<Instr>) {
    0 <= pc && pc + |code| <= |instrs| && instrs[pc..pc + |code|] == code
  }

  lemma AtParts(instrs: seq<Instr>, pc: int, a: seq<Instr>, b: seq<Instr>)
    requires At(instrs, pc, a + b)
    ensures At(instrs, pc, a) && At(instrs, pc + |a|, b)
  {
    var whole := instrs[pc..pc + |a + b|];
    assert whole[..|a|] == a && whole[|a|..] == b;
    assert instrs[pc..pc + |a|] == whole[..|a|];
    assert instrs[pc + |a|..pc + |a| + |b|] == whole[|a|..];
  }

  lemma AtHead(instrs: seq<Instr>, pc: int, i: Instr)
    requires At(instrs, pc, [i])
    ensures pc < |instrs| && instrs[pc] == i
  {
    assert instrs[pc..pc + 1][0] == instrs[pc];
  }

  // ---------------------------------------------------------------- a new activation

  /** Constants are stored after the arguments, in the order they were pooled. */
  function Preload(h: Host, regs: seq<Val>, inits: seq<ConstInit>, consts: seq<Const>): (r: seq<Val>)
    requires forall ci <- inits :: 0 <= ci.reg < |regs| && 0 <= ci.idx < |consts|
    ensures |r| == |regs|
    decreases |inits|
  {
    if inits == [] then regs
    else Preload(h, regs[inits[0].reg := Load(h, consts[inits[0].idx])], inits[1..], consts)
  }

  /** The frame can be set up: there is room for the arguments and for every constant. */
  predicate FrameFits(e: Entry, args: seq<Val>, consts: seq<Const>) {
    |args| <= e.numRegs && forall ci <- e.inits :: 0 <= ci.reg < e.numRegs && 0 <= ci.idx < |consts|
  }

  /** Null registers, then the arguments, then the constants. */
  function FrameRegs(h: Host, e: Entry, args: seq<Val>, consts: seq<Const>): (r: seq<Val>)
    requires FrameFits(e, args, consts)
    ensures |r| == e.numRegs
  {
    Preload(h, args + seq(e.numRegs - |args|, _ => VNull), e.inits, consts)
  }

  lemma {:induction false} PreloadOther(h: Host, regs: seq<Val>, inits: seq<ConstInit>, consts: seq<Const>, r: nat)
    requires forall ci <- inits :: 0 <= ci.reg < |regs| && 0 <= ci.idx < |consts|
    requires r < |regs| && forall ci <- inits :: ci.reg != r
    ensures Preload(h, regs, inits, consts)[r] == regs[r]
    decreases |inits|
  {
    if inits != [] { PreloadOther(h, regs[inits[0].reg := Load(h, consts[inits[0].idx])], inits[1..], consts, r); }
  }

  lemma {:induction false} PreloadAt(h: Host, regs: seq<Val>, inits: seq<ConstInit>, consts: seq<Const>, k: nat)
    requires forall ci <- inits :: 0 <= ci.reg < |regs| && 0 <= ci.idx < |consts|
    requires k < |inits| && forall j :: k < j < |inits| ==> inits[j].reg != inits[k].reg
    ensures Preload(h, regs, inits, consts)[inits[k].reg] == Load(h, consts[inits[k].idx])
    decreases |inits|
  {
    var next := regs[inits[0].reg := Load(h, consts[inits[0].idx])];
    if k == 0 {
      PreloadOther(h, next, inits[1..], consts, inits[0].reg);
    } else {
      PreloadAt(h, next, inits[1..], consts, k - 1);
    }
  }
}

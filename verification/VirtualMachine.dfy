/** A call stack of activations that each own their registers, and whole-program correctness.

    This is the machine one has in mind; FlatMachines.dfy relates it to the two machines that
    keep all registers in one growing file. */
module VirtualMachine {
  import opened Bytecode
  import opened Runtime
  import opened Builtins
  import FM = FrameMachine

  /** The program and the host it runs on. */
  datatype Vm = Vm(M: Machine, exe: Program)

  datatype Run<+S> =
    | Going(s: S, w: World)
    | Done(v: Val, w: World)
    | Failed(w: World)
    | Stuck    // an index out of range

  /** `dst` is where the caller wants the result; -1 when nowhere. */
  datatype Frame = Frame(func: nat, pc: int, regs: seq<Val>, dst: int)

  predicate IsFunction(exe: Program, f: int) {
    0 <= f < |exe.funcs| && exe.funcs[f].instrOffset >= 0 && exe.funcs[f].instrCount >= 0 &&
    exe.funcs[f].instrOffset + exe.funcs[f].instrCount <= |exe.instrs|
  }

  /** The instructions of one function. */
  function Body(exe: Program, f: int): seq<Instr>
    requires IsFunction(exe, f)
  {
    exe.instrs[exe.funcs[f].instrOffset..exe.funcs[f].instrOffset + exe.funcs[f].instrCount]
  }

  function CodeOf(X: Vm, f: int): FM.Code
    requires IsFunction(X.exe, f)
  {
    FM.Code(X.M, X.exe.funcs, Body(X.exe, f))
  }

  predicate IsCall(X: Vm, f: Frame) {
    IsFunction(X.exe, f.func) && 0 <= f.pc < |Body(X.exe, f.func)| &&
    var i := Body(X.exe, f.func)[f.pc];
    i.op == CALL && 0 <= i.func < |X.exe.funcs| && X.exe.funcs[i.func].kind == VMFunc
  }

  /** Calling a VM function: a new activation on top, the caller resumes behind the call. */
  function Enter(X: Vm, below: seq<Frame>, top: Frame, w: World): Run<seq<Frame>>
    requires IsCall(X, top)
  {
    var i := Body(X.exe, top.func)[top.pc];
    var callee := X.exe.funcs[i.func];
    if !FM.InRange(i.args, |top.regs|) || !FM.InRange(i.launch, |top.regs|) then Stuck
    else
      match LaunchArgs(X.M.host, FM.Read(top.regs, i.launch))
      case None => Failed(w)
      case Some(_) =>
        var args := FM.Read(top.regs, i.args);
        if !FM.FrameFits(callee, args, X.exe.consts) then Stuck
        else Going(below + [top.(pc := top.pc + 1),
                            Frame(i.func, 0, FM.FrameRegs(X.M.host, callee, args, X.exe.consts), i.dst)], w)
  }

  /** Returning: the activation is gone and its caller, if any, gets the result. */
  function Leave(below: seq<Frame>, dst: int, v: Val, w: World): Run<seq<Frame>> {
    if below == [] then Done(v, w)
    else
      var caller := below[|below| - 1];
      if dst >= |caller.regs| then Stuck
      else Going(below[..|below| - 1] + [caller.(regs := FM.Write(caller.regs, dst, v))], w)
  }

  function Step(X: Vm, st: Run<seq<Frame>>): Run<seq<Frame>> {
    if !st.Going? then st
    else if st.s == [] then Stuck
    else
      var below, top := st.s[..|st.s| - 1], st.s[|st.s| - 1];
      if !IsFunction(X.exe, top.func) then Stuck
      else if IsCall(X, top) then Enter(X, below, top, st.w)
      else
        match FM.Step(CodeOf(X, top.func), FM.Running(top.pc, top.regs, st.w))
        case Running(pc, regs, w) => Going(below + [top.(pc := pc, regs := regs)], w)
        case Halted(v, w) => Leave(below, top.dst, v, w)
        case Failed(w) => Failed(w)
        case Stuck => Stuck
  }

  function Steps(X: Vm, st: Run<seq<Frame>>, n: nat): Run<seq<Frame>>
    decreases n
  {
    if n == 0 then st else Steps(X, Step(X, st), n - 1)
  }

  lemma {:induction false} StepsAdd(X: Vm, st: Run<seq<Frame>>, a: nat, b: nat)
    ensures Steps(X, st, a + b) == Steps(X, Steps(X, st, a), b)
    decreases a
  {
    if a > 0 { StepsAdd(X, Step(X, st), a - 1, b); }
  }

  lemma {:induction false} StepsStopped(X: Vm, st: Run<seq<Frame>>, n: nat)
    requires !st.Going?
    ensures Steps(X, st, n) == st
    decreases n
  {
    if n > 0 { StepsStopped(X, st, n - 1); }
  }

  ghost predicate Received(f: Frame, f': Frame, dst: int, v: Val) {
    0 <= dst < |f.regs| && f' == f.(regs := f.regs[dst := v])
  }

  /** A step works on the top activation; below it, only the direct caller can change, and only
      in the register the returned value was meant for. */
  lemma FramesIsolated(X: Vm, frames: seq<Frame>, w: World, k: nat) returns (v: Val)
    requires k < |frames| - 1 && Step(X, Going(frames, w)).Going?
    ensures var frames' := Step(X, Going(frames, w)).s;
      k < |frames'| &&
      (frames'[k] == frames[k] ||
       (k == |frames| - 2 && |frames'| == k + 1 && Received(frames[k], frames'[k], frames[k + 1].dst, v)))
  {
    v := VNull;
    var below, top := frames[..|frames| - 1], frames[|frames| - 1];
    if !IsCall(X, top) && FM.Step(CodeOf(X, top.func), FM.Running(top.pc, top.regs, w)).Halted? {
      v := FM.Step(CodeOf(X, top.func), FM.Running(top.pc, top.regs, w)).v;
      if k == |frames| - 2 && top.dst >= 0 {
        assert Received(frames[k], frames[k].(regs := FM.Write(frames[k].regs, top.dst, v)), top.dst, v);
      }
    }
  }

  // ---------------------------------------------------------------- one activation at a time

  ghost function Lift(below: seq<Frame>, f: nat, dst: int, st: FM.Status): Run<seq<Frame>> {
    match st
    case Running(pc, regs, w) => Going(below + [Frame(f, pc, regs, dst)], w)
    case Halted(v, w) => Leave(below, dst, v, w)
    case Failed(w) => Failed(w)
    case Stuck => Stuck
  }

  /** An activation that is never stuck alone behaves the same on top of others. */
  lemma {:induction false} LiftSteps(X: Vm, below: seq<Frame>, f: nat, dst: int, pc: int, regs: seq<Val>, w: World,
                                     n: nat)
    requires IsFunction(X.exe, f) && !FM.Steps(CodeOf(X, f), FM.Running(pc, regs, w), n).Stuck?
    requires n > 0 ==> FM.Steps(CodeOf(X, f), FM.Running(pc, regs, w), n - 1).Running?
    ensures Steps(X, Going(below + [Frame(f, pc, regs, dst)], w), n) ==
            Lift(below, f, dst, FM.Steps(CodeOf(X, f), FM.Running(pc, regs, w), n))
    decreases n
  {
    var frames := below + [Frame(f, pc, regs, dst)];
    if n > 0 {
      assert frames[..|frames| - 1] == below;
      var next := FM.Step(CodeOf(X, f), FM.Running(pc, regs, w));
      if next.Stuck? { FM.StepsStopped(CodeOf(X, f), next, n - 1); }
      if n == 1 {
        assert FM.Steps(CodeOf(X, f), FM.Running(pc, regs, w), 1) == next
          by { assert FM.Steps(CodeOf(X, f), next, 0) == next; }
        assert Steps(X, Step(X, Going(frames, w)), 0) == Step(X, Going(frames, w));
      } else {
        if !next.Running? { FM.StepsStopped(CodeOf(X, f), next, n - 2); }
        LiftSteps(X, below, f, dst, next.pc, next.regs, next.w, n - 1);
      }
    }
  }
}

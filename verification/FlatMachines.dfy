/** The two machines that keep the registers of all activations in one growing file
    (runtime/src/vm.cc, python/devproc2/vm/interpreter.py), and why that is the same as giving
    every activation its own registers. */
module FlatMachines {
  import opened Bytecode
  import opened Runtime
  import opened Builtins
  import FM = FrameMachine
  import opened VirtualMachine

  // ---------------------------------------------------------------- shared access

  function InstrAt(exe: Program, f: nat, pc: int): Option<Instr> {
    if f < |exe.funcs| && 0 <= exe.funcs[f].instrOffset + pc < |exe.instrs|
    then Some(exe.instrs[exe.funcs[f].instrOffset + pc]) else None
  }

  predicate InFile(regs: seq<Val>, base: nat, idx: seq<int>) {
    forall k :: 0 <= k < |idx| ==> 0 <= base + idx[k] < |regs|
  }

  function ReadFile(regs: seq<Val>, base: nat, idx: seq<int>): (vals: seq<Val>)
    requires InFile(regs, base, idx)
  {
    seq(|idx|, k requires 0 <= k < |idx| => regs[base + idx[k]])
  }

  // ---------------------------------------------------------------- the C++ machine

  datatype CppFrame = CppFrame(func: nat, pc: int, base: nat, callerDst: int, callerBase: int)

  datatype CppState = CppState(regs: seq<Val>, frames: seq<CppFrame>)

  /** VMState::PushFrame: the frame's registers go behind those in use. */
  function CppPush(h: Host, exe: Program, s: CppState, fr: CppFrame, args: seq<Val>, w: World): Run<CppState> {
    if fr.func >= |exe.funcs| || !FM.FrameFits(exe.funcs[fr.func], args, exe.consts) then Stuck
    else Going(CppState(s.regs + FM.FrameRegs(h, exe.funcs[fr.func], args, exe.consts), s.frames + [fr]), w)
  }

  function CppCall(X: Vm, s: CppState, i: Instr, w: World): Run<CppState>
    requires s.frames != []
  {
    var below, top := s.frames[..|s.frames| - 1], s.frames[|s.frames| - 1];
    if !(0 <= i.func < |X.exe.funcs|) || !InFile(s.regs, top.base, i.args) ||
      !InFile(s.regs, top.base, i.launch) then Stuck
    else
      var callee, args := X.exe.funcs[i.func], ReadFile(s.regs, top.base, i.args);
      match LaunchArgs(X.M.host, ReadFile(s.regs, top.base, i.launch))
      case None => Failed(w)
      case Some(launch) =>
        if callee.kind == VMFunc then
          CppPush(X.M.host, X.exe, s.(frames := below + [top.(pc := top.pc + 1)]),
                  CppFrame(i.func, 0, |s.regs|, i.dst, top.base), args, w)
        else
          var r := Dispatch(X.M.host, X.M.ext, callee.kind, callee.name, args, launch, w);
          if r.result.None? then Failed(r.w)
          else if i.dst >= 0 && top.base + i.dst >= |s.regs| then Stuck
          else Going(CppState(if i.dst >= 0 then s.regs[top.base + i.dst := r.result.value] else s.regs,
                         below + [top.(pc := top.pc + 1)]), r.w)
  }

  function CppReturn(s: CppState, i: Instr, w: World): Run<CppState>
    requires s.frames != []
  {
    var below, top := s.frames[..|s.frames| - 1], s.frames[|s.frames| - 1];
    if (i.src >= 0 && top.base + i.src >= |s.regs|) || top.base > |s.regs| then Stuck
    else
      var result := if i.src >= 0 then s.regs[top.base + i.src] else VNull;
      var regs := s.regs[..top.base];
      if below == [] then Done(result, w)
      else if top.callerDst < 0 then Going(CppState(regs, below), w)
      else if !(0 <= top.callerBase + top.callerDst < |regs|) then Stuck
      else Going(CppState(regs[top.callerBase + top.callerDst := result], below), w)
  }

  /** One turn of VMState::ExecuteLoop. */
  function CppStep(X: Vm, st: Run<CppState>): Run<CppState> {
    if !st.Going? then st
    else if st.s.frames == [] then Done(VNull, st.w)
    else
      var s, w := st.s, st.w;
      var below, top := s.frames[..|s.frames| - 1], s.frames[|s.frames| - 1];
      match InstrAt(X.exe, top.func, top.pc)
      case None => Stuck
      case Some(i) =>
        match i.op
        case CALL => CppCall(X, s, i, w)
        case RET => CppReturn(s, i, w)
        case IF =>
          if !(0 <= top.base + i.cond < |s.regs|) then Stuck
          else
            (match AsBool(X.M.host, s.regs[top.base + i.cond])
             case None => Failed(w)
             case Some(c) => Going(s.(frames := below + [top.(pc := top.pc + if c then i.trueOff else i.falseOff)]), w))
        case GOTO => Going(s.(frames := below + [top.(pc := top.pc + i.off)]), w)
  }

  function CppSteps(X: Vm, st: Run<CppState>, n: nat): Run<CppState>
    decreases n
  {
    if n == 0 then st else CppSteps(X, CppStep(X, st), n - 1)
  }

  // ---------------------------------------------------------------- the Python machine

  datatype PyFrame = PyFrame(func: nat, pc: int, base: nat)

  datatype Slot = Slot(dst: int, base: nat)

  /** Where results go is kept on a stack of its own. */
  datatype PyState = PyState(regs: seq<Val>, frames: seq<PyFrame>, slots: seq<Slot>)

  function PyPush(h: Host, exe: Program, s: PyState, f: nat, args: seq<Val>, w: World): Run<PyState> {
    if f >= |exe.funcs| || !FM.FrameFits(exe.funcs[f], args, exe.consts) then Stuck
    else Going(s.(regs := s.regs + FM.FrameRegs(h, exe.funcs[f], args, exe.consts),
                  frames := s.frames + [PyFrame(f, 0, |s.regs|)]), w)
  }

  function PyCall(X: Vm, s: PyState, i: Instr, w: World): Run<PyState>
    requires s.frames != []
  {
    var below, top := s.frames[..|s.frames| - 1], s.frames[|s.frames| - 1];
    if !(0 <= i.func < |X.exe.funcs|) || !InFile(s.regs, top.base, i.args) then Stuck
    else
      var callee, args := X.exe.funcs[i.func], ReadFile(s.regs, top.base, i.args);
      if callee.kind == VMFunc then
        PyPush(X.M.host, X.exe, s.(frames := below + [top.(pc := top.pc + 1)], slots := s.slots +
                                   [Slot(i.dst, top.base)]), i.func, args, w)
      else
        var r := Dispatch(X.M.host, X.M.ext, callee.kind, callee.name, args, [], w);
        if r.result.None? then Failed(r.w)
        else if i.dst >= 0 && top.base + i.dst >= |s.regs| then Stuck
        else Going(s.(regs := if i.dst >= 0 then s.regs[top.base + i.dst := r.result.value] else s.regs,
                      frames := below + [top.(pc := top.pc + 1)]), r.w)
  }

  function PyReturn(s: PyState, i: Instr, w: World): Run<PyState>
    requires s.frames != []
  {
    var below, top := s.frames[..|s.frames| - 1], s.frames[|s.frames| - 1];
    if (i.src >= 0 && top.base + i.src >= |s.regs|) || top.base > |s.regs| then Stuck
    else
      var result := if i.src >= 0 then s.regs[top.base + i.src] else VNull;
      var regs := s.regs[..top.base];
      if below == [] then Done(result, w)
      else if s.slots == [] then Stuck
      else
        var slot := s.slots[|s.slots| - 1];
        var slots := s.slots[..|s.slots| - 1];
        if slot.dst < 0 then Going(PyState(regs, below, slots), w)
        else if slot.base + slot.dst >= |regs| then Stuck
        else Going(PyState(regs[slot.base + slot.dst := result], below, slots), w)
  }

  /** One turn of the loop in VMInterpreter.invoke. */
  function PyStep(X: Vm, st: Run<PyState>): Run<PyState> {
    if !st.Going? then st
    else if st.s.frames == [] then Done(VNull, st.w)
    else
      var s, w := st.s, st.w;
      var below, top := s.frames[..|s.frames| - 1], s.frames[|s.frames| - 1];
      match InstrAt(X.exe, top.func, top.pc)
      case None => Stuck
      case Some(i) =>
        match i.op
        case CALL => PyCall(X, s, i, w)
        case RET => PyReturn(s, i, w)
        case IF =>
          if !(0 <= top.base + i.cond < |s.regs|) then Stuck
          else
            (match AsBool(X.M.host, s.regs[top.base + i.cond])
             case None => Failed(w)
             case Some(c) => Going(s.(frames := below + [top.(pc := top.pc + if c then i.trueOff else i.falseOff)]), w))
        case GOTO => Going(s.(frames := below + [top.(pc := top.pc + i.off)]), w)
  }

  function PySteps(X: Vm, st: Run<PyState>, n: nat): Run<PyState>
    decreases n
  {
    if n == 0 then st else PySteps(X, PyStep(X, st), n - 1)
  }

  // ---------------------------------------------------------------- flattening

  /** All registers, one activation after the other. */
  function File(frames: seq<Frame>): seq<Val>
    decreases |frames|
  {
    if frames == [] then [] else File(frames[..|frames| - 1]) + frames[|frames| - 1].regs
  }

  /** The base of an activation is the number of registers below it. */
  function BaseOf(frames: seq<Frame>, k: nat): nat
    requires k <= |frames|
  {
    |File(frames[..k])|
  }

  function CallerBase(below: seq<Frame>): int {
    if below == [] then -1 else BaseOf(below, |below| - 1)
  }

  function CppFrames(frames: seq<Frame>): seq<CppFrame>
    decreases |frames|
  {
    if frames == [] then []
    else
      var below, top := frames[..|frames| - 1], frames[|frames| - 1];
      CppFrames(below) + [CppFrame(top.func, top.pc, |File(below)|, top.dst, CallerBase(below))]
  }

  function PyFrames(frames: seq<Frame>): seq<PyFrame>
    decreases |frames|
  {
    if frames == [] then []
    else
      var below, top := frames[..|frames| - 1], frames[|frames| - 1];
      PyFrames(below) + [PyFrame(top.func, top.pc, |File(below)|)]
  }

  /** One return slot for every activation but the first. */
  function Slots(frames: seq<Frame>): seq<Slot>
    decreases |frames|
  {
    if |frames| <= 1 then []
    else
      var below, top := frames[..|frames| - 1], frames[|frames| - 1];
      Slots(below) + [Slot(top.dst, BaseOf(below, |below| - 1))]
  }

  function FlatCpp(frames: seq<Frame>): CppState {
    CppState(File(frames), CppFrames(frames))
  }

  function FlatPy(frames: seq<Frame>): PyState {
    PyState(File(frames), PyFrames(frames), Slots(frames))
  }

  function Flat<S>(st: Run<seq<Frame>>, flatten: seq<Frame> -> S): Run<S> {
    match st
    case Going(frames, w) => Going(flatten(frames), w)
    case Done(v, w) => Done(v, w)
    case Failed(w) => Failed(w)
    case Stuck => Stuck
  }

  /** Changing the registers and the pc of the top, not their number, moves nothing. */
  lemma BasesBelow(below: seq<Frame>, top: Frame, top': Frame, k: nat)
    requires k <= |below|
    ensures BaseOf(below + [top], k) == BaseOf(below, k)
    ensures (below + [top])[..k] == below[..k]
  {
    assert (below + [top])[..k] == below[..k];
  }

  lemma {:induction false} FlatTop(below: seq<Frame>, top: Frame)
    ensures var c := FlatCpp(below + [top]);
      c.regs == File(below) + top.regs &&
      c.frames == FlatCpp(below).frames + [CppFrame(top.func, top.pc, |File(below)|, top.dst, CallerBase(below))]
    ensures var p := FlatPy(below + [top]);
      p.regs == File(below) + top.regs &&
      p.frames == FlatPy(below).frames + [PyFrame(top.func, top.pc, |File(below)|)] &&
      p.slots == FlatPy(below).slots + (if below == [] then [] else [Slot(top.dst, BaseOf(below, |below| - 1))])
  {
    var frames := below + [top];
    assert frames[..|frames| - 1] == below;
  }

  // ---------------------------------------------------------------- refinement

  /** Reading a register of the top activation through the file. */
  lemma {:induction false} ReadTop(below: seq<Frame>, top: Frame, idx: seq<int>)
    requires FM.InRange(idx, |top.regs|)
    ensures var regs := File(below) + top.regs;
      InFile(regs, |File(below)|, idx) && ReadFile(regs, |File(below)|, idx) == FM.Read(top.regs, idx)
  {
  }

  lemma {:induction false} WriteTop(below: seq<Frame>, top: Frame, dst: int, v: Val)
    requires dst < |top.regs|
    ensures var base := |File(below)|; var regs := File(below) + top.regs;
      dst >= 0 ==> base + dst < |regs| && regs[base + dst := v] == File(below) + FM.Write(top.regs, dst, v)
  {
  }

  /** The instruction under the top activation's pc. */
  lemma InstrTop(X: Vm, top: Frame)
    requires IsFunction(X.exe, top.func) && 0 <= top.pc < |Body(X.exe, top.func)|
    ensures InstrAt(X.exe, top.func, top.pc) == Some(Body(X.exe, top.func)[top.pc])
  {
  }

  /** Returning to the caller: writing through the caller's base is writing the caller's register. */
  lemma LeaveFile(below: seq<Frame>, dst: int, v: Val)
    requires below != [] && dst < |below[|below| - 1].regs|
    ensures var init, caller := below[..|below| - 1], below[|below| - 1];
      var base := BaseOf(below, |below| - 1);
      base == |File(init)| && File(below) == File(init) + caller.regs &&
      (dst >= 0 ==>
        base + dst < |File(below)| && File(below)[base + dst := v] == File(init) + FM.Write(caller.regs, dst, v))
  {
  }

  lemma CppEnterRefines(X: Vm, below: seq<Frame>, top: Frame, w: World)
    requires IsCall(X, top) && Enter(X, below, top, w) != Stuck
    ensures CppStep(X, Going(FlatCpp(below + [top]), w)) == Flat(Enter(X, below, top, w), FlatCpp)
  {
    hide FM.FrameRegs, LaunchArgs, File;
    var i := Body(X.exe, top.func)[top.pc];
    FlatTop(below, top);
    InstrTop(X, top);
    ReadTop(below, top, i.args);
    ReadTop(below, top, i.launch);
    var s := FlatCpp(below + [top]);
    assert s.frames[..|s.frames| - 1] == FlatCpp(below).frames;
    if Enter(X, below, top, w).Going? {
      var callee := X.exe.funcs[i.func];
      var moved := top.(pc := top.pc + 1);
      var new_ := Frame(i.func, 0, FM.FrameRegs(X.M.host, callee, FM.Read(top.regs, i.args), X.exe.consts), i.dst);
      FlatTop(below, moved);
      FlatTop(below + [moved], new_);
      BasesBelow(below, moved, moved, |below|);
      assert below + [moved, new_] == below + [moved] + [new_];
      assert below[..|below|] == below;
    }
  }

  lemma CppLeaveRefines(X: Vm, below: seq<Frame>, top: Frame, i: Instr, v: Val, w: World)
    requires Leave(below, top.dst, v, w) != Stuck
    requires if i.src < 0 then v == VNull else i.src < |top.regs| && v == top.regs[i.src]
    ensures CppReturn(FlatCpp(below + [top]), i, w) == Flat(Leave(below, top.dst, v, w), FlatCpp)
  {
    hide File;
    FlatTop(below, top);
    var s := FlatCpp(below + [top]);
    assert s.frames[..|s.frames| - 1] == FlatCpp(below).frames;
    assert s.regs[..|File(below)|] == File(below);
    if below != [] {
      var init, caller := below[..|below| - 1], below[|below| - 1];
      assert init + [caller] == below;
      LeaveFile(below, top.dst, v);
      FlatTop(init, caller);
      FlatTop(init, caller.(regs := FM.Write(caller.regs, top.dst, v)));
    }
  }

  /** A step of the stack machine that is not a call of a VM function. */
  lemma StepTop(X: Vm, below: seq<Frame>, top: Frame, w: World)
    requires IsFunction(X.exe, top.func) && !IsCall(X, top)
    ensures Step(X, Going(below + [top], w)) ==
      match FM.Step(CodeOf(X, top.func), FM.Running(top.pc, top.regs, w))
      case Running(pc, regs, w') => Going(below + [top.(pc := pc, regs := regs)], w')
      case Halted(v, w') => Leave(below, top.dst, v, w')
      case Failed(w') => Failed(w')
      case Stuck => Stuck
  {
    var frames := below + [top];
    assert frames[..|frames| - 1] == below;
  }

  lemma CppExternalRefines(X: Vm, below: seq<Frame>, top: Frame, i: Instr, w: World)
    requires IsFunction(X.exe, top.func) && 0 <= i.func < |X.exe.funcs| && X.exe.funcs[i.func].kind != VMFunc
    requires FM.StepCall(CodeOf(X, top.func), i, top.pc, top.regs, w) != FM.Stuck
    ensures CppCall(X, FlatCpp(below + [top]), i, w) ==
      match FM.StepCall(CodeOf(X, top.func), i, top.pc, top.regs, w)
      case Running(pc, regs, w') => Going(FlatCpp(below + [top.(pc := pc, regs := regs)]), w')
      case Failed(w') => Failed(w')
      case _ => Stuck
  {
    hide File, LaunchArgs, Dispatch, CppFrames;
    FlatTop(below, top);
    ReadTop(below, top, i.args);
    ReadTop(below, top, i.launch);
    var s := FlatCpp(below + [top]);
    assert s.frames[..|s.frames| - 1] == FlatCpp(below).frames;
    var next := FM.StepCall(CodeOf(X, top.func), i, top.pc, top.regs, w);
    if next.Running? {
      var callee := X.exe.funcs[i.func];
      var launch := LaunchArgs(X.M.host, FM.Read(top.regs, i.launch)).value;
      var v := Dispatch(X.M.host, X.M.ext, callee.kind, callee.name, FM.Read(top.regs, i.args), launch, w).result.value;
      WriteTop(below, top, i.dst, v);
      FlatTop(below, top.(pc := next.pc, regs := next.regs));
    }
  }

  lemma CppJumpRefines(X: Vm, below: seq<Frame>, top: Frame, off: int)
    ensures var s := FlatCpp(below + [top]);
      FlatCpp(below + [top.(pc := top.pc + off)]) == s.(frames := s.frames[..|s.frames| - 1] +
                                                        [s.frames[|s.frames| - 1].(pc := top.pc + off)])
  {
    FlatTop(below, top);
    FlatTop(below, top.(pc := top.pc + off));
    var s := FlatCpp(below + [top]);
    assert s.frames[..|s.frames| - 1] == FlatCpp(below).frames;
  }

  /** A step that stays in the top activation, or leaves it. */
  lemma CppLocalRefines(X: Vm, below: seq<Frame>, top: Frame, w: World)
    requires IsFunction(X.exe, top.func) && !IsCall(X, top)
    requires Step(X, Going(below + [top], w)) != Stuck
    ensures CppStep(X, Going(FlatCpp(below + [top]), w)) == Flat(Step(X, Going(below + [top], w)), FlatCpp)
  {
    hide File, LaunchArgs, Dispatch, AsBool, FlatCpp, CppCall, CppReturn, Leave, FM.StepCall;
    StepTop(X, below, top, w);
    var i := Body(X.exe, top.func)[top.pc];
    CppTop(below, top);
    InstrTop(X, top);
    match i.op
    case CALL =>
      CallInRange(X, top, i, w);
      CallNeverHalts(CodeOf(X, top.func), i, top.pc, top.regs, w);
      CppExternalRefines(X, below, top, i, w);
    case RET =>
      CppLeaveRefines(X, below, top, i, if i.src < 0 then VNull else top.regs[i.src], w);
    case IF =>
      CppJumpRefines(X, below, top, i.trueOff);
      CppJumpRefines(X, below, top, i.falseOff);
    case GOTO =>
      CppJumpRefines(X, below, top, i.off);
  }

  lemma CallInRange(X: Vm, top: Frame, i: Instr, w: World)
    requires IsFunction(X.exe, top.func)
    ensures !(0 <= i.func < |X.exe.funcs|) ==> FM.StepCall(CodeOf(X, top.func), i, top.pc, top.regs, w) == FM.Stuck
  {
  }

  lemma CallNeverHalts(P: FM.Code, i: Instr, pc: int, regs: seq<Val>, w: World)
    ensures !FM.StepCall(P, i, pc, regs, w).Halted?
  {
  }

  lemma CppTop(below: seq<Frame>, top: Frame)
    ensures var s := FlatCpp(below + [top]);
      |s.frames| > 0 && s.frames[|s.frames| - 1].func == top.func && s.frames[|s.frames| - 1].pc == top.pc &&
      forall r :: 0 <= r < |top.regs| ==>
        0 <= s.frames[|s.frames| - 1].base + r < |s.regs| && s.regs[s.frames[|s.frames| - 1].base + r] == top.regs[r]
  {
    FlatTop(below, top);
  }

  lemma CppStepRefines(X: Vm, st: Run<seq<Frame>>)
    requires Step(X, st) != Stuck
    ensures CppStep(X, Flat(st, FlatCpp)) == Flat(Step(X, st), FlatCpp)
  {
    if st.Going? {
      var below, top := st.s[..|st.s| - 1], st.s[|st.s| - 1];
      assert below + [top] == st.s;
      if IsCall(X, top) {
        CppEnterRefines(X, below, top, st.w);
      } else {
        CppLocalRefines(X, below, top, st.w);
      }
    }
  }

  /** The C++ machine does what the machine with separate activations does, over whole runs. */
  lemma {:induction false} CppRefines(X: Vm, st: Run<seq<Frame>>, n: nat)
    requires Steps(X, st, n) != Stuck
    ensures CppSteps(X, Flat(st, FlatCpp), n) == Flat(Steps(X, st, n), FlatCpp)
    decreases n
  {
    hide Step, CppStep, Flat, FlatCpp;
    if n > 0 {
      if Step(X, st) == Stuck { StepsStopped(X, Step(X, st), n - 1); }
      CppStepRefines(X, st);
      CppRefines(X, Step(X, st), n - 1);
    }
  }

  // ---------------------------------------------------------------- the Python machine

  lemma PyEnterRefines(X: Vm, below: seq<Frame>, top: Frame, w: World)
    requires X.M.host == Py && IsCall(X, top) && Enter(X, below, top, w) != Stuck
    ensures PyStep(X, Going(FlatPy(below + [top]), w)) == Flat(Enter(X, below, top, w), FlatPy)
  {
    hide FM.FrameRegs, File;
    var i := Body(X.exe, top.func)[top.pc];
    FlatTop(below, top);
    InstrTop(X, top);
    ReadTop(below, top, i.args);
    var s := FlatPy(below + [top]);
    assert s.frames[..|s.frames| - 1] == FlatPy(below).frames;
    if Enter(X, below, top, w).Going? {
      var callee := X.exe.funcs[i.func];
      var moved := top.(pc := top.pc + 1);
      var new_ := Frame(i.func, 0, FM.FrameRegs(X.M.host, callee, FM.Read(top.regs, i.args), X.exe.consts), i.dst);
      FlatTop(below, moved);
      FlatTop(below + [moved], new_);
      BasesBelow(below, moved, moved, |below|);
      assert below + [moved, new_] == below + [moved] + [new_];
      assert below[..|below|] == below;
    }
  }

  lemma PyLeaveRefines(X: Vm, below: seq<Frame>, top: Frame, i: Instr, v: Val, w: World)
    requires Leave(below, top.dst, v, w) != Stuck
    requires if i.src < 0 then v == VNull else i.src < |top.regs| && v == top.regs[i.src]
    ensures PyReturn(FlatPy(below + [top]), i, w) == Flat(Leave(below, top.dst, v, w), FlatPy)
  {
    hide File;
    FlatTop(below, top);
    var s := FlatPy(below + [top]);
    assert s.frames[..|s.frames| - 1] == FlatPy(below).frames;
    assert s.regs[..|File(below)|] == File(below);
    if below != [] {
      var init, caller := below[..|below| - 1], below[|below| - 1];
      assert init + [caller] == below;
      LeaveFile(below, top.dst, v);
      FlatTop(init, caller);
      FlatTop(init, caller.(regs := FM.Write(caller.regs, top.dst, v)));
    }
  }

  lemma PyExternalRefines(X: Vm, below: seq<Frame>, top: Frame, i: Instr, w: World)
    requires X.M.host == Py && IsFunction(X.exe, top.func) && 0 <= i.func < |X.exe.funcs|
    requires X.exe.funcs[i.func].kind != VMFunc
    requires FM.StepCall(CodeOf(X, top.func), i, top.pc, top.regs, w) != FM.Stuck
    ensures PyCall(X, FlatPy(below + [top]), i, w) ==
      match FM.StepCall(CodeOf(X, top.func), i, top.pc, top.regs, w)
      case Running(pc, regs, w') => Going(FlatPy(below + [top.(pc := pc, regs := regs)]), w')
      case Failed(w') => Failed(w')
      case _ => Stuck
  {
    hide File, Dispatch, PyFrames, Slots;
    FlatTop(below, top);
    ReadTop(below, top, i.args);
    var s := FlatPy(below + [top]);
    assert s.frames[..|s.frames| - 1] == FlatPy(below).frames;
    var next := FM.StepCall(CodeOf(X, top.func), i, top.pc, top.regs, w);
    if next.Running? {
      var callee := X.exe.funcs[i.func];
      var launch := LaunchArgs(X.M.host, FM.Read(top.regs, i.launch)).value;
      var v := Dispatch(X.M.host, X.M.ext, callee.kind, callee.name, FM.Read(top.regs, i.args), launch, w).result.value;
      WriteTop(below, top, i.dst, v);
      FlatTop(below, top.(pc := next.pc, regs := next.regs));
    }
  }

  lemma PyJumpRefines(X: Vm, below: seq<Frame>, top: Frame, off: int)
    ensures var s := FlatPy(below + [top]);
      FlatPy(below + [top.(pc := top.pc + off)]) == s.(frames := s.frames[..|s.frames| - 1] +
                                                       [s.frames[|s.frames| - 1].(pc := top.pc + off)])
  {
    FlatTop(below, top);
    FlatTop(below, top.(pc := top.pc + off));
    var s := FlatPy(below + [top]);
    assert s.frames[..|s.frames| - 1] == FlatPy(below).frames;
  }

  /** A step that stays in the top activation, or leaves it. */
  lemma PyLocalRefines(X: Vm, below: seq<Frame>, top: Frame, w: World)
    requires X.M.host == Py && IsFunction(X.exe, top.func) && !IsCall(X, top)
    requires Step(X, Going(below + [top], w)) != Stuck
    ensures PyStep(X, Going(FlatPy(below + [top]), w)) == Flat(Step(X, Going(below + [top], w)), FlatPy)
  {
    hide File, LaunchArgs, Dispatch, AsBool, FlatPy, PyCall, PyReturn, Leave, FM.StepCall;
    StepTop(X, below, top, w);
    var i := Body(X.exe, top.func)[top.pc];
    PyTop(below, top);
    InstrTop(X, top);
    match i.op
    case CALL =>
      CallInRange(X, top, i, w);
      CallNeverHalts(CodeOf(X, top.func), i, top.pc, top.regs, w);
      PyExternalRefines(X, below, top, i, w);
    case RET =>
      PyLeaveRefines(X, below, top, i, if i.src < 0 then VNull else top.regs[i.src], w);
    case IF =>
      PyJumpRefines(X, below, top, i.trueOff);
      PyJumpRefines(X, below, top, i.falseOff);
    case GOTO =>
      PyJumpRefines(X, below, top, i.off);
  }

  lemma PyTop(below: seq<Frame>, top: Frame)
    ensures var s := FlatPy(below + [top]);
      |s.frames| > 0 && s.frames[|s.frames| - 1].func == top.func && s.frames[|s.frames| - 1].pc == top.pc &&
      forall r :: 0 <= r < |top.regs| ==>
        0 <= s.frames[|s.frames| - 1].base + r < |s.regs| && s.regs[s.frames[|s.frames| - 1].base + r] == top.regs[r]
  {
    FlatTop(below, top);
  }

  lemma PyStepRefines(X: Vm, st: Run<seq<Frame>>)
    requires X.M.host == Py && Step(X, st) != Stuck
    ensures PyStep(X, Flat(st, FlatPy)) == Flat(Step(X, st), FlatPy)
  {
    if st.Going? {
      var below, top := st.s[..|st.s| - 1], st.s[|st.s| - 1];
      assert below + [top] == st.s;
      if IsCall(X, top) {
        PyEnterRefines(X, below, top, st.w);
      } else {
        PyLocalRefines(X, below, top, st.w);
      }
    }
  }

  /** The Python machine does what the machine with separate activations does, over whole runs. */
  lemma {:induction false} PyRefines(X: Vm, st: Run<seq<Frame>>, n: nat)
    requires X.M.host == Py && Steps(X, st, n) != Stuck
    ensures PySteps(X, Flat(st, FlatPy), n) == Flat(Steps(X, st, n), FlatPy)
    decreases n
  {
    hide Step, PyStep, Flat, FlatPy;
    if n > 0 {
      if Step(X, st) == Stuck { StepsStopped(X, Step(X, st), n - 1); }
      PyStepRefines(X, st);
      PyRefines(X, Step(X, st), n - 1);
    }
  }

  /** Storing constants one at a time into the tail of the register file. */
  lemma PreloadInFile(file: seq<Val>, regs: seq<Val>, ci: ConstInit, v: Val)
    requires 0 <= ci.reg < |regs|
    ensures (file + regs)[|file| + ci.reg := v] == file + regs[ci.reg := v]
  {
  }

  lemma {:induction false} PreloadSnoc(h: Host, regs: seq<Val>, inits: seq<ConstInit>, consts: seq<Const>, k: nat)
    requires k < |inits| && forall ci <- inits :: 0 <= ci.reg < |regs| && 0 <= ci.idx < |consts|
    ensures FM.Preload(h, regs, inits[..k + 1], consts) ==
            FM.Preload(h, regs, inits[..k], consts)[inits[k].reg := Load(h, consts[inits[k].idx])]
    decreases k
  {
    var next := regs[inits[0].reg := Load(h, consts[inits[0].idx])];
    assert inits[..k + 1][1..] == inits[1..][..k];
    if k == 0 {
      assert inits[..1] == [inits[0]];
    } else {
      assert inits[..k][1..] == inits[1..][..k - 1];
      PreloadSnoc(h, next, inits[1..], consts, k - 1);
    }
  }
}

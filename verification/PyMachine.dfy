/** The Python virtual machine: one loop over local stacks (python/devproc2/vm/interpreter.py). */
module PyMachine {
  import opened Bytecode
  import opened Runtime
  import opened Builtins
  import FM = FrameMachine
  import opened VirtualMachine
  import opened FlatMachines

  lemma {:induction false} PyStepsStopped(X: Vm, st: Run<PyState>, n: nat)
    requires !st.Going?
    ensures PySteps(X, st, n) == st
    decreases n
  {
    if n > 0 { PyStepsStopped(X, st, n - 1); }
  }

  function PyInvoke(X: Vm, name: Name, args: seq<Val>, w: World, limit: nat): Run<PyState> {
    var f := FindFunc(X.exe.funcs, name, 0);
    if f == |X.exe.funcs| then Failed(w)
    else PySteps(X, PyPush(X.M.host, X.exe, PyState([], [], []), f, args, w), limit)
  }

  class VMInterpreter {
    const X: Vm

    constructor (X: Vm)
      ensures this.X == X
    {
      this.X := X;
    }

    method PushFrame(regs: seq<Val>, frames: seq<PyFrame>, slots: seq<Slot>, f: nat, args: seq<Val>, w: World)
      returns (regs': seq<Val>, frames': seq<PyFrame>, ok: bool)
      ensures PyPush(X.M.host, X.exe, PyState(regs, frames, slots), f, args, w) == if ok
        then Going(PyState(regs', frames', slots), w) else Stuck
    {
      regs', frames', ok := regs, frames, false;
      if f >= |X.exe.funcs| || X.exe.funcs[f].numRegs < |args| { return; }
      var fe := X.exe.funcs[f];
      var base := |regs|;
      var k := 0;
      regs' := regs + seq(fe.numRegs, _ => VNull);
      while k < |args|
        invariant k <= |args| && regs' == regs + (args[..k] + seq(fe.numRegs - k, _ => VNull))
      {
        regs' := regs'[base + k := args[k]];
        k := k + 1;
      }
      ghost var start := args + seq(fe.numRegs - |args|, _ => VNull);
      assert args[..|args|] == args;
      k := 0;
      while k < |fe.inits|
        invariant k <= |fe.inits|
        invariant forall j :: 0 <= j < k ==> 0 <= fe.inits[j].reg < fe.numRegs && 0 <= fe.inits[j].idx < |X.exe.consts|
        invariant regs' == regs + FM.Preload(X.M.host, start, fe.inits[..k], X.exe.consts)
      {
        var ci := fe.inits[k];
        if !(0 <= ci.reg < fe.numRegs && 0 <= ci.idx < |X.exe.consts|) { return; }
        PreloadSnoc(X.M.host, start, fe.inits[..k + 1], X.exe.consts, k);
        assert fe.inits[..k + 1][..k] == fe.inits[..k] && fe.inits[..k + 1][..k + 1] == fe.inits[..k + 1];
        PreloadInFile(regs, FM.Preload(X.M.host, start, fe.inits[..k], X.exe.consts), ci,
                      Load(X.M.host, X.exe.consts[ci.idx]));
        regs' := regs'[base + ci.reg := Load(X.M.host, X.exe.consts[ci.idx])];
        k := k + 1;
      }
      assert fe.inits[..|fe.inits|] == fe.inits;
      assert FM.FrameFits(fe, args, X.exe.consts) && regs' == regs + FM.FrameRegs(X.M.host, fe, args, X.exe.consts);
      frames' := frames + [PyFrame(f, 0, base)];
      ok := true;
    }

    method CollectArgs(regs: seq<Val>, base: nat, idx: seq<int>) returns (vals: Option<seq<Val>>)
      ensures vals == if InFile(regs, base, idx) then Some(ReadFile(regs, base, idx)) else None
    {
      var acc: seq<Val> := [];
      for k := 0 to |idx|
        invariant |acc| == k && forall j :: 0 <= j < k ==> 0 <= base + idx[j] < |regs| && acc[j] == regs[base + idx[j]]
      {
        if !(0 <= base + idx[k] < |regs|) { return None; }
        acc := acc + [regs[base + idx[k]]];
      }
      assert acc == ReadFile(regs, base, idx);
      return Some(acc);
    }

    /** Looks the function up and runs it, at most `limit` instructions. */
    method Invoke(name: Name, args: seq<Val>, w: World, limit: nat) returns (r: Run<PyState>)
      requires X.M.host == Py
      ensures r == PyInvoke(X, name, args, w, limit)
    {
      var f := 0;
      while f < |X.exe.funcs| && X.exe.funcs[f].name != name
        invariant f <= |X.exe.funcs| && FindFunc(X.exe.funcs, name, 0) == FindFunc(X.exe.funcs, name, f)
        decreases |X.exe.funcs| - f
      {
        f := f + 1;
      }
      if f == |X.exe.funcs| { return Failed(w); }
      var regs: seq<Val>, frames: seq<PyFrame>, slots: seq<Slot>, world := [], [], [], w;
      var ok;
      regs, frames, ok := PushFrame([], [], [], f, args, w);
      ghost var start := PyPush(X.M.host, X.exe, PyState([], [], []), f, args, w);
      if !ok {
        PyStepsStopped(X, Stuck, limit);
        return Stuck;
      }
      var n := 0;
      while n < limit && frames != []
        invariant n <= limit
        invariant PySteps(X, Going(PyState(regs, frames, slots), world), limit - n) == PySteps(X, start, limit)
      {
        ghost var before := PyState(regs, frames, slots);
        ghost var w0 := world;
        r, regs, frames, slots, world := Turn(regs, frames, slots, world);
        n := n + 1;
        if !r.Going? {
          PyStepsStopped(X, r, limit - n);
          return;
        }
      }
      if n < limit {
        r := Done(VNull, world);
        PyStepsStopped(X, r, limit - n - 1);
      } else {
        r := Going(PyState(regs, frames, slots), world);
      }
    }

    /** One instruction. */
    method Turn(regs: seq<Val>, frames: seq<PyFrame>, slots: seq<Slot>, w: World)
      returns (r: Run<PyState>, regs': seq<Val>, frames': seq<PyFrame>, slots': seq<Slot>, w': World)
      requires frames != []
      ensures r == PyStep(X, Going(PyState(regs, frames, slots), w))
      ensures r.Going? ==> r == Going(PyState(regs', frames', slots'), w')
    {
      regs', frames', slots', w' := regs, frames, slots, w;
      var top := frames[|frames| - 1];
      var instr := InstrAt(X.exe, top.func, top.pc);
      if instr.None? { r := Stuck; return; }
      var i := instr.value;
      match i.op {
        case CALL =>
          if !(0 <= i.func < |X.exe.funcs|) { r := Stuck; return; }
          var callee := X.exe.funcs[i.func];
          var args := CollectArgs(regs, top.base, i.args);
          if args.None? { r := Stuck; return; }
          if callee.kind == VMFunc {
            frames' := frames[..|frames| - 1] + [top.(pc := top.pc + 1)];
            slots' := slots + [Slot(i.dst, top.base)];
            var ok;
            regs', frames', ok := PushFrame(regs, frames', slots', i.func, args.value, w);
            r := if ok then Going(PyState(regs', frames', slots'), w') else Stuck;
            return;
          }
          var result := Dispatch(X.M.host, X.M.ext, callee.kind, callee.name, args.value, [], w);
          w' := result.w;
          if result.result.None? { r := Failed(w'); return; }
          if i.dst >= 0 {
            if top.base + i.dst >= |regs| { r := Stuck; return; }
            regs' := regs[top.base + i.dst := result.result.value];
          }
          frames' := frames[..|frames| - 1] + [top.(pc := top.pc + 1)];
        case RET =>
          if (i.src >= 0 && top.base + i.src >= |regs|) || top.base > |regs| { r := Stuck; return; }
          var result := if i.src >= 0 then regs[top.base + i.src] else VNull;
          regs' := regs[..top.base];
          frames' := frames[..|frames| - 1];
          if frames' == [] { r := Done(result, w); return; }
          if slots == [] { r := Stuck; return; }
          var slot := slots[|slots| - 1];
          slots' := slots[..|slots| - 1];
          if slot.dst >= 0 {
            if slot.base + slot.dst >= |regs'| { r := Stuck; return; }
            regs' := regs'[slot.base + slot.dst := result];
          }
        case IF =>
          if !(0 <= top.base + i.cond < |regs|) { r := Stuck; return; }
          var cond := AsBool(X.M.host, regs[top.base + i.cond]);
          if cond.None? { r := Failed(w); return; }
          frames' := frames[..|frames| - 1] + [top.(pc := top.pc + if cond.value then i.trueOff else i.falseOff)];
        case GOTO =>
          frames' := frames[..|frames| - 1] + [top.(pc := top.pc + i.off)];
      }
      r := Going(PyState(regs', frames', slots'), w');
    }
  }
}

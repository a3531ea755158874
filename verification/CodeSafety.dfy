/** What static well-formedness of bytecode is good for: running such code never leaves it, never reaches outside the
    frame, and never depends on a register before it is written. */
module CodeSafety {
  import opened Bytecode
  import opened Runtime
  import opened Builtins
  import opened CodeFlow
  import opened FrameMachine
  import opened CodegenState
  import opened ModuleForm
  import opened CodegenFlow

  /** The registers hold the same values. */
  predicate SameOn(R: seq<Val>, R': seq<Val>, D: set<int>) {
    |R| == |R'| && forall r <- D :: 0 <= r < |R| ==> R[r] == R'[r]
  }

  /** A call of another VM function, which a single activation cannot follow. */
  predicate AtVmCall(P: Code, pc: int) {
    0 <= pc < |P.instrs| && P.instrs[pc].op == CALL && 0 <= P.instrs[pc].func < |P.funcs| &&
    P.funcs[P.instrs[pc].func].kind == VMFunc
  }

  /** Before n steps the run is at such a call. */
  ghost predicate StopsAtCall(P: Code, start: Status, n: nat) {
    exists m: nat :: m < n && Steps(P, start, m).Running? && AtVmCall(P, Steps(P, start, m).pc)
  }

  /** Two runs are at the same place, in code of this size, with the same history; or have ended alike. */
  predicate Together(P: Code, st: Status, st': Status) {
    if st.Running? then st'.Running? && st'.pc == st.pc && st'.w == st.w && 0 <= st.pc < |P.instrs| else st' == st
  }

  /** Preloaded constants are as they were. */
  predicate Kept(consts: set<int>, R: seq<Val>, st: Status) {
    st.Running? ==> SameOn(R, st.regs, consts)
  }

  lemma ReadsSame(R: seq<Val>, R': seq<Val>, idx: seq<int>, D: set<int>)
    requires SameOn(R, R', D) && FrameMachine.InRange(idx, |R|) && (set r <- idx) <= D
    ensures Read(R, idx) == Read(R', idx)
  {
    forall k | 0 <= k < |idx| ensures R[idx[k]] == R'[idx[k]] { assert idx[k] in idx; }
  }

  /** One instruction: alike on registers that were written, and those it writes agree afterwards. */
  lemma StepSame(P: Code, X: Room, pc: int, R: seq<Val>, R': seq<Val>, D: set<int>, w: World)
    requires 0 <= pc < |P.instrs| && |P.funcs| == X.funcs && |R| == X.regs && SameOn(R, R', D)
    requires var i := P.instrs[pc];
      InstrOk(X, i) && Uses(i) <= D && InFrame(X, Uses(i)) && Inside(Nexts(i, pc), |P.instrs|)
    ensures var st, st' := Step(P, Running(pc, R, w)), Step(P, Running(pc, R', w));
      Together(P, st, st') && Kept(X.consts, R, st) && (st.Stuck? ==> AtVmCall(P, pc)) &&
      (st.Running? ==> st.pc in Nexts(P.instrs[pc], pc) && |st.regs| == X.regs &&
                       SameOn(st.regs, st'.regs, D + Sets(P.instrs[pc])))
  {
    hide Dispatch;
    var i := P.instrs[pc];
    match i.op
    case CALL => CallSame(P, X, pc, R, R', D, w);
    case RET => if i.src >= 0 { assert i.src in Uses(i); }
    case IF => assert i.cond in Uses(i) && pc + i.trueOff in Nexts(i, pc) && pc + i.falseOff in Nexts(i, pc);
    case GOTO => assert pc + i.off in Nexts(i, pc);
  }

  lemma CallSame(P: Code, X: Room, pc: int, R: seq<Val>, R': seq<Val>, D: set<int>, w: World)
    requires 0 <= pc < |P.instrs| && |P.funcs| == X.funcs && |R| == X.regs && SameOn(R, R', D)
    requires var i := P.instrs[pc];
      i.op == CALL && InstrOk(X, i) && Uses(i) <= D && InFrame(X, Uses(i)) && Inside(Nexts(i, pc), |P.instrs|)
    ensures var i := P.instrs[pc]; var st, st' := StepCall(P, i, pc, R, w), StepCall(P, i, pc, R', w);
      Together(P, st, st') && Kept(X.consts, R, st) && (st.Stuck? ==> AtVmCall(P, pc)) &&
      (st.Running? ==> st.pc == pc + 1 && |st.regs| == X.regs && SameOn(st.regs, st'.regs, D + Sets(i)))
  {
    hide Dispatch;
    var i := P.instrs[pc];
    assert FrameMachine.InRange(i.args, |R|) by {
      forall k | 0 <= k < |i.args| ensures 0 <= i.args[k] < |R| { assert i.args[k] in Uses(i); }
    }
    assert FrameMachine.InRange(i.launch, |R|) by {
      forall k | 0 <= k < |i.launch| ensures 0 <= i.launch[k] < |R| { assert i.launch[k] in Uses(i); }
    }
    ReadsSame(R, R', i.args, D);
    ReadsSame(R, R', i.launch, D);
    assert pc + 1 in Nexts(i, pc);
  }

  lemma PathNext(code: seq<Instr>, p: seq<int>, next: int, D: set<int>)
    requires IsPath(code, p) && 0 <= next < |code| && next in Nexts(code[p[|p| - 1]], p[|p| - 1])
    ensures var p' := p + [next];
      IsPath(code, p') && p'[|p'| - 1] == next && Written(code, p', D) == Written(code, p, D) + Sets(code[p[|p| - 1]])
  {
    var p' := p + [next];
    assert p'[..|p'| - 1] == p && p'[|p'| - 2] == p[|p| - 1];
  }

  lemma {:induction false} StopsLater(P: Code, st: Status, n: nat)
    requires n > 0 && StopsAtCall(P, Step(P, st), n - 1)
    ensures StopsAtCall(P, st, n)
  {
    hide Step, AtVmCall;
    var m: nat :| m < n - 1 && Steps(P, Step(P, st), m).Running? && AtVmCall(P, Steps(P, Step(P, st), m).pc);
    assert Steps(P, st, m + 1) == Steps(P, Step(P, st), m);
  }

  lemma {:induction false} SameFrom(P: Code, X: Room, D: set<int>, p: seq<int>, R: seq<Val>, R': seq<Val>, w: World,
                                    n: nat)
    requires PathsOk(X, P.instrs, D) && IsPath(P.instrs, p) && |P.funcs| == X.funcs && |R| == X.regs
    requires SameOn(R, R', Written(P.instrs, p, D))
    ensures var st := Steps(P, Running(p[|p| - 1], R, w), n);
      Together(P, st, Steps(P, Running(p[|p| - 1], R', w), n)) && Kept(X.consts, R, st) &&
      (st.Stuck? ==> StopsAtCall(P, Running(p[|p| - 1], R, w), n))
    decreases n
  {
    hide Step, InstrOk, InFrame;
    if n > 0 {
      var pc := p[|p| - 1];
      var i, W := P.instrs[pc], Written(P.instrs, p, D);
      StepSame(P, X, pc, R, R', W, w);
      var st, st' := Step(P, Running(pc, R, w)), Step(P, Running(pc, R', w));
      if st.Running? {
        PathNext(P.instrs, p, st.pc, D);
        SameFrom(P, X, D, p + [st.pc], st.regs, st'.regs, st.w, n - 1);
        if Steps(P, st, n - 1).Stuck? { StopsLater(P, Running(pc, R, w), n); }
      } else {
        StepsStopped(P, st, n - 1);
        if st.Stuck? { assert Steps(P, Running(pc, R, w), 0) == Running(pc, R, w); }
      }
    }
  }

  /** Code all of whose paths are well formed, started with D written: whatever the other registers contain, it does the
      same, step by step; it stays inside its code, leaves its constants alone, and is stuck only where it calls another
      VM function. */
  lemma RunsAreSafe(P: Code, X: Room, D: set<int>, R: seq<Val>, R': seq<Val>, w: World, n: nat)
    requires PathsOk(X, P.instrs, D) && P.instrs != [] && |P.funcs| == X.funcs && |R| == X.regs && SameOn(R, R', D)
    ensures var st := Steps(P, Running(0, R, w), n);
      Together(P, st, Steps(P, Running(0, R', w), n)) && Kept(X.consts, R, st) &&
      (st.Stuck? ==> StopsAtCall(P, Running(0, R, w), n))
  {
    hide PathsOk, Step, AtVmCall;
    assert IsPath(P.instrs, [0]);
    assert Written(P.instrs, [0], D) == D;
    SameFrom(P, X, D, [0], R, R', w, n);
  }

  /** So it is with every function of a compiled module: once its arguments and its constants are in their registers,
      what the rest of the frame contains makes no difference. */
  lemma CompiledRunsAreSafe(M: Machine, fns: seq<ModuleForm.Named>, k: nat, kinds: Kinds, R: seq<Val>, R': seq<Val>,
                            w: World, n: nat)
    requires WfModule(fns, kinds) && k < |fns|
    requires var exe := CompileModule(fns); var f := FindFunc(exe.funcs, Builtins.Named(fns[k].name), 0);
      f < |exe.funcs| && EntryOk(exe, exe.funcs[f]) ==>
        |R| == exe.funcs[f].numRegs && SameOn(R, R', WrittenAtEntry(exe.funcs[f]))
    ensures var exe := CompileModule(fns); var f := FindFunc(exe.funcs, Builtins.Named(fns[k].name), 0);
      f < |exe.funcs| && EntryOk(exe, exe.funcs[f]) &&
      var e := exe.funcs[f];
      var P := Code(M, exe.funcs, exe.instrs[e.instrOffset..e.instrOffset + e.instrCount]);
      var st := Steps(P, Running(0, R, w), n);
      Together(P, st, Steps(P, Running(0, R', w), n)) && Kept(set ci <- e.inits :: ci.reg, R, st) &&
      (st.Stuck? ==> StopsAtCall(P, Running(0, R, w), n))
  {
    hide PathsOk, Steps, WfModule, CompileModule, StopsAtCall, Together, Kept;
    CompiledFunctionsAreOk(fns, k, kinds);
    var exe := CompileModule(fns);
    var e := exe.funcs[FindFunc(exe.funcs, Builtins.Named(fns[k].name), 0)];
    var P := Code(M, exe.funcs, exe.instrs[e.instrOffset..e.instrOffset + e.instrCount]);
    RunsAreSafe(P, FrameOf(e, |exe.funcs|), WrittenAtEntry(e), R, R', w, n);
  }
}

/** The C++ virtual machine as the object it is: one register file, one frame stack, changed in place
    (runtime/src/vm.cc). */
module CppMachine {
  import opened Bytecode
  import opened Runtime
  import opened Builtins
  import FM = FrameMachine
  import opened VirtualMachine
  import opened FlatMachines

  lemma {:induction false} AsIntsAppend(h: Host, vs: seq<Val>, v: Val)
    ensures AsInts(h, vs + [v]) ==
      if AsInts(h, vs).Some? && AsInt(h, v).Some? then Some(AsInts(h, vs).value + [AsInt(h, v).value]) else None
  {
    if vs == [] {
      assert vs + [v] == [v] && [v][1..] == [];
      if AsInt(h, v).Some? { assert [AsInt(h, v).value] + [] == [] + [AsInt(h, v).value]; }
    } else {
      assert (vs + [v])[1..] == vs[1..] + [v];
      AsIntsAppend(h, vs[1..], v);
      if AsInt(h, vs[0]).Some? && AsInts(h, vs[1..]).Some? && AsInt(h, v).Some? {
        var x, rest, i := AsInt(h, vs[0]).value, AsInts(h, vs[1..]).value, AsInt(h, v).value;
        assert [x] + (rest + [i]) == ([x] + rest) + [i];
      }
    }
  }

  lemma {:induction false} AsIntsPrefix(h: Host, vs: seq<Val>, k: nat)
    requires k <= |vs| && AsInts(h, vs[..k]).None?
    ensures AsInts(h, vs).None?
    decreases |vs| - k
  {
    if k < |vs| {
      assert vs[..k + 1] == vs[..k] + [vs[k]];
      AsIntsAppend(h, vs[..k], vs[k]);
      AsIntsPrefix(h, vs, k + 1);
    } else {
      assert vs[..k] == vs;
    }
  }

  lemma {:induction false} CppStepsStopped(X: Vm, st: Run<CppState>, n: nat)
    requires !st.Going?
    ensures CppSteps(X, st, n) == st
    decreases n
  {
    if n > 0 { CppStepsStopped(X, st, n - 1); }
  }

  /** The weights of an artifact by parameter name; there may be no store at all. */
  type Weights = Option<Name -> Option<Val>>

  /** Missing arguments are weights, looked up by the names of their parameters. */
  function BindWeights(names: seq<Name>, numArgs: int, weights: Weights, args: seq<Val>): Option<seq<Val>>
    decreases if numArgs > |args| then numArgs - |args| else 0
  {
    if |args| > numArgs then None
    else if |args| == numArgs then Some(args)
    else if weights.None? || |names| != numArgs then None
    else
      match weights.value(names[|args|])
      case Some(v) => BindWeights(names, numArgs, weights, args + [v])
      case None => None
  }

  /** What VMState::Invoke may do before running: refuse the name, the kind or the arguments. */
  function CppInvoke(X: Vm, weights: Weights, name: Name, args: seq<Val>, w: World, limit: nat): Run<CppState> {
    var f := FindFunc(X.exe.funcs, name, 0);
    if f == |X.exe.funcs| || X.exe.funcs[f].kind != VMFunc then Failed(w)
    else
      var fe := X.exe.funcs[f];
      match BindWeights(fe.paramNames, fe.numArgs, weights, args)
      case None => Failed(w)
      case Some(bound) => CppSteps(X, CppPush(X.M.host, X.exe, CppState([], []), CppFrame(f, 0, 0, -1, -1), bound, w),
                                   limit)
  }

  /** Every missing argument is the weight of its parameter. */
  predicate Completes(names: seq<Name>, weights: Weights, args: seq<Val>, bound: seq<Val>) {
    args <= bound &&
    (|args| < |bound| ==> weights.Some? && |names| == |bound| && forall j :: |args| <= j < |names| ==>
     weights.value(names[j]) == Some(bound[j]))
  }

  /** Arguments are bound exactly when there are not too many and every missing one has a weight. */
  lemma {:induction false} BindsMissing(names: seq<Name>, numArgs: int, weights: Weights, args: seq<Val>,
                                        bound: seq<Val>)
    ensures BindWeights(names, numArgs, weights, args) == Some(bound) <==>
      |bound| == numArgs && Completes(names, weights, args, bound)
    decreases if numArgs > |args| then numArgs - |args| else 0
  {
    if |args| < numArgs && weights.Some? && |names| == numArgs {
      var next := weights.value(names[|args|]);
      if next.Some? {
        BindsMissing(names, numArgs, weights, args + [next.value], bound);
        if |bound| == numArgs && Completes(names, weights, args, bound) {
          assert bound[..|args| + 1] == bound[..|args|] + [bound[|args|]] == args + [next.value];
        }
        if |bound| == numArgs && Completes(names, weights, args + [next.value], bound) {
          assert bound[..|args| + 1] == args + [next.value];
          assert bound[..|args|] == bound[..|args| + 1][..|args|] == args;
          assert bound[|args|] == bound[..|args| + 1][|args|] == next.value;
        }
      }
    } else if |args| == numArgs && Completes(names, weights, args, bound) && |bound| == numArgs {
      assert bound == args;
    }
  }

  class VMState {
    const X: Vm
    const weights: Weights
    var regs: seq<Val>
    var frames: seq<CppFrame>
    var world: World

    constructor (X: Vm, weights: Weights, w: World)
      ensures this.X == X && this.weights == weights && world == w && regs == [] && frames == []
    {
      this.X := X;
      this.weights := weights;
      world := w;
      regs := [];
      frames := [];
    }

    function State(): CppState
      reads this
    {
      CppState(regs, frames)
    }

    /** Grows the register file, copies the arguments, then stores the constants. */
    method PushFrame(f: nat, args: seq<Val>, dst: int, callerBase: int) returns (ok: bool)
      modifies this`regs, this`frames
      ensures var r := CppPush(X.M.host, X.exe, old(State()), CppFrame(f, 0, |old(State()).regs|, dst, callerBase),
                               args, world);
        ok == r.Going? && (ok ==> State() == r.s) && (!ok ==> r == Stuck)
    {
      if f >= |X.exe.funcs| || X.exe.funcs[f].numRegs < |args| { return false; }
      var fe := X.exe.funcs[f];
      var k := 0;
      while k < |fe.inits|
        invariant k <= |fe.inits|
        invariant forall j :: 0 <= j < k ==> 0 <= fe.inits[j].reg < fe.numRegs && 0 <= fe.inits[j].idx < |X.exe.consts|
      {
        if !(0 <= fe.inits[k].reg < fe.numRegs && 0 <= fe.inits[k].idx < |X.exe.consts|) { return false; }
        k := k + 1;
      }
      var base := |regs|;
      regs := regs + seq(fe.numRegs, _ => VNull);
      ghost var file := old(regs);
      k := 0;
      while k < |args|
        invariant k <= |args| && |regs| == base + fe.numRegs
        invariant regs == file + (args[..k] + seq(fe.numRegs - k, _ => VNull))
        modifies this`regs
      {
        regs := regs[base + k := args[k]];
        k := k + 1;
      }
      ghost var start := args + seq(fe.numRegs - |args|, _ => VNull);
      assert args[..|args|] == args;
      k := 0;
      while k < |fe.inits|
        invariant k <= |fe.inits| && |regs| == base + fe.numRegs
        invariant regs == file + FM.Preload(X.M.host, start, fe.inits[..k], X.exe.consts)
        modifies this`regs
      {
        var ci := fe.inits[k];
        PreloadSnoc(X.M.host, start, fe.inits, X.exe.consts, k);
        PreloadInFile(file, FM.Preload(X.M.host, start, fe.inits[..k], X.exe.consts), ci,
                      Load(X.M.host, X.exe.consts[ci.idx]));
        regs := regs[base + ci.reg := Load(X.M.host, X.exe.consts[ci.idx])];
        k := k + 1;
      }
      assert fe.inits[..|fe.inits|] == fe.inits;
      assert regs == file + FM.FrameRegs(X.M.host, fe, args, X.exe.consts);
      frames := frames + [CppFrame(f, 0, base, dst, callerBase)];
      return true;
    }

    method CollectArgs(base: nat, idx: seq<int>) returns (vals: Option<seq<Val>>)
      ensures vals == if InFile(regs, base, idx) then Some(ReadFile(regs, base, idx)) else None
    {
      var acc: seq<Val> := [];
      for k := 0 to |idx|
        invariant |acc| == k && forall j :: 0 <= j < k ==> 0 <= base + idx[j] < |regs| && acc[j] == regs[base + idx[j]]
      {
        if !(0 <= base + idx[k] < |regs|) { return None; }
        acc := acc + [regs[base + idx[k]]];
      }
      assert acc == ReadFile(regs, base, idx);
      return Some(acc);
    }

    method CollectLaunch(vals: seq<Val>) returns (dims: Option<seq<int>>)
      requires X.M.host == Cpp
      ensures dims == LaunchArgs(X.M.host, vals)
    {
      var acc: seq<int> := [];
      for k := 0 to |vals|
        invariant AsInts(Cpp, vals[..k]) == Some(acc)
      {
        assert vals[..k + 1] == vals[..k] + [vals[k]];
        AsIntsAppend(Cpp, vals[..k], vals[k]);
        match AsInt(Cpp, vals[k]) {
          case None =>
            AsIntsPrefix(Cpp, vals, k + 1);
            return None;
          case Some(i) => acc := acc + [i];
        }
      }
      assert vals[..|vals|] == vals;
      return Some(acc);
    }

    method Call(i: Instr) returns (r: Run<CppState>)
      requires frames != [] && X.M.host == Cpp
      modifies this
      ensures r == CppCall(X, old(State()), i, old(world))
      ensures r.Going? ==> State() == r.s && world == r.w
    {
      var top := frames[|frames| - 1];
      if !(0 <= i.func < |X.exe.funcs|) { return Stuck; }
      var callee := X.exe.funcs[i.func];
      var args := CollectArgs(top.base, i.args);
      var launch := CollectArgs(top.base, i.launch);
      if args.None? || launch.None? { return Stuck; }
      var dims := CollectLaunch(launch.value);
      if dims.None? { return Failed(world); }
      if callee.kind == VMFunc {
        frames := frames[..|frames| - 1] + [top.(pc := top.pc + 1)];
        var ok := PushFrame(i.func, args.value, i.dst, top.base);
        return if ok then Going(State(), world) else Stuck;
      }
      var result := Dispatch(X.M.host, X.M.ext, callee.kind, callee.name, args.value, dims.value, world);
      world := result.w;
      if result.result.None? { return Failed(world); }
      if i.dst >= 0 {
        if top.base + i.dst >= |regs| { return Stuck; }
        regs := regs[top.base + i.dst := result.result.value];
      }
      frames := frames[..|frames| - 1] + [top.(pc := top.pc + 1)];
      return Going(State(), world);
    }

    method Return(i: Instr) returns (r: Run<CppState>)
      requires frames != []
      modifies this
      ensures r == CppReturn(old(State()), i, old(world))
      ensures world == old(world) && (r.Going? ==> State() == r.s && world == r.w)
    {
      var top := frames[|frames| - 1];
      if (i.src >= 0 && top.base + i.src >= |regs|) || top.base > |regs| { return Stuck; }
      var result := VNull;
      if i.src >= 0 { result := regs[top.base + i.src]; }
      regs := regs[..top.base];
      frames := frames[..|frames| - 1];
      if frames == [] { return Done(result, world); }
      if top.callerDst >= 0 {
        if !(0 <= top.callerBase + top.callerDst < |regs|) { return Stuck; }
        regs := regs[top.callerBase + top.callerDst := result];
      }
      return Going(State(), world);
    }

    method Jump(off: int)
      requires frames != []
      modifies this`frames
      ensures var top := old(frames)[|old(frames)| - 1];
        frames == old(frames)[..|old(frames)| - 1] + [top.(pc := top.pc + off)]
    {
      var top := frames[|frames| - 1];
      frames := frames[|frames| - 1 := top.(pc := top.pc + off)];
    }

    /** One instruction. */
    method Turn() returns (r: Run<CppState>)
      requires frames != [] && X.M.host == Cpp
      modifies this
      ensures r == CppStep(X, Going(old(State()), old(world)))
      ensures r.Going? ==> State() == r.s && world == r.w
    {
      var top := frames[|frames| - 1];
      var instr := InstrAt(X.exe, top.func, top.pc);
      if instr.None? { return Stuck; }
      var i := instr.value;
      match i.op {
        case CALL => r := Call(i);
        case RET => r := Return(i);
        case IF =>
          if !(0 <= top.base + i.cond < |regs|) { return Stuck; }
          match AsBool(X.M.host, regs[top.base + i.cond]) {
            case None => return Failed(world);
            case Some(c) => Jump(if c then i.trueOff else i.falseOff);
          }
          r := Going(State(), world);
        case GOTO =>
          Jump(i.off);
          r := Going(State(), world);
      }
    }

    /** Runs until the bottom activation returns, at most `limit` instructions. */
    method ExecuteLoop(limit: nat) returns (r: Run<CppState>)
      requires X.M.host == Cpp
      modifies this
      ensures r == CppSteps(X, Going(old(State()), old(world)), limit)
    {
      r := Going(State(), world);
      var n := 0;
      while n < limit && frames != []
        invariant n <= limit && r == Going(State(), world)
        invariant CppSteps(X, r, limit - n) == CppSteps(X, Going(old(State()), old(world)), limit)
      {
        r := Turn();
        n := n + 1;
        if !r.Going? {
          CppStepsStopped(X, r, limit - n);
          return;
        }
      }
      if n < limit {
        r := Done(VNull, world);
        CppStepsStopped(X, r, limit - n - 1);
      }
    }

    /** Appends weights until every parameter has an argument. */
    method Bind(names: seq<Name>, numArgs: int, args: seq<Val>) returns (bound: Option<seq<Val>>)
      ensures bound == BindWeights(names, numArgs, weights, args)
    {
      if |args| > numArgs { return None; }
      var all := args;
      if |args| < numArgs {
        if weights.None? || |names| != numArgs { return None; }
        while |all| < numArgs
          invariant |all| <= numArgs
          invariant BindWeights(names, numArgs, weights, args) == BindWeights(names, numArgs, weights, all)
          decreases numArgs - |all|
        {
          var v := weights.value(names[|all|]);
          if v.None? { return None; }
          all := all + [v.value];
        }
      }
      return Some(all);
    }

    /** Looks the function up, completes the arguments and runs it from a clean machine. */
    method Invoke(name: Name, args: seq<Val>, limit: nat) returns (r: Run<CppState>)
      requires X.M.host == Cpp
      modifies this
      ensures r == CppInvoke(X, weights, name, args, old(world), limit)
    {
      var f := 0;
      while f < |X.exe.funcs| && X.exe.funcs[f].name != name
        invariant f <= |X.exe.funcs| && FindFunc(X.exe.funcs, name, 0) == FindFunc(X.exe.funcs, name, f)
        decreases |X.exe.funcs| - f
      {
        f := f + 1;
      }
      if f == |X.exe.funcs| || X.exe.funcs[f].kind != VMFunc { return Failed(world); }
      var bound := Bind(X.exe.funcs[f].paramNames, X.exe.funcs[f].numArgs, args);
      if bound.None? { return Failed(world); }
      regs, frames := [], [];
      var ok := PushFrame(f, bound.value, -1, -1);
      if !ok {
        CppStepsStopped(X, Stuck, limit);
        return Stuck;
      }
      r := ExecuteLoop(limit);
    }
  }
}

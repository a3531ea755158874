/** From a module to a result: compile, write the file, read it on either host, run it
    (python/devproc2/vm/serializer.py, runtime/src/vm.cc, python/devproc2/vm/interpreter.py). */
module Deployment {
  import opened Bytecode
  import opened Runtime
  import opened Builtins
  import opened Structured
  import opened CodegenSpec
  import opened CodegenState
  import FM = FrameMachine
  import opened VirtualMachine
  import opened ModuleForm
  import opened ProgramCorrect
  import opened FlatMachines
  import opened CppMachine
  import opened PyMachine
  import U = Utf8
  import W = Wire
  import F = Format
  import R = Readers
  import T = FormatRoundTrip
  import opened BuiltinNames
  import L = Lockstep

  lemma PushIsInvocation(X: Vm, f: nat, args: seq<Val>, w: World)
    requires f < |X.exe.funcs| && FM.FrameFits(X.exe.funcs[f], args, X.exe.consts)
    ensures CppPush(X.M.host, X.exe, CppState([], []), CppFrame(f, 0, 0, -1, -1), args,
                    w) == Flat(Invocation(X, f, args, w), FlatCpp)
    ensures PyPush(X.M.host, X.exe, PyState([], [], []), f, args, w) == Flat(Invocation(X, f, args, w), FlatPy)
  {
    var frame := Frame(f, 0, FM.FrameRegs(X.M.host, X.exe.funcs[f], args, X.exe.consts), -1);
    FlatTop([], frame);
    assert [] + [frame] == [frame];
  }

  ghost predicate CppReturns(X: Vm, weights: Weights, name: Name, args: seq<Val>, w: World, out: Run<CppState>) {
    exists n: nat :: CppInvoke(X, weights, name, args, w, n) == out
  }

  ghost predicate PyReturns(X: Vm, name: Name, args: seq<Val>, w: World, out: Run<PyState>) {
    exists n: nat :: PyInvoke(X, name, args, w, n) == out
  }

  lemma {:induction false} CppInvokeRefines(X: Vm, weights: Weights, name: Name, f: nat, args: seq<Val>,
                                            bound: seq<Val>, w: World, n: nat)
    requires f == FindFunc(X.exe.funcs, name, 0) < |X.exe.funcs| && FM.FrameFits(X.exe.funcs[f], bound, X.exe.consts)
    requires X.exe.funcs[f].kind == VMFunc && Steps(X, Invocation(X, f, bound, w), n) != Stuck
    requires BindWeights(X.exe.funcs[f].paramNames, X.exe.funcs[f].numArgs, weights, args) == Some(bound)
    ensures CppInvoke(X, weights, name, args, w, n) == Flat(Steps(X, Invocation(X, f, bound, w), n), FlatCpp)
  {
    PushIsInvocation(X, f, bound, w);
    CppRefines(X, Invocation(X, f, bound, w), n);
  }

  lemma {:induction false} PyInvokeRefines(X: Vm, name: Name, f: nat, args: seq<Val>, w: World, n: nat)
    requires f == FindFunc(X.exe.funcs, name, 0) < |X.exe.funcs| && FM.FrameFits(X.exe.funcs[f], args, X.exe.consts)
    requires X.M.host == Py && Steps(X, Invocation(X, f, args, w), n) != Stuck
    ensures PyInvoke(X, name, args, w, n) == Flat(Steps(X, Invocation(X, f, args, w), n), FlatPy)
  {
    PushIsInvocation(X, f, args, w);
    PyRefines(X, Invocation(X, f, args, w), n);
  }

  /** VMState::Invoke on a compiled module, with the arguments given or completed by weights: it
      returns v after the calls w' exactly when the invoked function evaluates to v with those calls,
      throws exactly when evaluation raises, and never reads or writes out of range. */
  lemma {:induction false} CppInvokeCorrect(ext: Foreign, weights: Weights, fns: seq<ModuleForm.Named>, k: nat,
                                            args: seq<Val>, bound: seq<Val>, w: World, kinds: Kinds, v: Val, w': World)
    requires WfModule(fns, kinds) && k < |fns|
    requires |bound| == |fns[k].fn.params| && Completes(ParamNames(fns[k].fn.params), weights, args, bound)
    ensures var M := Machine(Cpp, ext); var X := Vm(M, CompileModule(fns)); var name := Builtins.Named(fns[k].name);
      (CppReturns(X, weights, name, args, w, Done(v, w')) <==> Means(M, fns[k].fn, bound, w, Ok(v, w'))) &&
      (CppReturns(X, weights, name, args, w, Failed(w')) <==> Means(M, fns[k].fn, bound, w, Raised(w'))) &&
      !CppReturns(X, weights, name, args, w, Stuck)
  {
    hide CompileModule, EvalFunction, Invocation, FM.FrameFits, Steps, CppInvoke, FlatCpp, WfModule, Means, Completes;
    var M := Machine(Cpp, ext);
    var X := Vm(M, CompileModule(fns));
    var name := Builtins.Named(fns[k].name);
    var f := FindFunc(X.exe.funcs, name, 0);
    ModuleCorrect(M, fns, k, bound, w, kinds, v, w');
    BindsMissing(ParamNames(fns[k].fn.params), |bound|, weights, args, bound);
    var start := Invocation(X, f, bound, w);
    forall n: nat ensures CppInvoke(X, weights, name, args, w, n) == Flat(Steps(X, start, n), FlatCpp) {
      CppInvokeRefines(X, weights, name, f, args, bound, w, n);
    }
    if n: nat :| Steps(X, start, n) == Done(v, w') { assert CppInvoke(X, weights, name, args, w, n) == Done(v, w'); }
    if n: nat :| Steps(X, start, n) == Failed(w') { assert CppInvoke(X, weights, name, args, w, n) == Failed(w'); }
    if n: nat :| CppInvoke(X, weights, name, args, w, n) == Done(v, w') { assert Steps(X, start, n) == Done(v, w'); }
    if n: nat :| CppInvoke(X, weights, name, args, w, n) == Failed(w') { assert Steps(X, start, n) == Failed(w'); }
  }

  /** It refuses to run exactly when there are too many arguments or one is missing without a weight. */
  lemma {:induction false} CppInvokeRefuses(ext: Foreign, weights: Weights, fns: seq<ModuleForm.Named>, k: nat,
                                            args: seq<Val>, some: seq<Val>, w: World, kinds: Kinds)
    requires WfModule(fns, kinds) && k < |fns| && |some| == |fns[k].fn.params|
    requires forall bound: seq<Val> :: |bound| == |some| ==>
      !Completes(ParamNames(fns[k].fn.params), weights, args, bound)
    ensures var X := Vm(Machine(Cpp, ext), CompileModule(fns));
      forall n: nat :: CppInvoke(X, weights, Builtins.Named(fns[k].name), args, w, n) == Failed(w)
  {
    hide CompileModule, WfModule, Completes, Means, FM.FrameFits;
    var M := Machine(Cpp, ext);
    var X := Vm(M, CompileModule(fns));
    ModuleCorrect(M, fns, k, some, w, kinds, VNull, w);
    var fe := X.exe.funcs[FindFunc(X.exe.funcs, Builtins.Named(fns[k].name), 0)];
    var r := BindWeights(fe.paramNames, fe.numArgs, weights, args);
    if r.Some? { BindsMissing(fe.paramNames, fe.numArgs, weights, args, r.value); }
  }

  /** The arguments given, then null for every parameter without one. */
  predicate Padded(args: seq<Val>, bound: seq<Val>) {
    args <= bound && forall k :: |args| <= k < |bound| ==> bound[k] == VNull
  }

  lemma {:induction false} PaddedInvocation(X: Vm, name: Name, args: seq<Val>, bound: seq<Val>, w: World, n: nat)
    requires var f := FindFunc(X.exe.funcs, name, 0);
      f < |X.exe.funcs| && FM.FrameFits(X.exe.funcs[f], bound, X.exe.consts)
    requires Padded(args, bound)
    ensures PyInvoke(X, name, args, w, n) == PyInvoke(X, name, bound, w, n)
  {
    var e := X.exe.funcs[FindFunc(X.exe.funcs, name, 0)];
    assert args + seq(e.numRegs - |args|, _ => VNull) == bound + seq(e.numRegs - |bound|, _ => VNull);
  }

  /** The same for VMInterpreter.invoke, where a parameter without an argument is null. */
  lemma {:induction false} PyInvokeCorrect(ext: Foreign, fns: seq<ModuleForm.Named>, k: nat, args: seq<Val>,
                                           bound: seq<Val>, w: World, kinds: Kinds, v: Val, w': World)
    requires WfModule(fns, kinds) && k < |fns| && |bound| == |fns[k].fn.params| && Padded(args, bound)
    ensures var M := Machine(Py, ext); var X := Vm(M, CompileModule(fns)); var name := Builtins.Named(fns[k].name);
      (PyReturns(X, name, args, w, Done(v, w')) <==> Means(M, fns[k].fn, bound, w, Ok(v, w'))) &&
      (PyReturns(X, name, args, w, Failed(w')) <==> Means(M, fns[k].fn, bound, w, Raised(w'))) &&
      !PyReturns(X, name, args, w, Stuck)
  {
    hide CompileModule, EvalFunction, Invocation, FM.FrameFits, Steps, PyInvoke, FlatPy, WfModule, Means, Padded;
    var M := Machine(Py, ext);
    var X := Vm(M, CompileModule(fns));
    var name := Builtins.Named(fns[k].name);
    var f := FindFunc(X.exe.funcs, name, 0);
    ModuleCorrect(M, fns, k, bound, w, kinds, v, w');
    var start := Invocation(X, f, bound, w);
    forall n: nat ensures PyInvoke(X, name, args, w, n) == Flat(Steps(X, start, n), FlatPy) {
      PaddedInvocation(X, name, args, bound, w, n);
      PyInvokeRefines(X, name, f, bound, w, n);
    }
    if n: nat :| Steps(X, start, n) == Done(v, w') { assert PyInvoke(X, name, args, w, n) == Done(v, w'); }
    if n: nat :| Steps(X, start, n) == Failed(w') { assert PyInvoke(X, name, args, w, n) == Failed(w'); }
    if n: nat :| PyInvoke(X, name, args, w, n) == Done(v, w') { assert Steps(X, start, n) == Done(v, w'); }
    if n: nat :| PyInvoke(X, name, args, w, n) == Failed(w') { assert Steps(X, start, n) == Failed(w'); }
  }

  // ---------------------------------------------------------------- through a file

  // ---------------------------------------------------------------- names on file

  function SpellEntry(e: Entry): FunctionEntry<string> {
    FunctionEntry(Spell(e.name), e.kind, e.instrOffset, e.instrCount, e.numRegs, e.numArgs, e.inits,
                  W.Map(Spell, e.paramNames))
  }

  function Spelled(exe: Program): Executable<string> {
    Executable(W.Map(SpellEntry, exe.funcs), exe.instrs, exe.consts)
  }

  ghost function MeantAll(names: seq<string>): (r: seq<Name>)
    ensures |r| == |names| && forall k :: 0 <= k < |names| ==> r[k] == Meant(names[k])
  {
    seq(|names|, k requires 0 <= k < |names| => Meant(names[k]))
  }

  ghost function MeantEntry(e: FunctionEntry<string>): Entry {
    FunctionEntry(Meant(e.name), e.kind, e.instrOffset, e.instrCount, e.numRegs, e.numArgs, e.inits,
                  MeantAll(e.paramNames))
  }

  /** The program that an executable read from a file is. */
  ghost function ProgramOf(e: Executable<string>): Program {
    Executable(seq(|e.funcs|, k requires 0 <= k < |e.funcs| => MeantEntry(e.funcs[k])), e.instrs, e.consts)
  }

  ghost predicate OwnName(n: Name) {
    n.Named? ==> !IsBuiltinName(n.s)
  }

  /** Nothing but a builtin has the name of a builtin. */
  ghost predicate OwnNames(exe: Program) {
    forall e <- exe.funcs :: OwnName(e.name) && forall p <- e.paramNames :: OwnName(p)
  }

  lemma EntryBack(e: Entry)
    requires OwnName(e.name) && forall p <- e.paramNames :: OwnName(p)
    ensures MeantEntry(SpellEntry(e)) == e
  {
    hide Spell, Meant, OwnName;
    NameBack(e.name);
    var names := W.Map(Spell, e.paramNames);
    forall k | 0 <= k < |names| ensures Meant(names[k]) == e.paramNames[k] {
      assert e.paramNames[k] in e.paramNames;
      NameBack(e.paramNames[k]);
    }
    assert MeantAll(names) == e.paramNames;
  }

  lemma NameBack(n: Name)
    requires OwnName(n)
    ensures Meant(Spell(n)) == n
  {
    MeantSpell(n);
  }

  /** Writing names down loses nothing. */
  lemma ProgramBack(exe: Program)
    requires OwnNames(exe)
    ensures ProgramOf(Spelled(exe)) == exe
  {
    hide SpellEntry, MeantEntry, OwnName;
    var fs := W.Map(SpellEntry, exe.funcs);
    forall k | 0 <= k < |fs| ensures MeantEntry(fs[k]) == exe.funcs[k] {
      assert exe.funcs[k] in exe.funcs;
      EntryBack(exe.funcs[k]);
    }
    assert ProgramOf(Spelled(exe)).funcs == exe.funcs;
  }

  // ---------------------------------------------------------------- what C++ has read

  function TextOf(bs: seq<byte>): string
    requires U.Decode(bs).Some?
  {
    U.Decode(bs).value
  }

  type byte = U.byte

  predicate ReadableEntry(r: R.RawEntry<seq<byte>>) {
    U.Decode(r.name).Some? && R.KindOf(r.kind).Some? && forall k :: 0 <= k < |r.paramNames| ==>
      U.Decode(r.paramNames[k]).Some?
  }

  function EntryOf(r: R.RawEntry<seq<byte>>): FunctionEntry<string>
    requires ReadableEntry(r)
  {
    FunctionEntry(TextOf(r.name), R.KindOf(r.kind).value, r.instrOffset, r.instrCount, r.numRegs, r.numArgs, r.inits,
                  seq(|r.paramNames|, k requires 0 <= k < |r.paramNames| => TextOf(r.paramNames[k])))
  }

  predicate ReadableInstr(i: R.RawInstr) {
    R.OpOf(i.op).Some?
  }

  function InstrOf(i: R.RawInstr): Instr
    requires ReadableInstr(i)
  {
    Instr(R.OpOf(i.op).value, i.dst, i.func, i.args, i.launch, i.src, i.cond, i.trueOff, i.falseOff, i.off)
  }

  /** Text where text should be, and enumerators that exist; C++ checks neither. */
  predicate Sensible(raw: R.RawExecutable) {
    (forall k :: 0 <= k < |raw.funcs| ==> ReadableEntry(raw.funcs[k])) &&
    (forall k :: 0 <= k < |raw.instrs| ==> ReadableInstr(raw.instrs[k]))
  }

  function ExecutableOf(raw: R.RawExecutable): Executable<string>
    requires Sensible(raw)
  {
    Executable(seq(|raw.funcs|, k requires 0 <= k < |raw.funcs| => EntryOf(raw.funcs[k])),
               seq(|raw.instrs|, k requires 0 <= k < |raw.instrs| => InstrOf(raw.instrs[k])), raw.consts)
  }

  lemma RawEntryBack(e: FunctionEntry<string>)
    ensures ReadableEntry(T.RawEntryOf(e)) && EntryOf(T.RawEntryOf(e)) == e
  {
    hide U.Decode, U.Encode;
    U.DecodeEncode(e.name);
    var raw := T.RawEntryOf(e);
    forall k | 0 <= k < |e.paramNames| ensures U.Decode(raw.paramNames[k]) == Some(e.paramNames[k]) {
      U.DecodeEncode(e.paramNames[k]);
    }
    assert EntryOf(raw).paramNames == e.paramNames;
  }

  lemma RawInstrBack(i: Instr)
    ensures ReadableInstr(T.RawInstrOf(i)) && InstrOf(T.RawInstrOf(i)) == i
  {
  }

  /** What the C++ reader makes of a written executable is that executable without its strings. */
  lemma RawBack(e: Executable<string>)
    ensures Sensible(T.RawOf(e)) && ExecutableOf(T.RawOf(e)) == e.(consts := W.Map(T.Nulled, e.consts))
  {
    hide ReadableEntry, EntryOf, ReadableInstr, InstrOf, T.RawEntryOf, T.RawInstrOf, T.Nulled;
    var raw := T.RawOf(e);
    forall k | 0 <= k < |e.funcs|
      ensures ReadableEntry(raw.funcs[k]) && EntryOf(raw.funcs[k]) == e.funcs[k] { RawEntryBack(e.funcs[k]); }
    forall k | 0 <= k < |e.instrs|
      ensures ReadableInstr(raw.instrs[k]) && InstrOf(raw.instrs[k]) == e.instrs[k] { RawInstrBack(e.instrs[k]); }
    assert ExecutableOf(raw).funcs == e.funcs && ExecutableOf(raw).instrs == e.instrs;
  }

  /** The program on the C++ host: strings are null. */
  function WithoutStrings(exe: Program): Program {
    exe.(consts := W.Map(T.Nulled, exe.consts))
  }

  // ---------------------------------------------------------------- the host does not notice

  lemma {:induction false} PreloadNulled(regs: seq<Val>, inits: seq<ConstInit>, consts: seq<Const>)
    requires forall ci <- inits :: 0 <= ci.reg < |regs| && 0 <= ci.idx < |consts|
    ensures FM.Preload(Cpp, regs, inits, W.Map(T.Nulled, consts)) == FM.Preload(Cpp, regs, inits, consts)
    decreases |inits|
  {
    if inits != [] { PreloadNulled(regs[inits[0].reg := Load(Cpp, consts[inits[0].idx])], inits[1..], consts); }
  }

  lemma PushNulled(exe: Program, s: CppState, f: nat, args: seq<Val>, dst: int, callerBase: int, w: World)
    ensures CppPush(Cpp, WithoutStrings(exe), s, CppFrame(f, 0, |s.regs|, dst, callerBase), args, w) == CppPush(Cpp,
      exe, s, CppFrame(f, 0, |s.regs|, dst, callerBase), args, w)
  {
    if f < |exe.funcs| && FM.FrameFits(exe.funcs[f], args, exe.consts) {
      var e := exe.funcs[f];
      PreloadNulled(args + seq(e.numRegs - |args|, _ => VNull), e.inits, exe.consts);
    }
  }

  lemma StepNulled(X: Vm, st: Run<CppState>)
    requires X.M.host == Cpp
    ensures CppStep(X.(exe := WithoutStrings(X.exe)), st) == CppStep(X, st)
  {
    hide CppPush, Dispatch, CppReturn, LaunchArgs;
    if st.Going? && st.s.frames != [] {
      var s := st.s;
      var below, top := s.frames[..|s.frames| - 1], s.frames[|s.frames| - 1];
      var at := InstrAt(X.exe, top.func, top.pc);
      if at.Some? && at.value.op == CALL && InFile(s.regs, top.base, at.value.args) && at.value.func >= 0 {
        PushNulled(X.exe, s.(frames := below + [top.(pc := top.pc + 1)]), at.value.func,
                   ReadFile(s.regs, top.base, at.value.args),
                   at.value.dst, top.base, st.w);
      }
    }
  }

  lemma {:induction false} StepsNulled(X: Vm, st: Run<CppState>, n: nat)
    requires X.M.host == Cpp
    ensures CppSteps(X.(exe := WithoutStrings(X.exe)), st, n) == CppSteps(X, st, n)
    decreases n
  {
    hide CppStep;
    if n > 0 {
      StepNulled(X, st);
      StepsNulled(X, CppStep(X, st), n - 1);
    }
  }

  lemma InvokeNulled(X: Vm, weights: Weights, name: Name, args: seq<Val>, w: World, n: nat)
    requires X.M.host == Cpp
    ensures CppInvoke(X.(exe := WithoutStrings(X.exe)), weights, name, args, w, n) == CppInvoke(X, weights, name, args,
      w, n)
  {
    hide CppPush, CppSteps, BindWeights;
    var f := FindFunc(X.exe.funcs, name, 0);
    if f < |X.exe.funcs| {
      var fe := X.exe.funcs[f];
      var bound := BindWeights(fe.paramNames, fe.numArgs, weights, args);
      if bound.Some? {
        PushNulled(X.exe, CppState([], []), f, bound.value, -1, -1, w);
        StepsNulled(X, CppPush(Cpp, X.exe, CppState([], []), CppFrame(f, 0, 0, -1, -1), bound.value, w), n);
      }
    }
  }

  // ---------------------------------------------------------------- all the way

  /** What a file holds for each host, whatever follows it. */
  ghost predicate OnFile(data: seq<byte>, exe: Program) {
    F.Fits(Spelled(exe)) && exists rest :: data == F.Enc(Spelled(exe)) + rest
  }

  /** The program a host has after reading the file. */
  ghost predicate CppHas(data: seq<byte>, exe: Program) {
    var r := R.CppDeserialize(data);
    r.Got? && Sensible(r.value) && ProgramOf(ExecutableOf(r.value)) == exe
  }

  ghost predicate PyHas(data: seq<byte>, exe: Program) {
    var r := R.PyDeserialize(data);
    r.Got? && ProgramOf(r.value) == exe
  }

  lemma FileIsRead(data: seq<byte>, exe: Program)
    requires OnFile(data, exe) && OwnNames(exe)
    ensures CppHas(data, WithoutStrings(exe)) && PyHas(data, exe)
  {
    hide F.Enc, F.Fits, T.RawOf, OwnNames, SpellEntry, MeantEntry, R.CppDeserialize, R.PyDeserialize, Sensible,
         ExecutableOf;
    var e := Spelled(exe);
    var rest :| data == F.Enc(e) + rest;
    T.CppReadsBack(e, rest);
    T.PyReadsBack(e, rest);
    RawBack(e);
    ProgramBack(exe);
  }

  /** Compile, write, read in C++, run: the result is what the invoked function means, and only that.
      String constants are null there and everywhere. */
  lemma CppDeploymentCorrect(ext: Foreign, weights: Weights, fns: seq<ModuleForm.Named>, data: seq<byte>, k: nat,
                             args: seq<Val>, bound: seq<Val>, w: World, kinds: Kinds, v: Val, w': World)
    returns (exe: Program)
    requires WfModule(fns, kinds) && OwnNames(CompileModule(fns)) && OnFile(data, CompileModule(fns)) && k < |fns|
    requires |bound| == |fns[k].fn.params| && Completes(ParamNames(fns[k].fn.params), weights, args, bound)
    ensures CppHas(data, exe)
    ensures var M := Machine(Cpp, ext); var X := Vm(M, exe); var name := Builtins.Named(fns[k].name);
      (CppReturns(X, weights, name, args, w, Done(v, w')) <==> Means(M, fns[k].fn, bound, w, Ok(v, w'))) &&
      (CppReturns(X, weights, name, args, w, Failed(w')) <==> Means(M, fns[k].fn, bound, w, Raised(w'))) &&
      !CppReturns(X, weights, name, args, w, Stuck)
  {
    hide CompileModule, Means, WfModule, OwnNames, OnFile, CppHas, Completes, CppInvoke, WithoutStrings;
    var M, full := Machine(Cpp, ext), CompileModule(fns);
    exe := WithoutStrings(full);
    FileIsRead(data, full);
    CppInvokeCorrect(ext, weights, fns, k, args, bound, w, kinds, v, w');
    var name := Builtins.Named(fns[k].name);
    forall n: nat ensures CppInvoke(Vm(M, exe), weights, name, args, w, n) == CppInvoke(Vm(M, full), weights, name,
      args, w, n) {
      InvokeNulled(Vm(M, full), weights, name, args, w, n);
    }
    forall out: Run<CppState> ensures CppReturns(Vm(M, exe), weights, name, args, w, out) <==>
      CppReturns(Vm(M, full), weights, name, args, w, out) {
      SameReturns(Vm(M, exe), Vm(M, full), weights, name, args, w, out);
    }
  }

  lemma SameReturns(X: Vm, Y: Vm, weights: Weights, name: Name, args: seq<Val>, w: World, out: Run<CppState>)
    requires forall n: nat :: CppInvoke(X, weights, name, args, w, n) == CppInvoke(Y, weights, name, args, w, n)
    ensures CppReturns(X, weights, name, args, w, out) <==> CppReturns(Y, weights, name, args, w, out)
  {
    hide CppInvoke;
  }

  /** The same in Python, where strings stay what they are. */
  lemma PyDeploymentCorrect(ext: Foreign, fns: seq<ModuleForm.Named>, data: seq<byte>, k: nat, args: seq<Val>,
                            bound: seq<Val>, w: World, kinds: Kinds, v: Val, w': World) returns (exe: Program)
    requires WfModule(fns, kinds) && OwnNames(CompileModule(fns)) && OnFile(data, CompileModule(fns)) && k < |fns|
    requires |bound| == |fns[k].fn.params| && Padded(args, bound)
    ensures PyHas(data, exe)
    ensures var M := Machine(Py, ext); var X := Vm(M, exe); var name := Builtins.Named(fns[k].name);
      (PyReturns(X, name, args, w, Done(v, w')) <==> Means(M, fns[k].fn, bound, w, Ok(v, w'))) &&
      (PyReturns(X, name, args, w, Failed(w')) <==> Means(M, fns[k].fn, bound, w, Raised(w'))) &&
      !PyReturns(X, name, args, w, Stuck)
  {
    hide CompileModule, Means, WfModule, OwnNames, OnFile, PyHas, PyInvoke;
    exe := CompileModule(fns);
    FileIsRead(data, exe);
    PyInvokeCorrect(ext, fns, k, args, bound, w, kinds, v, w');
  }

  // ---------------------------------------------------------------- both hosts

  lemma InvocationsAreLike(strings: bool, C: Vm, P: Vm, f: nat, args: seq<Val>, w: World)
    requires L.Paired(strings, C, P) && f < |C.exe.funcs| && FM.FrameFits(C.exe.funcs[f], args, C.exe.consts)
    ensures L.RunLike(strings, Invocation(C, f, args, w), Invocation(P, f, args, L.EraseAll(w)))
  {
    hide FM.FrameRegs, L.SameForeign;
    L.FrameRegsLike(strings, C.exe.funcs[f], args, args, C.exe.consts);
  }

  /** A C++ invocation that returns and makes only portable calls returns the same in Python, after
      the same calls, except that it may return a string where C++ returns null. */
  lemma InvocationsAgree(strings: bool, C: Vm, P: Vm, name: Name, args: seq<Val>, w: World, n: nat, v: Val, w': World)
    returns (v': Val)
    requires L.Paired(strings, C, P) && CppInvoke(C, None, name, args, w, n) == Done(v, w')
    requires var f := FindFunc(C.exe.funcs, name, 0);
      f < |C.exe.funcs| && FM.FrameFits(C.exe.funcs[f], args, C.exe.consts) &&
      Steps(C, Invocation(C, f, args, w), n) != Stuck &&
      forall m: nat :: m < n ==>
        L.PortableStep(C, Steps(C, Invocation(C, f, args, w), m), Steps(P, Invocation(P, f, args, L.EraseAll(w)), m))
    ensures PyInvoke(P, name, args, L.EraseAll(w), n) == Done(v', L.EraseAll(w')) && L.Like(strings, v, v')
  {
    hide Steps, Invocation, L.PortableStep, FM.FrameFits, L.SameForeign, L.Like, BindWeights, FlatCpp, FlatPy;
    var f := FindFunc(C.exe.funcs, name, 0);
    var fe := C.exe.funcs[f];
    NoWeights(fe.paramNames, fe.numArgs, args);
    var start, start' := Invocation(C, f, args, w), Invocation(P, f, args, L.EraseAll(w));
    InvocationsAreLike(strings, C, P, f, args, w);
    CppInvokeRefines(C, None, name, f, args, args, w, n);
    L.FlatMachinesAgree(strings, C, P, start, start', n);
    var end' := Steps(P, start', n);
    PyInvokeRefines(P, name, f, args, L.EraseAll(w), n);
    v' := end'.v;
  }

  /** For compiled modules nothing needs to be known about frames. */
  lemma CompiledInvocationsAgree(strings: bool, cpp: Foreign, py: Foreign, fns: seq<ModuleForm.Named>, k: nat,
                                 args: seq<Val>, w: World, kinds: Kinds, n: nat, v: Val, w': World)
    returns (v': Val)
    requires WfModule(fns, kinds) && k < |fns| && |args| == |fns[k].fn.params|
    requires var C, P := Vm(Machine(Cpp, cpp), CompileModule(fns)), Vm(Machine(Py, py), CompileModule(fns));
      var f := FindFunc(C.exe.funcs, Builtins.Named(fns[k].name), 0);
      L.Paired(strings, C, P) && CppInvoke(C, None, Builtins.Named(fns[k].name), args, w, n) == Done(v, w') &&
      (FrameOk(C, f, args) ==> forall m: nat :: m < n ==>
        L.PortableStep(C, Steps(C, Invocation(C, f, args, w), m), Steps(P, Invocation(P, f, args, L.EraseAll(w)), m)))
    ensures var P := Vm(Machine(Py, py), CompileModule(fns));
      PyInvoke(P, Builtins.Named(fns[k].name), args, L.EraseAll(w), n) == Done(v', L.EraseAll(w')) &&
        L.Like(strings, v, v')
  {
    hide CompileModule, WfModule, Means, Steps, Invocation, L.PortableStep, FM.FrameFits, L.Paired, L.Like, CppInvoke,
         PyInvoke;
    var C, P := Vm(Machine(Cpp, cpp), CompileModule(fns)), Vm(Machine(Py, py), CompileModule(fns));
    ModuleCorrect(Machine(Cpp, cpp), fns, k, args, w, kinds, v, w');
    v' := InvocationsAgree(strings, C, P, Builtins.Named(fns[k].name), args, w, n, v, w');
  }

  predicate FrameOk(X: Vm, f: nat, args: seq<Val>) {
    f < |X.exe.funcs| && FM.FrameFits(X.exe.funcs[f], args, X.exe.consts)
  }

  lemma {:induction false} NoWeights(names: seq<Name>, numArgs: int, args: seq<Val>)
    ensures BindWeights(names, numArgs, None, args) == if |args| == numArgs then Some(args) else None
  {
  }
}

/** The rewritten program computes what the old one did, loops and nested regions included
    (python/devproc2/compiler/passes/_rewriter.py, python/devproc2/compiler/passes/dps_lowering.py). */
module RewriteMeaning {
  import opened Bytecode
  import opened Runtime
  import opened PrimExprs
  import opened IRValues
  import opened TensorIR
  import opened TensorSemantics
  import opened Rewriter
  import opened Renaming
  import opened AliasSound
  import opened RewriterCorrect

  /** The pass, the functions it may call for functional ops, and the new identities. */
  datatype Setting = Setting(P: Pass, kernels: set<string>, m: Sub, bound: nat)

  // ---------------------------------------------------------------- what is assumed of foreign code

  /** The calls of a history that are not calls of these functions. */
  function Others(kernels: set<string>, h: History): History {
    if h == [] then []
    else
      var e := h[|h| - 1];
      Others(kernels, h[..|h| - 1]) + (if e.target in kernels then [] else [e])
  }

  /** The function writes the op's value into its last argument, whatever was there before. */
  ghost predicate Implements(C: Context, fn: string, kernel: string) {
    forall h, args, contents, d, c :: C.meaning(fn, args, contents).Some? ==>
      C.kernel(h, FillEvent(kernel, args, contents, d, c)).Some? &&
      forall b: nat :: C.kernel(h, FillEvent(kernel, args, contents, d, c)).value(0, b) == C.meaning(fn, args,
        contents).value(b)
  }

  /** The call that fills a new buffer; the buffer is named twice, as output and as written. */
  function FillEvent(kernel: string, args: seq<Desc>, contents: seq<Content>, d: Desc, c: Content): CallEvent {
    CallEvent(kernel, args + [d, d], contents + [c, c])
  }

  /** No call depends on whether these functions have been called. */
  ghost predicate Traceless(C: Context, kernels: set<string>) {
    forall h, e :: C.kernel(h, e) == C.kernel(Others(kernels, h), e)
  }

  ghost predicate Chosen(C: Context, S: Setting) {
    forall op :: Selected(S.P, op) ==>
      S.P.kernelOf(op).value in S.kernels && Implements(C, op.fn, S.P.kernelOf(op).value)
  }

  ghost predicate Sound(C: Context, S: Setting) {
    Apart(S.m, S.bound) && !S.P.Placing? && Traceless(C, S.kernels) && Chosen(C, S)
  }

  // ---------------------------------------------------------------- the two runs

  ghost predicate StateRn(S: Setting, st: TState, st': TState) {
    && EnvRn(S.m, S.bound, st.env, st'.env) && MemRn(S.m, S.bound, st.mem, st'.mem)
    && Others(S.kernels, st'.hist) == Others(S.kernels, st.hist) && st'.turn == st.turn
  }

  ghost predicate Alike(S: Setting, r: Option<TState>, r': Option<TState>) {
    r.Some? ==> r'.Some? && StateRn(S, r.value, r'.value)
  }

  lemma ApartOf(C: Context, S: Setting)
    requires Sound(C, S)
    ensures Apart(S.m, S.bound) && !S.P.Placing?
  {
  }

  lemma {:induction false} OthersSnoc(kernels: set<string>, h: History, e: CallEvent)
    ensures Others(kernels, h + [e]) == Others(kernels, h) + (if e.target in kernels then [] else [e])
  {
    assert (h + [e])[..|h|] == h;
  }

  lemma {:induction false} NoTrace(C: Context, S: Setting, h: History, e: CallEvent)
    requires Sound(C, S)
    ensures C.kernel(h, e) == C.kernel(Others(S.kernels, h), e)
  {
    hide Chosen, Apart, Others;
  }

  lemma {:induction false} SameAnswer(C: Context, S: Setting, h: History, h': History, e: CallEvent)
    requires Sound(C, S) && Others(S.kernels, h) == Others(S.kernels, h')
    ensures C.kernel(h, e) == C.kernel(h', e)
    ensures Others(S.kernels, h + [e]) == Others(S.kernels, h' + [e])
  {
    hide Sound, Others;
    NoTrace(C, S, h, e);
    NoTrace(C, S, h', e);
    OthersSnoc(S.kernels, h, e);
    OthersSnoc(S.kernels, h', e);
  }

  // ---------------------------------------------------------------- single ops

  lemma {:induction false} CreateRn(C: Context, S: Setting, op: Op, st: TState, st': TState)
    requires op.CreateOp? && FitsOp(S.P, S.m, S.bound, op) && Sound(C, S) && StateRn(S, st, st')
    ensures Alike(S, Exec(C, op, st), Exec(C, RenameOp(S.m, op), st'))
  {
    hide Sound, Apart, EnvRn, OwnSize, EvalShape, Others;
    ApartOf(C, S);
    assert op.res in Results(op);
    if DoCreate(C, op, st).Some? {
      var val := DoCreate(C, op, st).value.env[op.res];
      EnvRnBind(S.m, S.bound, st.env, st'.env, op.res, val);
      var mem, mem' := Filled(st.mem, op.kind, val.t), Filled(st'.mem, op.kind, RnT(S.m, val.t));
      forall s: Store, b: int | StoreBelow(S.bound, s) ensures mem'(RnStore(S.m, s), b) == mem(s, b) {
        if RnStore(S.m, s) == RnStore(S.m, val.t.store) { StoresApart(S.m, S.bound, s, val.t.store); }
        assert st'.mem(RnStore(S.m, s), b) == st.mem(s, b);
      }
    }
  }

  lemma {:induction false} ComputeRn(C: Context, S: Setting, op: Op, st: TState, st': TState)
    requires op.ComputeOp? && FitsOp(S.P, S.m, S.bound, op) && Sound(C, S) && StateRn(S, st, st')
    ensures Alike(S, Exec(C, op, st), Exec(C, RenameOp(S.m, op), st'))
  {
    hide Sound, Apart, EnvRn, MemRn, OwnSize, EvalShape, Stay, AllBelow, Others;
    ApartOf(C, S);
    assert op.res in Results(op) && Refs(OpNode(op)) == op.args;
    if DoCompute(C, op, st).Some? {
      var vals := EvalVs(op.args, st.env).value;
      EvalAllRn(S.m, S.bound, st.env, st'.env, op.args);
      AllRnTensors(S.m, S.bound, vals);
      ReadRn(S.m, S.bound, st.mem, st'.mem, AllTensors(vals));
      var val := DoCompute(C, op, st).value.env[op.res];
      var bytes := C.meaning(op.fn, DescribeAll(vals), ReadAll(st.mem, AllTensors(vals))).value;
      EnvRnBind(S.m, S.bound, st.env, st'.env, op.res, val);
      WriteRn(S.m, S.bound, st.mem, st'.mem, val.t, bytes, bytes);
    }
  }

  lemma {:induction false} PlaceRn(C: Context, S: Setting, op: Op, st: TState, st': TState)
    requires op.StorageOp? || op.PlaceOp? || op.CheckOp?
    requires FitsOp(S.P, S.m, S.bound, op) && Sound(C, S) && StateRn(S, st, st')
    ensures Alike(S, Exec(C, op, st), Exec(C, RenameOp(S.m, op), st'))
  {
    hide Sound, Apart, EnvRn, MemRn, EvalShape, Others;
    ApartOf(C, S);
    if op.StorageOp? {
      assert op.res in Results(op);
      if DoStorage(C, op, st).Some? { EnvRnBind(S.m, S.bound, st.env, st'.env, op.res,
                                                DoStorage(C, op, st).value.env[op.res]); }
    } else if op.PlaceOp? {
      assert op.res in Results(op) && Refs(OpNode(op)) == [op.storage];
      if DoPlace(C, op, st).Some? {
        EvalRn(S.m, S.bound, st.env, st'.env, op.storage);
        EnvRnBind(S.m, S.bound, st.env, st'.env, op.res, DoPlace(C, op, st).value.env[op.res]);
      }
    } else {
      assert Refs(OpNode(op)) == [op.tensor, op.tensor];
      if DoCheck(op, st).Some? { EvalRn(S.m, S.bound, st.env, st'.env, op.tensor); }
    }
  }

  lemma {:induction false} ViewFits(S: Setting, op: Op)
    requires op.ViewOp? && FitsOp(S.P, S.m, S.bound, op)
    ensures op.res < S.bound && Stay(S.m, [op.base]) && Stay(S.m, [op.byteOffset])
    ensures RenameOp(S.m, op) ==
      ViewOp(Rn(S.m, op.res), Sv(S.m, op.base), Sv(S.m, op.byteOffset), op.shape, op.byteStride, op.baseOffset)
  {
    assert op.res in Results(op) && Refs(OpNode(op)) == [op.base, op.byteOffset, op.base];
  }

  lemma {:induction false} ViewRn(C: Context, S: Setting, op: Op, st: TState, st': TState)
    requires op.ViewOp? && FitsOp(S.P, S.m, S.bound, op) && Sound(C, S) && StateRn(S, st, st')
    ensures Alike(S, Exec(C, op, st), Exec(C, RenameOp(S.m, op), st'))
  {
    hide Sound, Apart, EnvRn, MemRn, EvalShape, Others, FitsOp, RenameOp, Stay, PayloadBytes;
    ApartOf(C, S);
    ViewFits(S, op);
    if DoView(C, op, st).Some? {
      EvalRn(S.m, S.bound, st.env, st'.env, op.base);
      EvalRn(S.m, S.bound, st.env, st'.env, op.byteOffset);
      EnvRnBind(S.m, S.bound, st.env, st'.env, op.res, DoView(C, op, st).value.env[op.res]);
    }
  }

  lemma {:induction false} TupleRn(C: Context, S: Setting, op: Op, st: TState, st': TState)
    requires (op.TupleOp? || op.ItemOp?) && FitsOp(S.P, S.m, S.bound, op) && Sound(C, S) && StateRn(S, st, st')
    ensures Alike(S, Exec(C, op, st), Exec(C, RenameOp(S.m, op), st'))
  {
    hide Sound, Apart, EnvRn, MemRn, Stay, Others;
    ApartOf(C, S);
    assert op.res in Results(op);
    if op.TupleOp? {
      assert Refs(OpNode(op)) == op.elems;
      if EvalVs(op.elems, st.env).Some? {
        EvalAllRn(S.m, S.bound, st.env, st'.env, op.elems);
        EnvRnBind(S.m, S.bound, st.env, st'.env, op.res, TTuple(EvalVs(op.elems, st.env).value));
      }
    } else if DoItem(op, st).Some? {
      assert Refs(OpNode(op)) == [op.tup];
      EvalRn(S.m, S.bound, st.env, st'.env, op.tup);
      AllBelowAt(S.bound, EvalV(op.tup, st.env).value.fields, op.index);
      EnvRnBind(S.m, S.bound, st.env, st'.env, op.res, DoItem(op, st).value.env[op.res]);
    }
  }

  lemma {:induction false} RenamedCall(m: Sub, op: Op)
    requires op.CallOp?
    ensures RenameOp(m, op) == CallOp(op.target, Svs(m, op.inputs), Svs(m, op.outputs), SubstEffect(m, EffectOf(op)))
  {
  }

  /** A renamed call is the same call. */
  lemma {:induction false} CallRn(C: Context, S: Setting, op: Op, st: TState, st': TState)
    requires op.CallOp? && FitsOp(S.P, S.m, S.bound, op) && Sound(C, S) && StateRn(S, st, st')
    ensures Alike(S, Exec(C, op, st), Exec(C, RenameOp(S.m, op), st'))
  {
    hide Sound, Apart, EnvRn, MemRn, AllBelow, EffectOf, Leaf, Others;
    ApartOf(C, S);
    var op', m := RenameOp(S.m, op), S.m;
    var e := EffectOf(op);
    RenamedCall(m, op);
    CallEffect(m, op);
    var refs := op.inputs + op.outputs + e.reading + e.writing;
    SvsAppend(m, op.inputs, op.outputs);
    SvsAppend(m, op.inputs + op.outputs, e.reading);
    SvsAppend(m, op.inputs + op.outputs + e.reading, e.writing);
    if DoCall(C, op, st).Some? {
      var vals, outs := EvalVs(refs, st.env).value, EvalVs(e.writing, st.env).value;
      EvalAllRn(m, S.bound, st.env, st'.env, refs);
      assert Stay(m, e.writing) by { assert forall v <- e.writing :: v in refs; }
      EvalAllRn(m, S.bound, st.env, st'.env, e.writing);
      AllRnTensors(m, S.bound, vals);
      AllRnTensors(m, S.bound, outs);
      ReadRn(m, S.bound, st.mem, st'.mem, AllTensors(vals));
      var event := CallEvent(op.target, DescribeAll(vals), ReadAll(st.mem, AllTensors(vals)));
      SameAnswer(C, S, st.hist, st'.hist, event);
      WriteAllRn(m, S.bound, st.mem, st'.mem, AllTensors(outs), C.kernel(st.hist, event).value, 0);
    }
  }

  lemma {:induction false} KeptRn(C: Context, S: Setting, op: Op, st: TState, st': TState)
    requires IsLeaf(op) && FitsOp(S.P, S.m, S.bound, op) && Sound(C, S) && StateRn(S, st, st')
    ensures Alike(S, Exec(C, op, st), Exec(C, RenameOp(S.m, op), st'))
  {
    hide FitsOp, RenameOp, Alike, Sound, StateRn, Exec;
    match op
    case ComputeOp(_, _, _, _, _) => ComputeRn(C, S, op, st, st');
    case CreateOp(_, _, _, _, _) => CreateRn(C, S, op, st, st');
    case StorageOp(_, _, _) => PlaceRn(C, S, op, st, st');
    case PlaceOp(_, _, _, _) => PlaceRn(C, S, op, st, st');
    case CheckOp(_, _, _) => PlaceRn(C, S, op, st, st');
    case ViewOp(_, _, _, _, _, _) => ViewRn(C, S, op, st, st');
    case CallOp(_, _, _, _) => CallRn(C, S, op, st, st');
    case TupleOp(_, _) => TupleRn(C, S, op, st, st');
    case ItemOp(_, _, _) => TupleRn(C, S, op, st, st');
  }

  // ---------------------------------------------------------------- functional calls

  lemma {:induction false} EvalOther(vs: seq<Value>, E: TEnv, id: nat, val: TVal)
    requires forall v <- vs :: !v.Imm? ==> v.id != id
    ensures EvalVs(vs, E[id := val]) == EvalVs(vs, E)
  {
    if vs != [] {
      assert vs[0] in vs && forall v <- vs[1..] :: v in vs;
      EvalOther(vs[1..], E, id, val);
    }
  }

  lemma {:induction false} AllAppend(a: seq<TVal>, b: seq<TVal>)
    ensures AllTensors(a + b) == AllTensors(a) + AllTensors(b) && DescribeAll(a + b) == DescribeAll(a) + DescribeAll(b)
  {
    if a == [] {
      assert a + b == b;
    } else {
      assert (a + b)[1..] == a[1..] + b;
      AllAppend(a[1..], b);
    }
  }

  lemma EvalRes(res: nat, E: TEnv)
    requires res in E
    ensures EvalV(Res(res), E) == Some(E[res])
  {
  }

  /** What a new buffer is filled with. */
  lemma {:induction false} FillRuns(C: Context, kernel: string, args: seq<Value>, vals: seq<TVal>, res: nat,
                                    t: TensorRef, st: TState)
    requires EvalVs(args, st.env) == Some(vals) && res in st.env && st.env[res] == TTensor(t)
    ensures var op := WriteCall(kernel, args, Res(res));
      var event := FillEvent(kernel, DescribeAll(vals), ReadAll(st.mem, AllTensors(vals)), Describe(TTensor(t)),
                             Read(st.mem, t));
      Exec(C, op, st) ==
      match C.kernel(st.hist, event)
      case None => None
      case Some(bytes) => Some(st.(mem := WriteOne(st.mem, t, Row(bytes, 0)), hist := st.hist + [event]))
  {
    hide WriteOne, Read, EvalV, EvalVs, ReadAll, WriteAll, EffectOf, Describe, DescribeAll, AllTensors, Row;
    var op, out, val := WriteCall(kernel, args, Res(res)), Res(res), TTensor(t);
    var ts := AllTensors(vals);
    WriteCallRefs(kernel, args, out);
    EvalRes(res, st.env);
    TwiceEval(out, st.env, val);
    EvalAppend(args, [out, out], st.env);
    AllAppend(vals, [val, val]);
    TwiceTensors(t);
    ReadTwice(st.mem, ts, t);
    assert args + [out] + [] + [out] == args + [out, out];
    if bytes :| C.kernel(st.hist,
                         FillEvent(kernel, DescribeAll(vals), ReadAll(st.mem, ts), Describe(val),
                                   Read(st.mem, t))) == Some(bytes) {
      WriteSingle(st.mem, t, bytes);
    }
  }

  lemma ReadTwice(mem: Memory, ts: seq<TensorRef>, t: TensorRef)
    ensures ReadAll(mem, ts + [t, t]) == ReadAll(mem, ts) + [Read(mem, t), Read(mem, t)]
  {
    hide Read;
  }

  lemma WriteSingle(mem: Memory, t: TensorRef, bytes: (nat, nat) -> Option<int>)
    ensures WriteAll(mem, [t], bytes, 0) == WriteOne(mem, t, Row(bytes, 0))
  {
    hide WriteOne, Row;
    assert WriteAll(WriteOne(mem, t, Row(bytes, 0)), [t], bytes, 1) == WriteOne(mem, t, Row(bytes, 0));
  }

  lemma {:induction false} TwiceEval(v: Value, E: TEnv, val: TVal)
    requires EvalV(v, E) == Some(val)
    ensures EvalVs([v, v], E) == Some([val, val]) && EvalVs([v], E) == Some([val])
  {
    hide EvalV;
    assert [v, v][1..] == [v] && [v][1..] == [];
    assert EvalVs([], E) == Some([]);
    assert EvalVs([v], E) == Some([val] + []) && [val] + [] == [val];
    assert EvalVs([v, v], E) == Some([val] + [val]) && [val] + [val] == [val, val];
  }

  lemma TwiceTensors(t: TensorRef)
    ensures var val := TTensor(t);
      AllTensors([val]) == [t] && AllTensors([val, val]) == [t, t] &&
        DescribeAll([val, val]) == [Describe(val), Describe(val)]
  {
    var val := TTensor(t);
    assert [val, val][1..] == [val] && [val][1..] == [];
    assert AllTensors([]) == [];
    assert DescribeAll([val]) == [Describe(val)] + DescribeAll([]);
  }

  /** A functional call and the pair it is lowered to: a new buffer, filled before anything else
      happens.  The buffer ends up holding what the call computes. */
  lemma {:induction false} SelectedRn(C: Context, S: Setting, op: Op, st: TState, st': TState)
    requires Selected(S.P, op) && FitsOp(S.P, S.m, S.bound, op) && Sound(C, S) && StateRn(S, st, st')
    ensures Alike(S, Exec(C, op, st), ExecOps(C, RenameOps(S.m, Target(S.P, op)), st'))
  {
    hide Sound, StateRn, FitsOp, Target, RenameOps, Exec;
    var k, m, res' := S.P.kernelOf(op).value, S.m, Rn(S.m, op.res);
    SelectedCode(S, op);
    if Exec(C, op, st).Some? {
      var create := CreateOp(res', op.name, Empty, op.spec, None);
      var val := NewBuffer(C, S, op, st, st');
      var mid := st'.(env := st'.env[res' := RnV(m, val)]);
      BufferFilled(C, S, op, st, st', val);
      RunTwo(C, create, WriteCall(k, Svs(m, op.args), Res(res')), st');
    }
  }

  /** The buffer before it is filled. */
  lemma NewBuffer(C: Context, S: Setting, op: Op, st: TState, st': TState) returns (val: TVal)
    requires Selected(S.P, op) && FitsOp(S.P, S.m, S.bound, op) && Sound(C, S) && StateRn(S, st, st')
    requires Exec(C, op, st).Some?
    ensures val.TTensor? && StoreBelow(S.bound, val.t.store) && op.res in Exec(C, op, st).value.env
    ensures val == Exec(C, op, st).value.env[op.res]
    ensures Exec(C, CreateOp(Rn(S.m, op.res), op.name, Empty, op.spec, None),
                 st') == Some(st'.(env := st'.env[Rn(S.m, op.res) := RnV(S.m, val)]))
  {
    hide Sound, Apart, EnvRn, MemRn, EvalShape, OwnSize, WriteOne, Others, Stay;
    assert op.res in Results(op);
    val := DoCompute(C, op, st).value.env[op.res];
  }

  lemma BufferFilled(C: Context, S: Setting, op: Op, st: TState, st': TState, val: TVal)
    requires Selected(S.P, op) && FitsOp(S.P, S.m, S.bound, op) && Sound(C, S) && StateRn(S, st, st')
    requires Exec(C, op, st).Some?
    requires val.TTensor? && StoreBelow(S.bound, val.t.store) && op.res in Exec(C, op, st).value.env
    requires val == Exec(C, op, st).value.env[op.res]
    ensures var res' := Rn(S.m, op.res);
      Alike(S, Exec(C, op, st),
            Exec(C, WriteCall(S.P.kernelOf(op).value, Svs(S.m, op.args), Res(res')),
                 st'.(env := st'.env[res' := RnV(S.m, val)])))
  {
    hide Sound, Apart, EnvRn, MemRn, Stay, AllBelow, Others, EvalShape, OwnSize, WriteOne, Implements, Read,
         WriteCall, EvalVs, AllTensors, DescribeAll;
    ApartOf(C, S);
    var k, m, res' := S.P.kernelOf(op).value, S.m, Rn(S.m, op.res);
    assert op.res in Results(op) && Refs(OpNode(op)) == op.args;
    var vals := EvalVs(op.args, st.env).value;
    EvalAllRn(m, S.bound, st.env, st'.env, op.args);
    AllRnTensors(m, S.bound, vals);
    ReadRn(m, S.bound, st.mem, st'.mem, AllTensors(vals));
    var args, contents := DescribeAll(vals), ReadAll(st.mem, AllTensors(vals));
    var bytes := C.meaning(op.fn, args, contents).value;
    var mid := st'.(env := st'.env[res' := RnV(m, val)]);
    var t' := RnT(m, val.t);
    OtherArgs(S, op, st.env, st'.env);
    EvalOther(Svs(m, op.args), st'.env, res', RnV(m, val));
    FillRuns(C, k, Svs(m, op.args), RnVs(m, vals), res', t', mid);
    KernelFills(C, S, op, st'.hist, args, contents, Describe(TTensor(t')), Read(mid.mem, t'));
    var event := FillEvent(k, args, contents, Describe(TTensor(t')), Read(mid.mem, t'));
    var bytes' := C.kernel(st'.hist, event).value;
    EnvRnBind(m, S.bound, st.env, st'.env, op.res, val);
    WriteRn(m, S.bound, st.mem, st'.mem, val.t, bytes, Row(bytes', 0));
    OthersSnoc(S.kernels, st'.hist, event);
  }

  lemma KernelFills(C: Context, S: Setting, op: Op, h: History, args: seq<Desc>, contents: seq<Content>, d: Desc,
                    c: Content)
    requires Sound(C, S) && Selected(S.P, op) && C.meaning(op.fn, args, contents).Some?
    ensures var k := S.P.kernelOf(op).value; var r := C.kernel(h, FillEvent(k, args, contents, d, c));
      k in S.kernels && r.Some? && forall b: nat :: r.value(0, b) == C.meaning(op.fn, args, contents).value(b)
  {
    assert Implements(C, op.fn, S.P.kernelOf(op).value);
  }

  lemma {:induction false} RunTwo(C: Context, a: Op, b: Op, st: TState)
    ensures ExecOps(C, [a, b], st) == match Exec(C, a, st) case Some(mid) => Exec(C, b, mid) case None => None
  {
    hide Exec;
    assert [a, b][1..] == [b] && [b][1..] == [];
    if Exec(C, a, st).Some? { RunOne(C, b, Exec(C, a, st).value); }
  }

  lemma {:induction false} SelectedCode(S: Setting, op: Op)
    requires Selected(S.P, op)
    ensures var res' := Rn(S.m, op.res);
      RenameOps(S.m, Target(S.P, op)) ==
      [CreateOp(res', op.name, Empty, op.spec, None), WriteCall(S.P.kernelOf(op).value, Svs(S.m, op.args), Res(res'))]
  {
    var k, out := S.P.kernelOf(op).value, Res(op.res);
    var create, call := CreateOp(op.res, op.name, Empty, op.spec, None), WriteCall(k, op.args, out);
    WriteCallRefs(k, op.args, out);
    assert Svs(S.m, [out]) == [Sv(S.m, out)] && Svs(S.m, []) == [];
    RenameOne(S.m, create);
    RenameOne(S.m, call);
    RenameAppend(S.m, [create], [call]);
    assert Target(S.P, op) == [create] + [call];
  }

  lemma {:induction false} ArgsBound(vs: seq<Value>, E: TEnv, v: Value)
    requires EvalVs(vs, E).Some? && v in vs && !v.Imm?
    ensures v.id in E
  {
    if v != vs[0] { ArgsBound(vs[1..], E, v); }
  }

  /** The new buffer is not among the arguments. */
  lemma {:induction false} OtherArgs(S: Setting, op: Op, E: TEnv, E': TEnv)
    requires op.ComputeOp? && NotOwn(op) && Apart(S.m, S.bound) && op.res < S.bound && Stay(S.m, op.args)
    requires EnvRn(S.m, S.bound, E, E') && EvalVs(op.args, E).Some?
    ensures forall v' <- Svs(S.m, op.args) :: !v'.Imm? ==> v'.id != Rn(S.m, op.res)
  {
    forall v' | v' in Svs(S.m, op.args) && !v'.Imm? ensures v'.id != Rn(S.m, op.res) {
      var k :| 0 <= k < |op.args| && v' == Svs(S.m, op.args)[k];
      var v := op.args[k];
      ArgsBound(op.args, E, v);
      assert v in op.args && v'.id == Rn(S.m, v.id);
    }
  }

  // ---------------------------------------------------------------- control flow

  /** An op of the rewritten program, or the two it has become. */
  function After(S: Setting, op: Op): seq<Op> {
    RenameOps(S.m, Target(S.P, op))
  }

  function AfterRegion(S: Setting, r: Region): Region {
    RenameRegion(S.m, TargetRegion(S.P, r))
  }

  function AfterOps(S: Setting, ops: seq<Op>): seq<Op> {
    RenameOps(S.m, TargetOps(S.P, ops))
  }

  lemma {:induction false} KeptTarget(C: Context, S: Setting, op: Op)
    requires IsLeaf(op) && !Selected(S.P, op) && Sound(C, S)
    ensures Target(S.P, op) == [op]
  {
    hide Apart, Traceless, Chosen;
  }

  lemma {:induction false} LeafRn(C: Context, S: Setting, op: Op, st: TState, st': TState)
    requires IsLeaf(op) && FitsOp(S.P, S.m, S.bound, op) && Sound(C, S) && StateRn(S, st, st')
    ensures Alike(S, Exec(C, op, st), ExecOps(C, After(S, op), st'))
  {
    hide Sound, StateRn, FitsOp, Exec, RenameOps;
    if Selected(S.P, op) {
      SelectedRn(C, S, op, st, st');
    } else {
      KeptTarget(C, S, op);
      RenameOne(S.m, op);
      RunOne(C, RenameOp(S.m, op), st');
      KeptRn(C, S, op, st, st');
    }
  }

  /** Leaving a region: its results are bound outside. */
  lemma {:induction false} LeaveRn(C: Context, S: Setting, results: seq<nat>, vals: seq<TVal>, st: TState, st': TState,
                                   inner: TState, inner': TState)
    requires Sound(C, S) && StateRn(S, st, st') && StateRn(S, inner, inner') && |vals| == |results|
    requires (forall id <- results :: id < S.bound) && AllBelow(S.bound, vals)
    ensures StateRn(S, inner.(env := BindVals(st.env, results, vals)),
                    inner'.(env := BindVals(st'.env, RnIds(S.m, results), RnVs(S.m, vals))))
  {
    hide Sound;
    ApartOf(C, S);
    BindRn(S.m, S.bound, st.env, st'.env, results, vals);
  }

  lemma EnvOf(S: Setting, st: TState, st': TState)
    requires StateRn(S, st, st')
    ensures EnvRn(S.m, S.bound, st.env, st'.env)
  {
  }

  lemma {:induction false} RegionRn(C: Context, S: Setting, r: Region, results: seq<nat>, st: TState, st': TState)
    requires FitsRegion(S.P, S.m, S.bound, r) && Sound(C, S) && StateRn(S, st, st')
    requires forall id <- results :: id < S.bound
    ensures Alike(S, ExecRegion(C, r, results, st), ExecRegion(C, AfterRegion(S, r), RnIds(S.m, results), st'))
    decreases r, 0, 0
  {
    hide Sound, StateRn, FitsOps, ExecOps, RenameOps, TargetOps, Stay, AllBelow;
    OpsRn(C, S, r.ops, st, st');
    if ExecRegion(C, r, results, st).Some? {
      var inner, inner' := ExecOps(C, r.ops, st).value, ExecOps(C, AfterOps(S, r.ops), st').value;
      var vals := EvalVs(r.yielded, inner.env).value;
      EnvOf(S, inner, inner');
      EvalAllRn(S.m, S.bound, inner.env, inner'.env, r.yielded);
      LeaveRn(C, S, results, vals, st, st', inner, inner');
    }
  }

  lemma {:induction false} OpRn(C: Context, S: Setting, op: Op, st: TState, st': TState)
    requires FitsOp(S.P, S.m, S.bound, op) && Sound(C, S) && StateRn(S, st, st')
    ensures Alike(S, Exec(C, op, st), ExecOps(C, After(S, op), st'))
    decreases op, 1, 1
  {
    hide Sound, StateRn, FitsOp, Exec, ExecOps, After, Alike;
    if op.IfOp? {
      IfRn(C, S, op, st, st');
    } else if op.ForOp? {
      ForRn(C, S, op, st, st');
    } else {
      LeafRn(C, S, op, st, st');
    }
  }

  lemma {:induction false} IfRn(C: Context, S: Setting, op: Op, st: TState, st': TState)
    requires op.IfOp? && FitsOp(S.P, S.m, S.bound, op) && Sound(C, S) && StateRn(S, st, st')
    ensures Alike(S, Exec(C, op, st), ExecOps(C, After(S, op), st'))
    decreases op, 1, 0
  {
    hide Sound, StateRn, ExecRegion, ExecOps, FitsRegion, RenameRegion, TargetRegion, RenameOps, Stay;
    assert forall id <- op.results :: id in Results(op) && id < S.bound;
    var els := if op.els.Some? then Some(TargetRegion(S.P, op.els.value)) else None;
    var op' := IfOp(op.results, op.cond, TargetRegion(S.P, op.thn), els);
    RenameOne(S.m, op');
    RunOne(C, RenameOp(S.m, op'), st');
    if Exec(C, op, st).Some? {
      EnvOf(S, st, st');
      EvalRn(S.m, S.bound, st.env, st'.env, op.cond);
      if EvalV(op.cond, st.env).value.c.b {
        RegionRn(C, S, op.thn, op.results, st, st');
      } else if op.els.Some? {
        RegionRn(C, S, op.els.value, op.results, st, st');
      }
    }
  }

  lemma RangeRn(m: Sub, bound: nat, bounds: seq<Value>, E: TEnv, E': TEnv)
    requires EnvRn(m, bound, E, E') && Stay(m, bounds) && LoopRange(bounds, E).Some?
    ensures LoopRange(Svs(m, bounds), E') == LoopRange(bounds, E)
  {
    hide EnvRn;
    EvalAllRn(m, bound, E, E', bounds);
    var vals := EvalVs(bounds, E).value;
    assert forall k :: 0 <= k < |vals| ==> RnVs(m, vals)[k] == RnV(m, vals[k]);
  }

  /** The rewritten loop. */
  function AfterLoop(S: Setting, op: Op): (r: Op)
    requires op.ForOp?
    ensures r.ForOp? && |r.iters| == |op.iters| && r.body == AfterRegion(S, op.body)
  {
    ForOp(RnIds(S.m, op.results), op.loopVar, Svs(S.m, op.bounds), SubstIters(S.m, op.iters), AfterRegion(S, op.body))
  }

  lemma AfterFor(S: Setting, op: Op)
    requires op.ForOp?
    ensures After(S, op) == [AfterLoop(S, op)]
  {
    RenameOne(S.m, Target(S.P, op)[0]);
  }

  lemma {:induction false} ForRn(C: Context, S: Setting, op: Op, st: TState, st': TState)
    requires op.ForOp? && FitsOp(S.P, S.m, S.bound, op) && Sound(C, S) && StateRn(S, st, st')
    ensures Alike(S, Exec(C, op, st), ExecOps(C, After(S, op), st'))
    decreases op, 1, 0
  {
    hide Sound, StateRn, ExecLoop, ExecOps, FitsRegion, AfterRegion, AllBelow, LoopRange, After, Stay, RnIds, Svs;
    var op' := AfterLoop(S, op);
    AfterFor(S, op);
    RunOne(C, op', st');
    if Exec(C, op, st).Some? {
      StayParts(S.m, op.bounds, Inits(op.iters));
      EnvOf(S, st, st');
      RangeRn(S.m, S.bound, op.bounds, st.env, st'.env);
      assert Inits(op'.iters) == Svs(S.m, Inits(op.iters));
      EvalAllRn(S.m, S.bound, st.env, st'.env, Inits(op.iters));
      var range, inits := LoopRange(op.bounds, st.env).value, EvalVs(Inits(op.iters), st.env).value;
      LoopRn(C, S, op, range, inits, 0, st, st');
      var (vals, after) := ExecLoop(C, op, range, inits, 0, st).value;
      var (vals', after') := ExecLoop(C, op', range, RnVs(S.m, inits), 0, st').value;
      assert forall id <- op.results :: id in Results(op) && id < S.bound;
      if op.results != [] { LeaveRn(C, S, op.results, vals, st, st', after, after'); }
    }
  }

  lemma StayParts(m: Sub, a: seq<Value>, b: seq<Value>)
    requires Stay(m, a + b)
    ensures Stay(m, a) && Stay(m, b)
  {
    assert forall v <- a :: v in a + b;
    assert forall v <- b :: v in a + b;
  }

  ghost predicate LoopAlike(S: Setting, r: Option<(seq<TVal>, TState)>, r': Option<(seq<TVal>, TState)>, st: TState,
                            st': TState) {
    r.Some? ==>
      r'.Some? && r'.value.0 == RnVs(S.m, r.value.0) && AllBelow(S.bound, r.value.0) &&
      StateRn(S, r.value.1, r'.value.1) &&
      r.value.1.env == st.env && r'.value.1.env == st'.env
  }

  /** Entering the body. */
  lemma {:induction false} EnterRn(C: Context, S: Setting, op: Op, i: int, vals: seq<TVal>, k: nat, st: TState,
                                   st': TState)
    requires op.ForOp? && FitsOp(S.P, S.m, S.bound, op) && Sound(C, S) && StateRn(S, st, st') && |vals| == |op.iters|
    requires AllBelow(S.bound, vals)
    ensures StateRn(S, EnterBody(op, i, vals, k, st), EnterBody(AfterLoop(S, op), i, RnVs(S.m, vals), k, st'))
  {
    hide Sound, EnvRn, MemRn, Apart, FitsRegion, AfterRegion, AllBelow, Others, Stay;
    ApartOf(C, S);
    var op' := AfterLoop(S, op);
    assert Vars(op'.iters) == Vars(op.iters) == RnIds(S.m, Vars(op.iters)) by {
      forall k | 0 <= k < |op.iters|
        ensures Rn(S.m, Vars(op.iters)[k]) == Vars(op.iters)[k] { assert Vars(op.iters)[k] in Vars(op.iters); }
    }
    var v := TScalar(Int(i));
    EnvRnBind(S.m, S.bound, st.env, st'.env, op.loopVar, v);
    BindRn(S.m, S.bound, st.env[op.loopVar := v], st'.env[op.loopVar := v], Vars(op.iters), vals);
  }

  /** Back outside after an iteration. */
  lemma BackRn(S: Setting, st: TState, st': TState, inner: TState, inner': TState)
    requires StateRn(S, st, st') && StateRn(S, inner, inner')
    ensures StateRn(S, inner.(env := st.env, turn := st.turn), inner'.(env := st'.env, turn := st'.turn))
  {
  }

  lemma {:induction false} LoopRn(C: Context, S: Setting, op: Op, range: Range, vals: seq<TVal>, k: nat, st: TState,
                                  st': TState)
    requires op.ForOp? && FitsOp(S.P, S.m, S.bound, op) && Sound(C, S) && StateRn(S, st, st') && AllBelow(S.bound, vals)
    ensures LoopAlike(S, ExecLoop(C, op, range, vals, k, st),
                      ExecLoop(C, AfterLoop(S, op), range, RnVs(S.m, vals), k, st'), st, st')
    decreases op, 0, if range.end >= range.start then range.end - range.start else 0
  {
    hide Sound, StateRn, FitsOps, RenameOps, AllBelow, EnterBody, ExecOps, Stay, RnVs;
    var op' := AfterLoop(S, op);
    if range.start < range.end && ExecLoop(C, op, range, vals, k, st).Some? {
      var enter, enter' := EnterBody(op, range.start, vals, k, st),
        EnterBody(op', range.start, RnVs(S.m, vals), k, st');
      EnterRn(C, S, op, range.start, vals, k, st, st');
      OpsRn(C, S, op.body.ops, enter, enter');
      var inner, inner' := ExecOps(C, op.body.ops, enter).value, ExecOps(C, AfterOps(S, op.body.ops), enter').value;
      EnvOf(S, inner, inner');
      EvalAllRn(S.m, S.bound, inner.env, inner'.env, op.body.yielded);
      var next := EvalVs(op.body.yielded, inner.env).value;
      BackRn(S, st, st', inner, inner');
      LoopRn(C, S, op, range.(start := range.start + range.step), next, k + 1,
             inner.(env := st.env, turn := st.turn), inner'.(env := st'.env, turn := st'.turn));
    }
  }

  /** Whenever the old code runs, the rewritten code runs, ends with the same values up to renaming
      and the same bytes in every tensor, and makes the same foreign calls in the same order apart
      from those that fill the buffers of functional calls. */
  lemma {:induction false} OpsRn(C: Context, S: Setting, ops: seq<Op>, st: TState, st': TState)
    requires FitsOps(S.P, S.m, S.bound, ops) && Sound(C, S) && StateRn(S, st, st')
    ensures Alike(S, ExecOps(C, ops, st), ExecOps(C, AfterOps(S, ops), st'))
    decreases ops, 0, 0
  {
    hide Sound, StateRn, Exec, RenameOp, FitsOp, Target;
    if ops != [] {
      OpRn(C, S, ops[0], st, st');
      RenameAppend(S.m, Target(S.P, ops[0]), TargetOps(S.P, ops[1..]));
      ExecAppend(C, After(S, ops[0]), AfterOps(S, ops[1..]), st');
      if Exec(C, ops[0], st).Some? {
        OpsRn(C, S, ops[1..], Exec(C, ops[0], st).value, ExecOps(C, After(S, ops[0]), st').value);
      }
    }
  }

  // ---------------------------------------------------------------- whole functions

  // ---------------------------------------------------------------- whole functions

  /** Nothing has been allocated, and arguments are the caller's. */
  ghost predicate AtStart(fn: Func, st: TState) {
    (forall id <- st.env :: id in fn.params && !Holds(st.env[id]) && Foreign(st.env[id])) &&
    forall res, turn, b :: st.mem(Own(res, turn), b).None?
  }

  /** No storage of the program's own, not even inside a tuple. */
  predicate Foreign(v: TVal) {
    match v
    case TTensor(t) => t.store.External?
    case TTuple(fields) => AllForeign(fields)
    case TStorage(s, _) => s.External?
    case TScalar(_) => true
  }

  predicate AllForeign(vs: seq<TVal>) {
    vs == [] || (Foreign(vs[0]) && AllForeign(vs[1..]))
  }

  lemma {:induction false} ForeignStays(m: Sub, bound: nat, v: TVal)
    requires Foreign(v)
    ensures RnV(m, v) == v && Below(bound, v)
    decreases v, 0
  {
    if v.TTuple? { AllForeignStay(m, bound, v.fields); }
  }

  lemma {:induction false} AllForeignStay(m: Sub, bound: nat, vs: seq<TVal>)
    requires AllForeign(vs)
    ensures RnVs(m, vs) == vs && AllBelow(bound, vs)
    decreases vs
  {
    if vs != [] {
      ForeignStays(m, bound, vs[0]);
      AllForeignStay(m, bound, vs[1..]);
    }
  }

  /** The two runs start alike. */
  lemma StartsAlike(S: Setting, fn: Func, st: TState)
    requires AtStart(fn, st) && forall id <- fn.params :: id < S.bound && Rn(S.m, id) == id
    ensures StateRn(S, st, st)
  {
    forall id | id in st.env
      ensures id < S.bound && Rn(S.m, id) in st.env && st.env[Rn(S.m, id)] == RnV(S.m, st.env[id])
      ensures Below(S.bound, st.env[id]) {
      ForeignStays(S.m, S.bound, st.env[id]);
    }
    forall s: Store, b: int | StoreBelow(S.bound, s) ensures st.mem(RnStore(S.m, s), b) == st.mem(s, b) {
      if s.Own? { assert st.mem(Own(s.res, s.turn), b).None? && st.mem(Own(Rn(S.m, s.res), s.turn), b).None?; }
    }
  }

  /** One returned value, before and after. */
  ghost predicate SameResult(m: Sub, v: Value, v': Value, r: TState, r': TState) {
    EvalV(v, r.env).Some? ==>
      EvalV(v', r'.env) == Some(RnV(m, EvalV(v, r.env).value)) &&
      forall t <- Tensors(EvalV(v, r.env).value) :: Read(r'.mem, RnT(m, t)) == Read(r.mem, t)
  }

  /** The default rewrite and the lowering of functional calls preserve meaning, for functions with
      loops and nested regions: whenever the function runs, the rewritten one does; it returns the
      same values with the same bytes, leaves the same bytes in the caller's tensors, and makes the
      same foreign calls, apart from the kernels that now do what functional calls did. */
  lemma {:induction false} RewritePreservesMeaning(C: Context, P: Pass, kernels: set<string>, fn: Func, bound: nat,
                                                   next: nat, st: TState)
    requires Sane(fn, bound) && bound <= next && !P.Placing? && AtStart(fn, st)
    requires Traceless(C, kernels)
    requires forall op :: Selected(P, op) ==>
      P.kernelOf(op).value in kernels && Implements(C, op.fn, P.kernelOf(op).value)
    requires ExecOps(C, fn.body, st).Some?
    ensures var m, fn' := FinalMap(P, fn, next), RwFunc(P, fn, next);
      var r, run' := ExecOps(C, fn.body, st).value, ExecOps(C, fn'.body, st);
      run'.Some? && |fn'.ret| == |fn.ret| && Others(kernels, run'.value.hist) == Others(kernels, r.hist) &&
      (forall n: nat, b: int :: run'.value.mem(External(n), b) == r.mem(External(n), b)) &&
      forall k :: 0 <= k < |fn.ret| ==> SameResult(m, fn.ret[k], fn'.ret[k], r, run'.value)
  {
    hide Sane, ExecOps, RwOps, Traceless, FitsOps, Others, Selected, Implements, Apart, Stay, RenameOps, TargetOps,
         AtStart;
    var S := Setting(P, kernels, FinalMap(P, fn, next), bound);
    FinalMapIs(P, fn, bound, next);
    OutputIs(P, fn, bound, next);
    ParamsStay(fn, bound, S.m);
    StartsAlike(S, fn, st);
    OpsRn(C, S, fn.body, st, st);
    var r, r' := ExecOps(C, fn.body, st).value, ExecOps(C, RwFunc(P, fn, next).body, st).value;
    ResultsAlike(S, fn.ret, r, r');
  }

  lemma ParamsStay(fn: Func, bound: nat, m: Sub)
    requires Sane(fn, bound) && m.Keys == IdsIn(OpsNodes(fn.body))
    ensures forall id <- fn.params :: id < bound && Rn(m, id) == id
  {
    hide VerifiedFunc, UniqueResults, OldOps, AllLoopsApart;
  }

  lemma ResultsAlike(S: Setting, vs: seq<Value>, r: TState, r': TState)
    requires StateRn(S, r, r') && Stay(S.m, vs)
    ensures forall k :: 0 <= k < |vs| ==> SameResult(S.m, vs[k], Svs(S.m, vs)[k], r, r')
    ensures forall n: nat, b: int :: r'.mem(External(n), b) == r.mem(External(n), b)
  {
    hide EnvRn, MemRn, Read;
    forall k | 0 <= k < |vs| && EvalV(vs[k], r.env).Some? ensures SameResult(S.m, vs[k], Svs(S.m, vs)[k], r, r') {
      assert vs[k] in vs;
      EvalRn(S.m, S.bound, r.env, r'.env, vs[k]);
      RnTensors(S.m, S.bound, EvalV(vs[k], r.env).value);
      ReadRn(S.m, S.bound, r.mem, r'.mem, Tensors(EvalV(vs[k], r.env).value));
      ReadsSame(S, Tensors(EvalV(vs[k], r.env).value), r.mem, r'.mem);
    }
    forall n: nat, b: int ensures r'.mem(External(n), b) == r.mem(External(n), b) {
      ExternalSame(S, r.mem, r'.mem, n, b);
    }
  }

  lemma ExternalSame(S: Setting, mem: Memory, mem': Memory, n: nat, b: int)
    requires MemRn(S.m, S.bound, mem, mem')
    ensures mem'(External(n), b) == mem(External(n), b)
  {
    assert StoreBelow(S.bound, External(n)) && RnStore(S.m, External(n)) == External(n);
  }

  lemma ReadsSame(S: Setting, ts: seq<TensorRef>, mem: Memory, mem': Memory)
    requires ReadAll(mem', RnTs(S.m, ts)) == ReadAll(mem, ts)
    ensures forall t <- ts :: Read(mem', RnT(S.m, t)) == Read(mem, t)
  {
    hide Read;
    forall t | t in ts ensures Read(mem', RnT(S.m, t)) == Read(mem, t) {
      var k :| 0 <= k < |ts| && ts[k] == t;
      assert ReadAll(mem', RnTs(S.m, ts))[k] == ReadAll(mem, ts)[k];
    }
  }
}

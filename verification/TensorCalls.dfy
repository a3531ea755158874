/** The program that placement returns is the one that code generation consumes.  Read as a structured program, whose
    foreign code runs the kernels on a memory of its own, it makes the same calls on the same bytes
    (python/devproc2/compiler/passes/lower_tensor_create_to_alloc.py, python/devproc2/compiler/passes/vm_codegen.py). */
module TensorCalls {
  import opened Bytecode
  import opened Runtime
  import opened Builtins
  import opened PrimExprs
  import opened IRValues
  import opened TensorIR
  import opened TensorSemantics
  import I = MemoryIR
  import opened Structured
  import opened EntryReads

  // ---------------------------------------------------------------- foreign code

  /** What foreign code remembers: the calls so far and the bytes of every storage, named by its handle. */
  datatype Outside = Outside(hist: History, mem: Memory)

  /** What the tensor IR leaves open: how many arguments of a kernel are inputs, which kind of callee it is, how it is
      launched, where devices are; and what foreign code does: the kernel, its memory at first, and the first handle
      it gives out. */
  datatype Link = Link(C: Context, arity: string -> nat, kind: string -> CalleeKind, launch: string -> seq<PrimExpr>,
                       device: string -> (int, int), base: nat, start: Outside)

  /** A value as foreign code sees it. */
  function AsT(x: Val): TVal {
    match x
    case VInt(i) => TScalar(Int(i))
    case VFloat(bits) => TScalar(Float(bits))
    case VBool(b) => TScalar(Bool(b))
    case VStr(s) => TScalar(Str(s))
    case VTuple(fields) => TTuple(AsTs(fields))
    case VStorage(handle, nbytes) => TStorage(External(handle), nbytes)
    case VTensor(VStorage(handle, nbytes), offset, shape, dtype) =>
      TTensor(TensorRef(External(handle), nbytes, offset, shape, dtype))
    case _ => TScalar(Null)
  }

  function AsTs(xs: seq<Val>): seq<TVal> {
    if xs == [] then [] else [AsT(xs[0])] + AsTs(xs[1..])
  }

  /** The call that a kernel gets: it sees what it reads and what it is to write. */
  function CallSeen(Z: Link, o: Outside, target: string, args: seq<Val>): CallEvent
    requires Z.arity(target) <= |args|
  {
    var vals := AsTs(args) + AsTs(args[Z.arity(target)..]);
    CallEvent(target, DescribeAll(vals), ReadAll(o.mem, AllTensors(vals)))
  }

  /** What one foreign call does; allocation leaves every byte as it is. */
  function Serve(Z: Link, o: Outside, e: Event): Option<Outside> {
    if e.name.Core? then Some(o)
    else if Z.arity(e.name.s) > |e.args| then None
    else
      var call := CallSeen(Z, o, e.name.s, e.args);
      var bytes := Z.C.kernel(o.hist, call);
      if bytes.None? then None
      else
        var outs := AllTensors(AsTs(e.args[Z.arity(e.name.s)..]));
        Some(Outside(o.hist + [call], WriteAll(o.mem, outs, bytes.value, 0)))
  }

  /** Foreign code's memory after the calls that were made; a call that raises changes nothing. */
  function After(Z: Link, w: World): Outside
    decreases |w|
  {
    if w == [] then Z.start
    else
      var o := After(Z, w[..|w| - 1]);
      var r := Serve(Z, o, w[|w| - 1]);
      if r.Some? then r.value else o
  }

  lemma {:induction false} AfterSnoc(Z: Link, w: World, e: Event)
    ensures After(Z, w + [e]) == if Serve(Z, After(Z, w), e).Some? then Serve(Z, After(Z, w), e).value else After(Z, w)
  {
    assert (w + [e])[..|w|] == w;
  }

  /** Foreign code that gives out storages under new handles and runs the kernels. */
  ghost predicate Serves(Z: Link, ext: Builtins.Foreign) {
    forall w: World, e: Event ::
      (e.name == Core(AllocStorage) && |e.args| > 0 && e.args[0].VInt? ==>
         ext(w, e) == Some(VStorage(Z.base + |w|, e.args[0].i))) &&
      (e.name.Named? ==> (ext(w, e).Some? <==> Serve(Z, After(Z, w), e).Some?))
  }

  /** There is such code for every kernel. */
  function Server(Z: Link): Builtins.Foreign {
    (w: World, e: Event) =>
      if e.name == Core(AllocStorage) && |e.args| > 0 && e.args[0].VInt? then Some(VStorage(Z.base + |w|, e.args[0].i))
      else if Serve(Z, After(Z, w), e).Some? then Some(VNull)
      else None
  }

  lemma ServerServes(Z: Link)
    ensures Serves(Z, Server(Z))
  {
    hide Serve, After;
  }

  // ---------------------------------------------------------------- values

  type Handles = map<Store, nat>

  function HandleOf(hs: Handles, s: Store): nat {
    if s in hs then hs[s] else 0
  }

  /** A value of a tensor program as a run-time value. */
  function Face(hs: Handles, v: TVal): Val {
    match v
    case TScalar(c) => Load(Cpp, c)
    case TTensor(t) => VTensor(VStorage(HandleOf(hs, t.store), t.nbytes), t.offset, t.shape, t.dtype)
    case TTuple(fields) => VTuple(Faces(hs, fields))
    case TStorage(s, n) => VStorage(HandleOf(hs, s), n)
  }

  function Faces(hs: Handles, vs: seq<TVal>): (xs: seq<Val>)
    ensures |xs| == |vs| && forall k :: 0 <= k < |vs| ==> xs[k] == Face(hs, vs[k])
  {
    if vs == [] then [] else [Face(hs, vs[0])] + Faces(hs, vs[1..])
  }

  /** Its storages have handles, and it holds no string, which the host would lose. */
  predicate Handled(hs: Handles, v: TVal) {
    match v
    case TScalar(c) => !c.Str?
    case TTensor(t) => t.store in hs
    case TTuple(fields) => AllHandled(hs, fields)
    case TStorage(s, _) => s in hs
  }

  predicate AllHandled(hs: Handles, vs: seq<TVal>) {
    vs == [] || (Handled(hs, vs[0]) && AllHandled(hs, vs[1..]))
  }

  lemma {:induction false} AllHandledAt(hs: Handles, vs: seq<TVal>)
    ensures AllHandled(hs, vs) <==> forall k :: 0 <= k < |vs| ==> Handled(hs, vs[k])
  {
    if vs != [] {
      AllHandledAt(hs, vs[1..]);
      assert forall k :: 1 <= k < |vs| ==> vs[k] == vs[1..][k - 1];
    }
  }

  function Outer(hs: Handles, t: TensorRef): TensorRef {
    t.(store := External(HandleOf(hs, t.store)))
  }

  function Outers(hs: Handles, ts: seq<TensorRef>): (us: seq<TensorRef>)
    ensures |us| == |ts| && forall k :: 0 <= k < |ts| ==> us[k] == Outer(hs, ts[k])
  {
    seq(|ts|, k requires 0 <= k < |ts| => Outer(hs, ts[k]))
  }

  /** Foreign code sees the same value, with storages under their handles. */
  lemma {:induction false} FaceSeen(hs: Handles, v: TVal)
    requires Handled(hs, v)
    ensures Describe(AsT(Face(hs, v))) == Describe(v) && Tensors(AsT(Face(hs, v))) == Outers(hs, Tensors(v))
    ensures forall t <- Tensors(v) :: t.store in hs
    decreases v
  {
    if v.TTuple? { FacesSeen(hs, v.fields); }
  }

  lemma {:induction false} FacesSeen(hs: Handles, vs: seq<TVal>)
    requires AllHandled(hs, vs)
    ensures DescribeAll(AsTs(Faces(hs, vs))) == DescribeAll(vs)
    ensures AllTensors(AsTs(Faces(hs, vs))) == Outers(hs, AllTensors(vs))
    ensures forall t <- AllTensors(vs) :: t.store in hs
    decreases vs
  {
    if vs != [] {
      FaceSeen(hs, vs[0]);
      FacesSeen(hs, vs[1..]);
      assert Faces(hs, vs)[1..] == Faces(hs, vs[1..]);
    }
  }

  lemma {:induction false} FacesAppend(hs: Handles, a: seq<TVal>, b: seq<TVal>)
    ensures Faces(hs, a + b) == Faces(hs, a) + Faces(hs, b)
  {
  }

  lemma {:induction false} AsTsAppend(a: seq<Val>, b: seq<Val>)
    ensures AsTs(a + b) == AsTs(a) + AsTs(b)
  {
    if a == [] {
      assert a + b == b;
    } else {
      assert (a + b)[1..] == a[1..] + b;
      AsTsAppend(a[1..], b);
    }
  }

  // ---------------------------------------------------------------- bytes

  ghost predicate DistinctHandles(hs: Handles) {
    forall s <- hs, s' <- hs :: s != s' ==> hs[s] != hs[s']
  }

  /** Every storage has its bytes under its handle. */
  ghost predicate SameBytes(hs: Handles, mem: Memory, mem': Memory) {
    forall s <- hs, b: int :: mem'(External(hs[s]), b) == mem(s, b)
  }

  lemma {:induction false} ReadsSame(hs: Handles, mem: Memory, mem': Memory, ts: seq<TensorRef>)
    requires SameBytes(hs, mem, mem') && forall t <- ts :: t.store in hs
    ensures ReadAll(mem', Outers(hs, ts)) == ReadAll(mem, ts)
  {
    forall k | 0 <= k < |ts| ensures ReadAll(mem', Outers(hs, ts))[k] == ReadAll(mem, ts)[k] {
      assert ts[k] in ts;
    }
  }

  lemma {:induction false} WritesSame(hs: Handles, mem: Memory, mem': Memory, ts: seq<TensorRef>,
                                      bytes: (nat, nat) -> Option<int>, j: nat)
    requires SameBytes(hs, mem, mem') && DistinctHandles(hs) && j <= |ts| && forall t <- ts :: t.store in hs
    ensures SameBytes(hs, WriteAll(mem, ts, bytes, j), WriteAll(mem', Outers(hs, ts), bytes, j))
    decreases |ts| - j
  {
    if j < |ts| {
      assert ts[j] in ts;
      var row := Row(bytes, j);
      WritesSame(hs, WriteOne(mem, ts[j], row), WriteOne(mem', Outers(hs, ts)[j], row), ts, bytes, j + 1);
    }
  }

  // ---------------------------------------------------------------- one IR, two readings

  /** Ids bound by an op outside its regions, or for its region. */
  function Binders(op: Op): seq<nat> {
    Results(op) + if op.ForOp? then [op.loopVar] + Vars(op.iters) else []
  }

  predicate NoStrings(vs: seq<Value>) {
    forall v <- vs :: !(v.Imm? && v.c.Str?)
  }

  /** The launch sizes of a kernel are integers over the symbolic dimensions. */
  predicate Launches(Z: Link, target: string) {
    var sizes := EvalPrims(Cpp, Z.launch(target), Z.C.dims);
    sizes.Some? && AsInts(Cpp, sizes.value).Some?
  }

  predicate Narrow(d: DType) {
    0 <= d.code < 256 && 0 <= d.bits < 256 && 0 <= d.lanes < 65536
  }

  /** Placed code without storages of its own: nothing rebinds a symbolic dimension, element types fit their fields,
      calls write their outputs, read their inputs and have sizes to be launched with, and tuples hold no scalars,
        which the host refuses; `objs`
      are ids that never stand for a scalar. */
  predicate Plain(Z: Link, objs: set<nat>, op: Op)
    decreases op, 1
  {
    (forall id <- Binders(op) :: id !in Z.C.dims) && NoStrings(Operands(op)) &&
    match op
    case ComputeOp(_, _, _, _, _) => false
    case CreateOp(_, _, _, _, _) => false
    case StorageOp(_, _, _) => false
    case PlaceOp(_, _, _, dtype) => Narrow(dtype)
    case ViewOp(_, _, _, _, _, _) => true
    case CallOp(target, inputs, outputs, effect) =>
      effect.reading == [] && EffectOf(op).writing == outputs && |inputs| == Z.arity(target) && Launches(Z, target)
    case CheckOp(_, _, _) => true
    case TupleOp(_, elems) => forall v <- elems :: !v.Imm? && v.id in objs
    case ItemOp(res, _, _) => res !in objs
    case IfOp(results, _, thn, els) =>
      (forall id <- results :: id !in objs) && PlainRegion(Z, objs, thn) &&
      (els.Some? ==> PlainRegion(Z, objs, els.value))
    case ForOp(_, _, bounds, iters, body) =>
      |bounds| == 3 && |body.yielded| == |iters| && (forall id <- Binders(op) :: id !in objs) &&
      PlainRegion(Z, objs, body)
  }

  predicate PlainRegion(Z: Link, objs: set<nat>, r: Region)
    decreases r, 0
  {
    NoStrings(r.yielded) && PlainOps(Z, objs, r.ops)
  }

  predicate PlainOps(Z: Link, objs: set<nat>, ops: seq<Op>)
    decreases ops, 0
  {
    ops == [] || (Plain(Z, objs, ops[0]) && PlainOps(Z, objs, ops[1..]))
  }

  /** The op as code generation reads it. */
  function Emit(Z: Link, objs: set<nat>, op: Op): I.Op
    requires Plain(Z, objs, op)
    decreases op, 1
  {
    match op
    case PlaceOp(res, storage, shape, dtype) => I.AllocTensorOp(res, storage, 0, shape, dtype)
    case ViewOp(res, base, byteOffset, shape, stride, offset) =>
      I.TensorViewOp(res, base, byteOffset, shape, stride, offset)
    case CallOp(target, inputs, outputs, _) =>
      I.CallDPSOp(Z.kind(target), Named(target), inputs, outputs, Z.launch(target))
    case CheckOp(tensor, dim, upper) => I.ShapeAssertOp(tensor, dim, upper)
    case TupleOp(res, elems) => I.TupleOp(res, elems)
    case ItemOp(res, tup, index) => I.TupleGetItemOp(res, tup, index)
    case IfOp(results, cond, thn, els) =>
      I.IfOp(results, cond, EmitRegion(Z, objs, thn), if els.Some? then Some(EmitRegion(Z, objs, els.value)) else None)
    case ForOp(results, loopVar, bounds, iters, body) =>
      I.ForOp(results, loopVar, "", bounds[0], bounds[1], bounds[2], EmitIters(iters), EmitRegion(Z, objs, body))
  }

  function EmitIters(iters: seq<Carried>): (args: seq<I.IterArg>)
    ensures |args| == |iters| && I.IterVars(args) == Vars(iters) && I.IterInits(args) == Inits(iters)
  {
    seq(|iters|, k requires 0 <= k < |iters| => I.IterArg(iters[k].v, "", iters[k].init))
  }

  function EmitRegion(Z: Link, objs: set<nat>, r: Region): I.Block
    requires PlainRegion(Z, objs, r)
    decreases r, 0
  {
    I.Block(EmitOps(Z, objs, r.ops), r.yielded)
  }

  function EmitOps(Z: Link, objs: set<nat>, ops: seq<Op>): seq<I.Op>
    requires PlainOps(Z, objs, ops)
    decreases ops, 0
  {
    if ops == [] then [] else [Emit(Z, objs, ops[0])] + EmitOps(Z, objs, ops[1..])
  }

  // ---------------------------------------------------------------- states

  /** Every value under its id, every symbolic dimension under its own. */
  ghost predicate SameEnv(objs: set<nat>, hs: Handles, dims: Env, E: TEnv, F: Env) {
    (forall id <- E :: id in F && F[id] == Face(hs, E[id]) && Handled(hs, E[id]) && (id in objs ==> !E[id].TScalar?)) &&
    (forall id <- dims :: id in F && F[id] == dims[id])
  }

  ghost predicate SameState(Z: Link, objs: set<nat>, hs: Handles, st: TState, F: Env, w: World) {
    SameEnv(objs, hs, Z.C.dims, st.env, F) && SameBytes(hs, st.mem, After(Z, w).mem) && After(Z, w).hist == st.hist
  }

  lemma BindSame(objs: set<nat>, hs: Handles, dims: Env, E: TEnv, F: Env, id: nat, v: TVal)
    requires SameEnv(objs, hs, dims, E, F) && id !in dims && Handled(hs, v) && (id in objs ==> !v.TScalar?)
    ensures SameEnv(objs, hs, dims, E[id := v], F[id := Face(hs, v)])
  {
  }

  lemma {:induction false} BindAllSame(objs: set<nat>, hs: Handles, dims: Env, E: TEnv, F: Env, ids: seq<nat>,
                                       vals: seq<TVal>)
    requires SameEnv(objs, hs, dims, E, F) && |ids| == |vals| && AllHandled(hs, vals)
    requires forall id <- ids :: id !in dims && id !in objs
    ensures SameEnv(objs, hs, dims, BindVals(E, ids, vals), BindAll(F, ids, Faces(hs, vals)))
    decreases |ids|
  {
    hide SameEnv;
    if ids != [] {
      BindSame(objs, hs, dims, E, F, ids[0], vals[0]);
      BindAllSame(objs, hs, dims, E[ids[0] := vals[0]], F[ids[0] := Face(hs, vals[0])], ids[1..], vals[1..]);
      assert Faces(hs, vals)[1..] == Faces(hs, vals[1..]);
    }
  }

  lemma ValueSame(objs: set<nat>, hs: Handles, dims: Env, E: TEnv, F: Env, v: Value)
    requires SameEnv(objs, hs, dims, E, F) && EvalV(v, E).Some? && NoStrings([v])
    ensures EvalValue(Cpp, v, F) == Some(Face(hs, EvalV(v, E).value)) && Handled(hs, EvalV(v, E).value)
    ensures !v.Imm? && v.id in objs ==> !EvalV(v, E).value.TScalar?
  {
    assert v in [v];
  }

  lemma {:induction false} ValuesSame(objs: set<nat>, hs: Handles, dims: Env, E: TEnv, F: Env, vs: seq<Value>)
    requires SameEnv(objs, hs, dims, E, F) && EvalVs(vs, E).Some? && NoStrings(vs)
    ensures EvalValues(Cpp, vs, F) == Some(Faces(hs, EvalVs(vs, E).value)) && AllHandled(hs, EvalVs(vs, E).value)
  {
    hide SameEnv;
    if vs != [] {
      assert vs[0] in vs;
      ValueSame(objs, hs, dims, E, F, vs[0]);
      ValuesSame(objs, hs, dims, E, F, vs[1..]);
      assert Faces(hs, EvalVs(vs, E).value)[1..] == Faces(hs, EvalVs(vs[1..], E).value);
    }
  }

  /** Expressions over dimensions have the value they have among all ids. */
  lemma {:induction false} PrimMore(h: Host, e: PrimExpr, dims: Env, F: Env)
    requires EvalPrim(h, e, dims).Some? && forall id <- dims :: id in F && F[id] == dims[id]
    ensures EvalPrim(h, e, F) == EvalPrim(h, e, dims)
  {
    hide Arithmetic;
    if e.Bin? {
      PrimMore(h, e.lhs, dims, F);
      PrimMore(h, e.rhs, dims, F);
    }
  }

  lemma {:induction false} PrimsMore(h: Host, es: seq<PrimExpr>, dims: Env, F: Env)
    requires EvalPrims(h, es, dims).Some? && forall id <- dims :: id in F && F[id] == dims[id]
    ensures EvalPrims(h, es, F) == EvalPrims(h, es, dims)
  {
    hide EvalPrim;
    if es != [] {
      PrimMore(h, es[0], dims, F);
      PrimsMore(h, es[1..], dims, F);
    }
  }

  lemma ShapeSame(objs: set<nat>, hs: Handles, dims: Env, E: TEnv, F: Env, es: seq<PrimExpr>)
    requires SameEnv(objs, hs, dims, E, F) && EvalShape(Cpp, es, dims).Some?
    ensures EvalShape(Cpp, es, F) == EvalShape(Cpp, es, dims)
  {
    hide EvalPrims, Face, Handled;
    PrimsMore(Cpp, es, dims, F);
  }

  // ---------------------------------------------------------------- single ops

  lemma PureIs(M: Machine, b: CoreBuiltin, args: seq<Val>, w: World)
    requires Interpreted(M.host, b)
    ensures Pure(M, b, args, w) ==
      if CallBuiltin(M.host, b, args).Some? then Ok(CallBuiltin(M.host, b, args).value, w) else Raised(w)
  {
    hide CallBuiltin;
  }

  lemma DefineSame(Z: Link, objs: set<nat>, hs: Handles, st: TState, F: Env, w: World, id: nat, v: TVal)
    requires SameState(Z, objs, hs, st, F, w) && id !in Z.C.dims && Handled(hs, v) && (id in objs ==> !v.TScalar?)
    ensures SameState(Z, objs, hs, st.(env := st.env[id := v]), F[id := Face(hs, v)], w)
  {
    hide SameBytes, After;
  }

  lemma PlaceSame(Z: Link, M: Machine, objs: set<nat>, hs: Handles, op: Op, st: TState, F: Env, w: World)
    returns (F': Env)
    requires M.host == Z.C.host == Cpp && op.PlaceOp? && Plain(Z, objs, op) && Exec(Z.C, op, st).Some?
    requires SameState(Z, objs, hs, st, F, w)
    ensures EvalSimple(M, Emit(Z, objs, op), F, w) == Ok(F', w)
    ensures SameState(Z, objs, hs, Exec(Z.C, op, st).value, F', w)
  {
    hide SameEnv, After, SameBytes, Handled, AsInt, AsDims;
    var s, dims := EvalV(op.storage, st.env).value, EvalShape(Cpp, op.shape, Z.C.dims).value;
    assert op.storage in Operands(op) && op.res in Binders(op);
    ValueSame(objs, hs, Z.C.dims, st.env, F, op.storage);
    ShapeSame(objs, hs, Z.C.dims, st.env, F, op.shape);
    var v := TTensor(TensorRef(s.store, s.nbytes, 0, dims, op.dtype));
    var args := [Face(hs, s), VInt(0), VShape(dims), VInt(op.dtype.code), VInt(op.dtype.bits), VInt(op.dtype.lanes)];
    assert CallBuiltin(Cpp, AllocTensor, args) == Some(Face(hs, v)) by { PlacedTensor(hs, s, dims, op.dtype); }
    PureIs(M, AllocTensor, args, w);
    assert Handled(hs, v) by { HandledStorage(hs, s, v.t); }
    DefineSame(Z, objs, hs, st, F, w, op.res, v);
    F' := F[op.res := Face(hs, v)];
  }

  lemma HandledStorage(hs: Handles, s: TVal, t: TensorRef)
    requires s.TStorage? && Handled(hs, s) && t.store == s.store
    ensures Handled(hs, TTensor(t))
  {
  }

  lemma PlacedTensor(hs: Handles, s: TVal, dims: seq<int>, dtype: DType)
    requires s.TStorage? && Narrow(dtype)
    ensures CallBuiltin(Cpp, AllocTensor,
                        [Face(hs, s), VInt(0), VShape(dims), VInt(dtype.code), VInt(dtype.bits), VInt(dtype.lanes)]) ==
            Some(Face(hs, TTensor(TensorRef(s.store, s.nbytes, 0, dims, dtype))))
  {
  }

  lemma ViewSame(Z: Link, M: Machine, objs: set<nat>, hs: Handles, op: Op, st: TState, F: Env, w: World)
    returns (F': Env)
    requires M.host == Z.C.host == Cpp && op.ViewOp? && Plain(Z, objs, op) && Exec(Z.C, op, st).Some?
    requires SameState(Z, objs, hs, st, F, w)
    ensures EvalSimple(M, Emit(Z, objs, op), F, w) == Ok(F', w)
    ensures SameState(Z, objs, hs, Exec(Z.C, op, st).value, F', w)
  {
    hide SameEnv, After, SameBytes, Handled, ViewOf, View;
    var base, offset := EvalV(op.base, st.env).value, EvalV(op.byteOffset, st.env).value;
    var dims := EvalShape(Cpp, op.shape, Z.C.dims).value;
    assert op.base in Operands(op) && op.byteOffset in Operands(op) && op.res in Binders(op);
    ValueSame(objs, hs, Z.C.dims, st.env, F, op.base);
    ValueSame(objs, hs, Z.C.dims, st.env, F, op.byteOffset);
    ShapeSame(objs, hs, Z.C.dims, st.env, F, op.shape);
    var i := offset.c.i * op.byteStride + op.baseOffset;
    var v := TTensor(ViewOf(base.t, i, dims).value);
    assert ViewOffset(Cpp, VInt(offset.c.i), op.byteStride, op.baseOffset) == Some(VInt(i));
    assert CallBuiltin(Cpp, TensorView, [Face(hs, base), VInt(i), VShape(dims)]) == Some(Face(hs, v)) by {
      ViewedTensor(hs, base.t, i, dims);
    }
    PureIs(M, TensorView, [Face(hs, base), VInt(i), VShape(dims)], w);
    assert Handled(hs, v) by { ViewHandled(hs, base.t, i, dims); }
    DefineSame(Z, objs, hs, st, F, w, op.res, v);
    F' := F[op.res := Face(hs, v)];
  }

  lemma ViewedTensor(hs: Handles, t: TensorRef, i: int, dims: seq<int>)
    requires ViewOf(t, i, dims).Some?
    ensures View(Face(hs, TTensor(t)), i, dims) == Some(Face(hs, TTensor(ViewOf(t, i, dims).value)))
  {
  }

  lemma ViewHandled(hs: Handles, t: TensorRef, i: int, dims: seq<int>)
    requires ViewOf(t, i, dims).Some? && Handled(hs, TTensor(t))
    ensures Handled(hs, TTensor(ViewOf(t, i, dims).value))
  {
  }

  lemma CheckSame(Z: Link, M: Machine, objs: set<nat>, hs: Handles, op: Op, st: TState, F: Env, w: World)
    requires M.host == Z.C.host == Cpp && op.CheckOp? && Plain(Z, objs, op) && Exec(Z.C, op, st).Some?
    requires SameState(Z, objs, hs, st, F, w)
    ensures EvalSimple(M, Emit(Z, objs, op), F, w) == Ok(F, w) && Exec(Z.C, op, st).value == st
  {
    hide SameEnv, After, SameBytes, Handled;
    assert op.tensor in Operands(op);
    ValueSame(objs, hs, Z.C.dims, st.env, F, op.tensor);
    PureIs(M, ShapeAssert, [Face(hs, EvalV(op.tensor, st.env).value), VInt(op.dim), VInt(op.upper)], w);
  }

  lemma ElementsAreObjects(objs: set<nat>, hs: Handles, dims: Env, E: TEnv, F: Env, elems: seq<Value>)
    requires SameEnv(objs, hs, dims, E, F) && EvalVs(elems, E).Some? && NoStrings(elems)
    requires forall v <- elems :: !v.Imm? && v.id in objs
    ensures forall x <- Faces(hs, EvalVs(elems, E).value) :: IsObject(x)
  {
    hide SameEnv;
    var vals := EvalVs(elems, E).value;
    forall k | 0 <= k < |vals| ensures IsObject(Face(hs, vals[k])) {
      assert elems[k] in elems && EvalV(elems[k], E) == Some(vals[k]);
      ValueSame(objs, hs, dims, E, F, elems[k]);
    }
  }

  lemma TupleSame(Z: Link, M: Machine, objs: set<nat>, hs: Handles, op: Op, st: TState, F: Env, w: World)
    returns (F': Env)
    requires M.host == Z.C.host == Cpp && op.TupleOp? && Plain(Z, objs, op) && Exec(Z.C, op, st).Some?
    requires SameState(Z, objs, hs, st, F, w)
    ensures EvalSimple(M, Emit(Z, objs, op), F, w) == Ok(F', w)
    ensures SameState(Z, objs, hs, Exec(Z.C, op, st).value, F', w)
  {
    hide SameEnv, After, SameBytes, AllHandled, EvalValues, Dispatch, EvalVs, Faces;
    var vals := EvalVs(op.elems, st.env).value;
    ValuesSame(objs, hs, Z.C.dims, st.env, F, op.elems);
    assert op.res in Binders(op);
    ElementsAreObjects(objs, hs, Z.C.dims, st.env, F, op.elems);
    PureIs(M, MakeTuple, Faces(hs, vals), w);
    assert Handled(hs, TTuple(vals));
    DefineSame(Z, objs, hs, st, F, w, op.res, TTuple(vals));
    F' := F[op.res := Face(hs, TTuple(vals))];
  }

  lemma ItemSame(Z: Link, M: Machine, objs: set<nat>, hs: Handles, op: Op, st: TState, F: Env, w: World)
    returns (F': Env)
    requires M.host == Z.C.host == Cpp && op.ItemOp? && Plain(Z, objs, op) && Exec(Z.C, op, st).Some?
    requires SameState(Z, objs, hs, st, F, w)
    ensures EvalSimple(M, Emit(Z, objs, op), F, w) == Ok(F', w)
    ensures SameState(Z, objs, hs, Exec(Z.C, op, st).value, F', w)
  {
    hide SameEnv, After, SameBytes, AllHandled, Dispatch, AsT;
    var tup := EvalV(op.tup, st.env).value;
    assert op.tup in Operands(op) && op.res in Binders(op);
    ValueSame(objs, hs, Z.C.dims, st.env, F, op.tup);
    var v := tup.fields[op.index];
    assert CallBuiltin(Cpp, TupleGetItem, [Face(hs, tup), VInt(op.index)]) == Some(Face(hs, v));
    PureIs(M, TupleGetItem, [Face(hs, tup), VInt(op.index)], w);
    assert Handled(hs, v) by { AllHandledAt(hs, tup.fields); }
    DefineSame(Z, objs, hs, st, F, w, op.res, v);
    F' := F[op.res := Face(hs, v)];
  }

  // ---------------------------------------------------------------- and fail together

  /** Operands and dimensions have values. */
  predicate Evaluates(Z: Link, op: Op, st: TState) {
    (forall v <- Operands(op) :: EvalV(v, st.env).Some?) &&
    (op.PlaceOp? || op.ViewOp? ==> EvalShape(Cpp, op.shape, Z.C.dims).Some?)
  }

  lemma PlaceBack(Z: Link, M: Machine, objs: set<nat>, hs: Handles, op: Op, st: TState, F: Env, w: World)
    requires M.host == Z.C.host == Cpp && op.PlaceOp? && Plain(Z, objs, op) && Evaluates(Z, op, st)
    requires SameState(Z, objs, hs, st, F, w) && EvalSimple(M, Emit(Z, objs, op), F, w).Ok?
    ensures Exec(Z.C, op, st).Some?
  {
    hide SameEnv, After, SameBytes, Handled, AsInt, AsDims;
    assert op.storage in Operands(op);
    var s := EvalV(op.storage, st.env).value;
    ValueSame(objs, hs, Z.C.dims, st.env, F, op.storage);
    ShapeSame(objs, hs, Z.C.dims, st.env, F, op.shape);
    var dims := EvalShape(Cpp, op.shape, F).value;
    var args := [Face(hs, s), VInt(0), VShape(dims), VInt(op.dtype.code), VInt(op.dtype.bits), VInt(op.dtype.lanes)];
    PureIs(M, AllocTensor, args, w);
    assert Face(hs, s).VStorage? by { NotStored(args); }
  }

  lemma NotStored(args: seq<Val>)
    requires |args| == 6 && CallBuiltin(Cpp, AllocTensor, args).Some?
    ensures args[0].VStorage?
  {
  }

  lemma ViewBack(Z: Link, M: Machine, objs: set<nat>, hs: Handles, op: Op, st: TState, F: Env, w: World)
    requires M.host == Z.C.host == Cpp && op.ViewOp? && Plain(Z, objs, op) && Evaluates(Z, op, st)
    requires SameState(Z, objs, hs, st, F, w) && EvalSimple(M, Emit(Z, objs, op), F, w).Ok?
    ensures Exec(Z.C, op, st).Some?
  {
    hide SameEnv, After, SameBytes, Handled, ViewOf, View;
    assert op.base in Operands(op) && op.byteOffset in Operands(op);
    var base, offset := EvalV(op.base, st.env).value, EvalV(op.byteOffset, st.env).value;
    ValueSame(objs, hs, Z.C.dims, st.env, F, op.base);
    ValueSame(objs, hs, Z.C.dims, st.env, F, op.byteOffset);
    ShapeSame(objs, hs, Z.C.dims, st.env, F, op.shape);
    var dims := EvalShape(Cpp, op.shape, F).value;
    var off := ViewOffset(Cpp, Face(hs, offset), op.byteStride, op.baseOffset);
    PureIs(M, TensorView, [Face(hs, base), off.value, VShape(dims)], w);
    var x := off.value;
    assert AsInt(Cpp, x).Some? && View(Face(hs, base), AsInt(Cpp, x).value, dims).Some?;
    ViewedBack(hs, base, AsInt(Cpp, x).value, dims);
    assert x == VInt(offset.c.i * op.byteStride + op.baseOffset);
  }

  lemma ViewedBack(hs: Handles, base: TVal, i: int, dims: seq<int>)
    requires View(Face(hs, base), i, dims).Some?
    ensures base.TTensor? && ViewOf(base.t, i, dims).Some?
  {
  }

  lemma CheckBack(Z: Link, M: Machine, objs: set<nat>, hs: Handles, op: Op, st: TState, F: Env, w: World)
    requires M.host == Z.C.host == Cpp && op.CheckOp? && Plain(Z, objs, op) && Evaluates(Z, op, st)
    requires SameState(Z, objs, hs, st, F, w) && EvalSimple(M, Emit(Z, objs, op), F, w).Ok?
    ensures Exec(Z.C, op, st).Some?
  {
    hide SameEnv, After, SameBytes, Handled;
    assert op.tensor in Operands(op);
    ValueSame(objs, hs, Z.C.dims, st.env, F, op.tensor);
    PureIs(M, ShapeAssert, [Face(hs, EvalV(op.tensor, st.env).value), VInt(op.dim), VInt(op.upper)], w);
  }

  lemma ItemBack(Z: Link, M: Machine, objs: set<nat>, hs: Handles, op: Op, st: TState, F: Env, w: World)
    requires M.host == Z.C.host == Cpp && op.ItemOp? && Plain(Z, objs, op) && Evaluates(Z, op, st)
    requires SameState(Z, objs, hs, st, F, w) && EvalSimple(M, Emit(Z, objs, op), F, w).Ok?
    ensures Exec(Z.C, op, st).Some?
  {
    hide SameEnv, After, SameBytes, AllHandled, Dispatch, AsT;
    assert op.tup in Operands(op);
    var tup := EvalV(op.tup, st.env).value;
    ValueSame(objs, hs, Z.C.dims, st.env, F, op.tup);
    PureIs(M, TupleGetItem, [Face(hs, tup), VInt(op.index)], w);
  }

  /** An op that asks the host only runs in the tensor program exactly when the host accepts it. */
  lemma LeavesFailTogether(Z: Link, M: Machine, objs: set<nat>, hs: Handles, op: Op, st: TState, F: Env, w: World)
    requires M.host == Z.C.host == Cpp && (op.PlaceOp? || op.ViewOp? || op.CheckOp? || op.ItemOp?)
    requires Plain(Z, objs, op) && Evaluates(Z, op, st) && SameState(Z, objs, hs, st, F, w)
    ensures Exec(Z.C, op, st).Some? <==> EvalSimple(M, Emit(Z, objs, op), F, w).Ok?
  {
    hide SameState, Exec, EvalSimple, Evaluates;
    var runs, ok := Exec(Z.C, op, st).Some?, EvalSimple(M, Emit(Z, objs, op), F, w).Ok?;
    match op
    case PlaceOp(_, _, _, _) =>
      if runs { var F' := PlaceSame(Z, M, objs, hs, op, st, F, w); }
      if ok { PlaceBack(Z, M, objs, hs, op, st, F, w); }
    case ViewOp(_, _, _, _, _, _) =>
      if runs { var F' := ViewSame(Z, M, objs, hs, op, st, F, w); }
      if ok { ViewBack(Z, M, objs, hs, op, st, F, w); }
    case CheckOp(_, _, _) =>
      if runs { CheckSame(Z, M, objs, hs, op, st, F, w); }
      if ok { CheckBack(Z, M, objs, hs, op, st, F, w); }
    case ItemOp(_, _, _) =>
      if runs { var F' := ItemSame(Z, M, objs, hs, op, st, F, w); }
      if ok { ItemBack(Z, M, objs, hs, op, st, F, w); }
  }

  /** Foreign code gets the very call that the tensor program makes. */
  lemma CallSeenSame(Z: Link, hs: Handles, o: Outside, mem: Memory, target: string, ins: seq<TVal>, outs: seq<TVal>)
    requires AllHandled(hs, ins + outs + outs) && SameBytes(hs, mem, o.mem) && |ins| == Z.arity(target)
    ensures var vals := ins + outs + outs;
      CallSeen(Z, o, target, Faces(hs, ins) + Faces(hs, outs)) ==
      CallEvent(target, DescribeAll(vals), ReadAll(mem, AllTensors(vals)))
  {
    hide SameBytes, ReadAll, DescribeAll, AllTensors, AsTs, AllHandled;
    var vals, args := ins + outs + outs, Faces(hs, ins) + Faces(hs, outs);
    assert args[|ins|..] == Faces(hs, outs);
    FacesAppend(hs, ins, outs);
    FacesAppend(hs, ins + outs, outs);
    AsTsAppend(args, Faces(hs, outs));
    FacesSeen(hs, vals);
    ReadsSame(hs, mem, o.mem, AllTensors(vals));
  }

  /** What foreign code does to its memory is what the call does to the program's. */
  lemma ServeSame(Z: Link, hs: Handles, o: Outside, st: TState, op: Op, ins: seq<TVal>, outs: seq<TVal>,
                  launch: seq<int>)
    requires op.CallOp? && |ins| == Z.arity(op.target) && AllHandled(hs, ins + outs + outs) && AllHandled(hs, outs)
    requires DistinctHandles(hs) && SameBytes(hs, st.mem, o.mem) && o.hist == st.hist
    requires var call := CallEvent(op.target, DescribeAll(ins + outs + outs),
                                   ReadAll(st.mem, AllTensors(ins + outs + outs)));
      Z.C.kernel(st.hist, call).Some?
    ensures var call := CallEvent(op.target, DescribeAll(ins + outs + outs),
                                  ReadAll(st.mem, AllTensors(ins + outs + outs)));
      var r := Serve(Z, o, Event(Z.kind(op.target), Named(op.target), Faces(hs, ins) + Faces(hs, outs), launch));
      r.Some? && r.value.hist == st.hist + [call] &&
      SameBytes(hs, WriteAll(st.mem, AllTensors(outs), Z.C.kernel(st.hist, call).value, 0), r.value.mem)
  {
    hide SameBytes, ReadAll, DescribeAll, AllTensors, AsTs, AllHandled, DistinctHandles, WriteAll, CallSeen;
    CallSeenSame(Z, hs, o, st.mem, op.target, ins, outs);
    FacesSeen(hs, outs);
    var args := Faces(hs, ins) + Faces(hs, outs);
    assert args[|ins|..] == Faces(hs, outs);
    var call := CallEvent(op.target, DescribeAll(ins + outs + outs), ReadAll(st.mem, AllTensors(ins + outs + outs)));
    WritesSame(hs, st.mem, o.mem, AllTensors(outs), Z.C.kernel(st.hist, call).value, 0);
  }

  /** The values that a call is about. */
  lemma CallValues(Z: Link, objs: set<nat>, op: Op, st: TState) returns (ins: seq<TVal>, outs: seq<TVal>)
    requires op.CallOp? && Plain(Z, objs, op) && Exec(Z.C, op, st).Some?
    ensures EvalVs(op.inputs, st.env) == Some(ins) && EvalVs(op.outputs, st.env) == Some(outs)
    ensures var call := CallEvent(op.target, DescribeAll(ins + outs + outs),
                                  ReadAll(st.mem, AllTensors(ins + outs + outs)));
      Z.C.kernel(st.hist, call).Some? &&
      Exec(Z.C, op, st).value == st.(mem := WriteAll(st.mem, AllTensors(outs), Z.C.kernel(st.hist, call).value, 0),
                                     hist := st.hist + [call])
  {
    hide ReadAll, DescribeAll, AllTensors, WriteAll, EvalVs;
    var effect := EffectOf(op);
    assert effect.reading == [] && effect.writing == op.outputs;
    assert Operands(op) + effect.reading + effect.writing == op.inputs + op.outputs + op.outputs;
    EvalSplit(op.inputs + op.outputs, op.outputs, st.env);
    EvalSplit(op.inputs, op.outputs, st.env);
    ins, outs := EvalVs(op.inputs, st.env).value, EvalVs(op.outputs, st.env).value;
  }

  lemma CallParts(Z: Link, objs: set<nat>, op: Op)
    requires op.CallOp? && Plain(Z, objs, op)
    ensures NoStrings(op.inputs) && NoStrings(op.outputs) && |op.inputs| == Z.arity(op.target) && Launches(Z, op.target)
    ensures Emit(Z, objs, op) ==
            I.CallDPSOp(Z.kind(op.target), Named(op.target), op.inputs, op.outputs, Z.launch(op.target))
  {
    hide Launches;
    assert forall v <- op.inputs :: v in Operands(op);
    assert forall v <- op.outputs :: v in Operands(op);
  }

  lemma LaunchSame(Z: Link, objs: set<nat>, hs: Handles, E: TEnv, F: Env, target: string) returns (sizes: seq<int>)
    requires SameEnv(objs, hs, Z.C.dims, E, F) && Launches(Z, target)
    ensures EvalPrims(Cpp, Z.launch(target), F).Some?
    ensures LaunchArgs(Cpp, EvalPrims(Cpp, Z.launch(target), F).value) == Some(sizes)
  {
    hide Face, Handled;
    PrimsMore(Cpp, Z.launch(target), Z.C.dims, F);
    sizes := AsInts(Cpp, EvalPrims(Cpp, Z.launch(target), F).value).value;
  }

  lemma CallSame(Z: Link, M: Machine, objs: set<nat>, hs: Handles, op: Op, st: TState, F: Env, w: World)
    returns (w': World)
    requires M.host == Z.C.host == Cpp && op.CallOp? && Plain(Z, objs, op) && Exec(Z.C, op, st).Some?
    requires SameState(Z, objs, hs, st, F, w) && DistinctHandles(hs) && Serves(Z, M.ext)
    ensures EvalSimple(M, Emit(Z, objs, op), F, w) == Ok(F, w')
    ensures SameState(Z, objs, hs, Exec(Z.C, op, st).value, F, w')
  {
    hide After, SameBytes, DistinctHandles, Serve, AllHandled, EvalVs, Exec, AllTensors, DescribeAll, ReadAll, WriteAll,
         SameEnv, LaunchArgs, EvalPrims, EvalValues, Launches;
    hide Plain, Emit;
    var ins, outs := CallValues(Z, objs, op, st);
    CallParts(Z, objs, op);
    ValuesSame(objs, hs, Z.C.dims, st.env, F, op.inputs);
    ValuesSame(objs, hs, Z.C.dims, st.env, F, op.outputs);
    AllHandledAppend(hs, ins, outs);
    AllHandledAppend(hs, ins + outs, outs);
    assert |ins| == |op.inputs|;
    var sizes := LaunchSame(Z, objs, hs, st.env, F, op.target);
    ServeSame(Z, hs, After(Z, w), st, op, ins, outs, sizes);
    var e := Event(Z.kind(op.target), Named(op.target), Faces(hs, ins) + Faces(hs, outs), sizes);
    w' := w + [e];
    AfterSnoc(Z, w, e);
    assert M.ext(w, e).Some?;
  }

  lemma {:induction false} AllHandledAppend(hs: Handles, a: seq<TVal>, b: seq<TVal>)
    requires AllHandled(hs, a) && AllHandled(hs, b)
    ensures AllHandled(hs, a + b)
  {
    AllHandledAt(hs, a);
    AllHandledAt(hs, b);
    AllHandledAt(hs, a + b);
  }

  // ---------------------------------------------------------------- control flow

  ghost predicate Runs(Z: Link, M: Machine, hs: Handles) {
    M.host == Z.C.host == Cpp && DistinctHandles(hs) && Serves(Z, M.ext)
  }

  /** The structured ops run whenever the tensor ops do, with enough fuel, and end alike. */
  lemma {:induction false} OpSame(Z: Link, M: Machine, objs: set<nat>, hs: Handles, op: Op, st: TState, F: Env,
                                  w: World)
    returns (n: nat, F': Env, w': World)
    requires Runs(Z, M, hs) && Plain(Z, objs, op) && SameState(Z, objs, hs, st, F, w) && Exec(Z.C, op, st).Some?
    ensures SameState(Z, objs, hs, Exec(Z.C, op, st).value, F', w')
    ensures forall fuel: nat :: n <= fuel ==> EvalOp(M, Emit(Z, objs, op), F, w, fuel) == Ok(F', w')
    decreases op, 2, 0
  {
    if op.IfOp? {
      n, F', w' := IfSame(Z, M, objs, hs, op, st, F, w);
    } else if op.ForOp? {
      n, F', w' := ForSame(Z, M, objs, hs, op, st, F, w);
    } else {
      F', w' := LeafSame(Z, M, objs, hs, op, st, F, w);
      n := 0;
    }
  }

  lemma {:induction false} LeafSame(Z: Link, M: Machine, objs: set<nat>, hs: Handles, op: Op, st: TState, F: Env,
                                    w: World)
    returns (F': Env, w': World)
    requires Runs(Z, M, hs) && Plain(Z, objs, op) && SameState(Z, objs, hs, st, F, w) && Exec(Z.C, op, st).Some?
    requires !op.IfOp? && !op.ForOp?
    ensures SameState(Z, objs, hs, Exec(Z.C, op, st).value, F', w')
    ensures var op' := Emit(Z, objs, op);
      !op'.IfOp? && !op'.ForOp? && forall fuel: nat :: EvalOp(M, op', F, w, fuel) == Ok(F', w')
  {
    hide SameState, Exec, DistinctHandles, Serves, EvalSimple;
    F', w' := F, w;
    match op
    case PlaceOp(_, _, _, _) => F' := PlaceSame(Z, M, objs, hs, op, st, F, w);
    case ViewOp(_, _, _, _, _, _) => F' := ViewSame(Z, M, objs, hs, op, st, F, w);
    case CallOp(_, _, _, _) => w' := CallSame(Z, M, objs, hs, op, st, F, w);
    case CheckOp(_, _, _) => CheckSame(Z, M, objs, hs, op, st, F, w);
    case TupleOp(_, _) => F' := TupleSame(Z, M, objs, hs, op, st, F, w);
    case ItemOp(_, _, _) => F' := ItemSame(Z, M, objs, hs, op, st, F, w);
  }

  lemma {:induction false} OpsSame(Z: Link, M: Machine, objs: set<nat>, hs: Handles, ops: seq<Op>, st: TState, F: Env,
                                   w: World)
    returns (n: nat, F': Env, w': World)
    requires Runs(Z, M, hs) && PlainOps(Z, objs, ops) && SameState(Z, objs, hs, st, F, w)
    requires ExecOps(Z.C, ops, st).Some?
    ensures SameState(Z, objs, hs, ExecOps(Z.C, ops, st).value, F', w')
    ensures forall fuel: nat :: n <= fuel ==> EvalOps(M, EmitOps(Z, objs, ops), F, w, fuel) == Ok(F', w')
    decreases ops, 0, 0
  {
    hide Runs, SameState, Plain, Exec, EvalOp, Emit;
    n, F', w' := 0, F, w;
    if ops != [] {
      var n1, F1, w1 := OpSame(Z, M, objs, hs, ops[0], st, F, w);
      var n2, F2, w2 := OpsSame(Z, M, objs, hs, ops[1..], Exec(Z.C, ops[0], st).value, F1, w1);
      n, F', w' := n1 + n2, F2, w2;
      forall fuel: nat | n <= fuel ensures EvalOps(M, EmitOps(Z, objs, ops), F, w, fuel) == Ok(F', w') {
        assert EvalOp(M, Emit(Z, objs, ops[0]), F, w, fuel) == Ok(F1, w1);
        assert EmitOps(Z, objs, ops)[1..] == EmitOps(Z, objs, ops[1..]);
        assert EvalOps(M, EmitOps(Z, objs, ops[1..]), F1, w1, fuel) == Ok(F2, w2);
      }
    }
  }

  /** A region yields the faces of what it yields in the tensor program. */
  lemma {:induction false} RegionSame(Z: Link, M: Machine, objs: set<nat>, hs: Handles, r: Region, st: TState, F: Env,
                                      w: World)
    returns (n: nat, vals: seq<TVal>, w': World)
    requires Runs(Z, M, hs) && PlainRegion(Z, objs, r) && SameState(Z, objs, hs, st, F, w)
    requires ExecOps(Z.C, r.ops, st).Some? && EvalVs(r.yielded, ExecOps(Z.C, r.ops, st).value.env).Some?
    ensures vals == EvalVs(r.yielded, ExecOps(Z.C, r.ops, st).value.env).value && AllHandled(hs, vals)
    ensures SameBytes(hs, ExecOps(Z.C, r.ops, st).value.mem, After(Z, w').mem)
    ensures After(Z, w').hist == ExecOps(Z.C, r.ops, st).value.hist
    ensures forall fuel: nat :: n <= fuel ==>
      EvalBlock(M, EmitRegion(Z, objs, r), F, w, fuel) == Ok(Faces(hs, vals), w')
    decreases r, 0, 0
  {
    hide DistinctHandles, Serves, PlainOps, ExecOps, EmitOps, EvalOps, SameBytes, After, AllHandled, SameEnv, NoStrings;
    var F';
    n, F', w' := OpsSame(Z, M, objs, hs, r.ops, st, F, w);
    var inner := ExecOps(Z.C, r.ops, st).value;
    vals := EvalVs(r.yielded, inner.env).value;
    ValuesSame(objs, hs, Z.C.dims, inner.env, F', r.yielded);
    forall fuel: nat | n <= fuel ensures EvalBlock(M, EmitRegion(Z, objs, r), F, w, fuel) == Ok(Faces(hs, vals), w') {
      assert EvalOps(M, EmitOps(Z, objs, r.ops), F, w, fuel) == Ok(F', w');
    }
  }

  lemma {:induction false} IfSame(Z: Link, M: Machine, objs: set<nat>, hs: Handles, op: Op, st: TState, F: Env,
                                  w: World)
    returns (n: nat, F': Env, w': World)
    requires Runs(Z, M, hs) && Plain(Z, objs, op) && SameState(Z, objs, hs, st, F, w) && Exec(Z.C, op, st).Some?
    requires op.IfOp?
    ensures SameState(Z, objs, hs, Exec(Z.C, op, st).value, F', w')
    ensures forall fuel: nat :: n <= fuel ==> EvalOp(M, Emit(Z, objs, op), F, w, fuel) == Ok(F', w')
    decreases op, 1, 0
  {
    hide DistinctHandles, Serves, PlainRegion, ExecOps, EvalBlock, EmitRegion, SameBytes, After, SameEnv;
    var c := EvalV(op.cond, st.env).value;
    assert op.cond in Operands(op);
    ValueSame(objs, hs, Z.C.dims, st.env, F, op.cond);
    n, F', w' := 0, F, w;
    if c.c.b {
      n, F', w' := BranchSame(Z, M, objs, hs, op, op.thn, st, F, w);
    } else if op.els.Some? {
      n, F', w' := BranchSame(Z, M, objs, hs, op, op.els.value, st, F, w);
    }
  }

  /** One branch and its results. */
  lemma {:induction false} BranchSame(Z: Link, M: Machine, objs: set<nat>, hs: Handles, op: Op, r: Region, st: TState,
                                      F: Env, w: World)
    returns (n: nat, F': Env, w': World)
    requires Runs(Z, M, hs) && op.IfOp? && Plain(Z, objs, op) && SameState(Z, objs, hs, st, F, w)
    requires PlainRegion(Z, objs, r) && ExecRegion(Z.C, r, op.results, st).Some?
    ensures SameState(Z, objs, hs, ExecRegion(Z.C, r, op.results, st).value, F', w')
    ensures forall fuel: nat :: n <= fuel ==>
      BindResults(F, op.results, EvalBlock(M, EmitRegion(Z, objs, r), F, w, fuel)) == Ok(F', w')
    decreases r, 1, 0
  {
    hide DistinctHandles, Serves, PlainRegion, ExecOps, EvalBlock, EmitRegion, SameBytes, After, SameEnv, AllHandled,
         EvalVs;
    var vals;
    n, vals, w' := RegionSame(Z, M, objs, hs, r, st, F, w);
    assert forall id <- op.results :: id in Binders(op);
    BindAllSame(objs, hs, Z.C.dims, st.env, F, op.results, vals);
    F' := BindAll(F, op.results, Faces(hs, vals));
  }

  lemma {:induction false} ForSame(Z: Link, M: Machine, objs: set<nat>, hs: Handles, op: Op, st: TState, F: Env,
                                   w: World)
    returns (n: nat, F': Env, w': World)
    requires Runs(Z, M, hs) && Plain(Z, objs, op) && SameState(Z, objs, hs, st, F, w) && Exec(Z.C, op, st).Some?
    requires op.ForOp?
    ensures SameState(Z, objs, hs, Exec(Z.C, op, st).value, F', w')
    ensures forall fuel: nat :: n <= fuel ==> EvalOp(M, Emit(Z, objs, op), F, w, fuel) == Ok(F', w')
    decreases op, 1, 0
  {
    hide Runs, PlainRegion, ExecLoop, EvalLoop, EmitRegion, SameBytes, After, SameEnv, AllHandled, EvalVs, EvalValues,
         LoopRange, EvalBound, Face, Faces, BindVals, BindAll;
    RunsHost(Z, M, hs);
    var range, inits := LoopRange(op.bounds, st.env).value, EvalVs(Inits(op.iters), st.env).value;
    BoundsSame(objs, hs, Z.C.dims, st.env, F, op.bounds);
    assert forall v <- Inits(op.iters) :: v in Operands(op);
    assert forall v <- op.bounds :: v in Operands(op);
    ValuesSame(objs, hs, Z.C.dims, st.env, F, Inits(op.iters));
    n, w' := LoopSame(Z, M, objs, hs, op, range, inits, 0, st, F, w);
    var (vals, after) := ExecLoop(Z.C, op, range, inits, 0, st).value;
    F' := if op.results == [] then F else BindAll(F, op.results, Faces(hs, vals));
    assert forall id <- op.results :: id in Binders(op);
    if op.results != [] { BindAllSame(objs, hs, Z.C.dims, st.env, F, op.results, vals); }
  }

  lemma BoundsSame(objs: set<nat>, hs: Handles, dims: Env, E: TEnv, F: Env, bounds: seq<Value>)
    requires SameEnv(objs, hs, dims, E, F) && LoopRange(bounds, E).Some? && NoStrings(bounds) && |bounds| == 3
    ensures var r := LoopRange(bounds, E).value;
      EvalBound(Cpp, bounds[0], F) == Some(VInt(r.start)) && EvalBound(Cpp, bounds[1], F) == Some(VInt(r.end)) &&
      EvalBound(Cpp, bounds[2], F) == Some(VInt(r.step))
  {
    hide SameEnv;
    forall k | 0 <= k < 3 ensures EvalBound(Cpp, bounds[k], F) == Some(Face(hs, EvalV(bounds[k], E).value)) {
      assert bounds[k] in bounds;
      ValueSame(objs, hs, dims, E, F, bounds[k]);
    }
  }

  lemma {:induction false} LoopSame(Z: Link, M: Machine, objs: set<nat>, hs: Handles, op: Op, range: Range,
                                    vals: seq<TVal>, k: nat, st: TState, F: Env, w: World)
    returns (n: nat, w': World)
    requires Runs(Z, M, hs) && op.ForOp? && Plain(Z, objs, op) && SameState(Z, objs, hs, st, F, w)
    requires |vals| == |op.iters| && AllHandled(hs, vals) && ExecLoop(Z.C, op, range, vals, k, st).Some?
    ensures var out := ExecLoop(Z.C, op, range, vals, k, st).value;
      AllHandled(hs, out.0) && SameBytes(hs, out.1.mem, After(Z, w').mem) && After(Z, w').hist == out.1.hist &&
      forall fuel: nat :: n <= fuel ==>
        EvalLoop(M, Emit(Z, objs, op), Count(VInt(range.start), VInt(range.end), VInt(range.step)), Faces(hs, vals), F,
                 w, fuel) == Ok(Faces(hs, out.0), w')
    decreases op, 0, if range.end >= range.start then range.end - range.start else 0
  {
    hide DistinctHandles, Serves, PlainRegion, ExecOps, EvalBlock, EvalLoop, EmitRegion, SameBytes, After, SameEnv,
         AllHandled,
         EvalVs;
    n, w' := 0, w;
    var op' := Emit(Z, objs, op);
    if range.start >= range.end {
      forall fuel: nat
        ensures EvalLoop(M, op', Count(VInt(range.start), VInt(range.end), VInt(range.step)), Faces(hs, vals), F, w,
                         fuel) == Ok(Faces(hs, vals), w)
      {
        LoopEnds(M, op', range, Faces(hs, vals), F, w, fuel);
      }
    } else {
      var x := range.start;
      var start := EnterBody(op, x, vals, k, st);
      EnterSame(Z, objs, hs, op, x, vals, k, st, F, w);
      var F1 := BindAll(F[op.loopVar := VInt(x)], Vars(op.iters), Faces(hs, vals));
      var n1, next, w1 := RegionSame(Z, M, objs, hs, op.body, start, F1, w);
      var inner := ExecOps(Z.C, op.body.ops, start).value;
      var more := range.(start := x + range.step);
      var n2, w2 := LoopSame(Z, M, objs, hs, op, more, next, k + 1, inner.(env := st.env, turn := st.turn), F, w1);
      n, w' := n1 + n2 + 1, w2;
      var out := ExecLoop(Z.C, op, range, vals, k, st).value;
      forall fuel: nat | n <= fuel
        ensures EvalLoop(M, op', Count(VInt(x), VInt(range.end), VInt(range.step)), Faces(hs, vals), F, w, fuel) ==
                Ok(Faces(hs, out.0), w')
      {
        assert EvalBlock(M, EmitRegion(Z, objs, op.body), F1, w, (fuel - 1) as nat) == Ok(Faces(hs, next), w1);
        assert EvalLoop(M, op', Count(VInt(more.start), VInt(range.end), VInt(range.step)), Faces(hs, next), F, w1,
                        (fuel - 1) as nat) == Ok(Faces(hs, out.0), w');
        LoopRound(M, op', range, Faces(hs, vals), F, w, Faces(hs, next), w1, fuel);
      }
    }
  }

  lemma LoopEnds(M: Machine, op: I.Op, range: Range, xs: seq<Val>, F: Env, w: World, fuel: nat)
    requires op.ForOp? && |xs| == |op.iters| && range.start >= range.end
    ensures EvalLoop(M, op, Count(VInt(range.start), VInt(range.end), VInt(range.step)), xs, F, w, fuel) == Ok(xs, w)
  {
  }

  lemma LoopRound(M: Machine, op: I.Op, range: Range, xs: seq<Val>, F: Env, w: World, ys: seq<Val>, w1: World,
                  fuel: nat)
    requires op.ForOp? && |xs| == |op.iters| && range.start < range.end && fuel > 0
    requires EvalBlock(M, op.body, BindAll(F[op.loopVar := VInt(range.start)], I.IterVars(op.iters), xs), w,
                       fuel - 1) == Ok(ys, w1)
    ensures EvalLoop(M, op, Count(VInt(range.start), VInt(range.end), VInt(range.step)), xs, F, w, fuel) ==
            EvalLoop(M, op, Count(VInt(range.start + range.step), VInt(range.end), VInt(range.step)), ys, F, w1,
                     fuel - 1)
  {
    hide EvalBlock;
  }

  /** The state that a round starts in. */
  lemma EnterSame(Z: Link, objs: set<nat>, hs: Handles, op: Op, x: int, vals: seq<TVal>, k: nat, st: TState, F: Env,
                  w: World)
    requires op.ForOp? && Plain(Z, objs, op) && SameState(Z, objs, hs, st, F, w)
    requires |vals| == |op.iters| && AllHandled(hs, vals)
    ensures SameState(Z, objs, hs, EnterBody(op, x, vals, k, st),
                      BindAll(F[op.loopVar := VInt(x)], Vars(op.iters), Faces(hs, vals)), w)
  {
    hide SameBytes, After, SameEnv, AllHandled, PlainRegion;
    var i := TScalar(Int(x));
    assert op.loopVar in Binders(op) && forall id <- Vars(op.iters) :: id in Binders(op);
    BindSame(objs, hs, Z.C.dims, st.env, F, op.loopVar, i);
    BindAllSame(objs, hs, Z.C.dims, st.env[op.loopVar := i], F[op.loopVar := VInt(x)], Vars(op.iters), vals);
  }

  // ---------------------------------------------------------------- storages

  predicate Storages(ops: seq<Op>) {
    forall op <- ops :: op.StorageOp?
  }

  function EmitStorages(Z: Link, ops: seq<Op>): seq<I.Op>
    requires Storages(ops)
  {
    if ops == [] then []
    else
      var d := Z.device(ops[0].device);
      [I.AllocStorageOp(ops[0].res, ops[0].size, 256, d.0, d.1)] + EmitStorages(Z, ops[1..])
  }

  /** Storages get the next handles in order. */
  function Allocated(hs: Handles, ops: seq<Op>, turn: seq<nat>, next: nat): Handles
    requires Storages(ops)
    decreases |ops|
  {
    if ops == [] then hs else Allocated(hs[Own(ops[0].res, turn) := next], ops[1..], turn, next + 1)
  }

  /** The storages are new, and the program finds in them what foreign code has under the next handles. */
  ghost predicate NewStorages(Z: Link, hs: Handles, ops: seq<Op>, st: TState, w: World)
    requires Storages(ops)
  {
    (forall i, j :: 0 <= i < j < |ops| ==> ops[i].res != ops[j].res) &&
    (forall i :: 0 <= i < |ops| ==> Own(ops[i].res, st.turn) !in hs && ops[i].res !in Z.C.dims) &&
    (forall s <- hs :: hs[s] < Z.base + |w|) &&
    forall i, b: int :: 0 <= i < |ops| ==>
      st.mem(Own(ops[i].res, st.turn), b) == After(Z, w).mem(External(Z.base + |w| + i), b)
  }

  lemma {:induction false} FaceMore(hs: Handles, s: Store, h: nat, v: TVal)
    requires Handled(hs, v) && s !in hs
    ensures Face(hs[s := h], v) == Face(hs, v) && Handled(hs[s := h], v)
    decreases v
  {
    if v.TTuple? { FacesMore(hs, s, h, v.fields); }
  }

  lemma {:induction false} FacesMore(hs: Handles, s: Store, h: nat, vs: seq<TVal>)
    requires AllHandled(hs, vs) && s !in hs
    ensures Faces(hs[s := h], vs) == Faces(hs, vs) && AllHandled(hs[s := h], vs)
    decreases vs
  {
    if vs != [] {
      FaceMore(hs, s, h, vs[0]);
      FacesMore(hs, s, h, vs[1..]);
    }
  }

  /** One storage more. */
  lemma StorageSame(Z: Link, M: Machine, objs: set<nat>, hs: Handles, op: Op, st: TState, F: Env, w: World)
    returns (F': Env, e: Event)
    requires Runs(Z, M, hs) && op.StorageOp? && SameState(Z, objs, hs, st, F, w) && Exec(Z.C, op, st).Some?
    requires NewStorages(Z, hs, [op], st, w)
    ensures EvalSimple(M, EmitStorages(Z, [op])[0], F, w) == Ok(F', w + [e]) && e.name == Core(AllocStorage)
    ensures var hs' := hs[Own(op.res, st.turn) := Z.base + |w|];
      Runs(Z, M, hs') && SameState(Z, objs, hs', Exec(Z.C, op, st).value, F', w + [e])
  {
    hide After, Handled, Face, AsT, Describe, Plain;
    var n, d := EvalSize(Z.C, op.size).value, Z.device(op.device);
    PrimMore(Cpp, op.size, Z.C.dims, F);
    e := Event(Builtin, Core(AllocStorage), [VInt(n), VInt(256), VInt(d.0), VInt(d.1)], []);
    assert M.ext(w, e) == Some(VStorage(Z.base + |w|, n));
    AfterSnoc(Z, w, e);
    var s := Own(op.res, st.turn);
    var hs' := hs[s := Z.base + |w|];
    var v := TStorage(s, n);
    F' := F[op.res := VStorage(Z.base + |w|, n)];
    assert Face(hs', v) == VStorage(Z.base + |w|, n) && Handled(hs', v) by { StorageFace(hs', s, n); }
    assert [op][0] == op && s !in hs;
    forall id | id in st.env ensures F[id] == Face(hs', st.env[id]) && Handled(hs', st.env[id]) {
      FaceMore(hs, s, Z.base + |w|, st.env[id]);
    }
  }

  lemma StorageFace(hs: Handles, s: Store, n: int)
    requires s in hs
    ensures Face(hs, TStorage(s, n)) == VStorage(hs[s], n) && Handled(hs, TStorage(s, n))
  {
  }

  lemma {:induction false} StoragesSame(Z: Link, M: Machine, objs: set<nat>, hs: Handles, ops: seq<Op>, st: TState,
                                        F: Env, w: World)
    returns (F': Env, w': World)
    requires Runs(Z, M, hs) && Storages(ops) && SameState(Z, objs, hs, st, F, w) && ExecOps(Z.C, ops, st).Some?
    requires NewStorages(Z, hs, ops, st, w)
    ensures var hs' := Allocated(hs, ops, st.turn, Z.base + |w|);
      Runs(Z, M, hs') && SameState(Z, objs, hs', ExecOps(Z.C, ops, st).value, F', w')
    ensures forall fuel: nat :: EvalOps(M, EmitStorages(Z, ops), F, w, fuel) == Ok(F', w')
    decreases |ops|
  {
    hide SameState, Runs, After, EvalSimple;
    F', w' := F, w;
    if ops != [] {
      var e;
      assert Storages([ops[0]]) && NewStorages(Z, hs, [ops[0]], st, w);
      F', e := StorageSame(Z, M, objs, hs, ops[0], st, F, w);
      var s, h := Own(ops[0].res, st.turn), Z.base + |w|;
      AfterSnoc(Z, w, e);
      MoreNewStorages(Z, hs, ops, st, Exec(Z.C, ops[0], st).value, w, e);
      var F1, w1 := F', w + [e];
      F', w' := StoragesSame(Z, M, objs, hs[s := h], ops[1..], Exec(Z.C, ops[0], st).value, F1, w1);
      forall fuel: nat ensures EvalOps(M, EmitStorages(Z, ops), F, w, fuel) == Ok(F', w') {
        assert EmitStorages(Z, ops)[1..] == EmitStorages(Z, ops[1..]);
        assert EvalOp(M, EmitStorages(Z, ops)[0], F, w, fuel) == Ok(F1, w1);
        assert EvalOps(M, EmitStorages(Z, ops[1..]), F1, w1, fuel) == Ok(F', w');
      }
    }
  }

  lemma MoreNewStorages(Z: Link, hs: Handles, ops: seq<Op>, st: TState, st': TState, w: World, e: Event)
    requires Storages(ops) && ops != [] && NewStorages(Z, hs, ops, st, w) && e.name.Core?
    requires st'.mem == st.mem && st'.turn == st.turn
    ensures NewStorages(Z, hs[Own(ops[0].res, st.turn) := Z.base + |w|], ops[1..], st', w + [e])
  {
    hide After;
    AfterSnoc(Z, w, e);
    var rest := ops[1..];
    forall i, b: int | 0 <= i < |rest|
      ensures st'.mem(Own(rest[i].res, st'.turn), b) == After(Z, w + [e]).mem(External(Z.base + |w + [e]| + i), b)
    {
      assert rest[i] == ops[i + 1];
      assert st.mem(Own(ops[i + 1].res, st.turn), b) == After(Z, w).mem(External(Z.base + |w| + (i + 1)), b);
    }
  }

  // ---------------------------------------------------------------- whole functions

  /** A function as code generation reads it: storages first, then the placed code. */
  ghost predicate Reads(Z: Link, objs: set<nat>, G: I.Function, storages: seq<Op>, rest: seq<Op>) {
    Storages(storages) && PlainOps(Z, objs, rest) && NoStrings(G.ret) &&
    G.body == EmitStorages(Z, storages) + EmitOps(Z, objs, rest)
  }

  /** The caller's values as arguments; the symbolic dimensions are read from them, and they are accepted. */
  ghost predicate Passed(Z: Link, objs: set<nat>, hs: Handles, params: seq<I.Param>, args: seq<Val>, E: TEnv) {
    |args| == |params| && I.Distinct(I.ParamIds(params)) &&
    (forall i: nat, j: nat :: i < |params| && j < |params| ==> !Mentions(params[i], params[j].id)) &&
    (forall id <- E :: id in I.ParamIds(params) && Handled(hs, E[id]) && (id in objs ==> !E[id].TScalar?)) &&
    (forall k :: 0 <= k < |params| && params[k].id in E ==> args[k] == Face(hs, E[params[k].id])) &&
    Accepted(params, args) && DimsGiven(params, args, Z.C.dims)
  }

  lemma EntrySame(Z: Link, objs: set<nat>, hs: Handles, params: seq<I.Param>, args: seq<Val>, E: TEnv)
    requires Passed(Z, objs, hs, params, args, E)
    ensures |args| == |params|
    ensures var entry := EvalSetup(Cpp, params, {}, BindAll(map[], I.ParamIds(params), args));
      entry.Some? && SameEnv(objs, hs, Z.C.dims, E, entry.value)
  {
    hide EvalSetup, Handled, Face, Mentions, Accepted, DimsGiven, ReadAt, HoldsDim, BindAll;
    var ids := I.ParamIds(params);
    EntryIsExact(Cpp, params, args);
    DimsAreRead(Cpp, params, args, Z.C.dims);
    var F := EvalSetup(Cpp, params, {}, BindAll(map[], ids, args)).value;
    forall id | id in E ensures id in F && F[id] == Face(hs, E[id]) {
      var k :| 0 <= k < |ids| && ids[k] == id;
      assert params[k].id == id;
    }
  }

  /** The value that a function returns: its first one, if any. */
  function FirstFace(hs: Handles, ret: seq<Value>, E: TEnv): Val
    requires ret != [] ==> EvalV(ret[0], E).Some?
  {
    if ret == [] then VNull else Face(hs, EvalV(ret[0], E).value)
  }

  /** The structured function evaluates whenever the tensor program runs, to the face of what that returns, and
      foreign code ends with the same calls and the same bytes. */
  lemma FunctionSame(Z: Link, M: Machine, objs: set<nat>, hs: Handles, G: I.Function, storages: seq<Op>, rest: seq<Op>,
                     st: TState, args: seq<Val>, w: World)
    returns (n: nat, w': World)
    requires Runs(Z, M, hs) && Reads(Z, objs, G, storages, rest) && Passed(Z, objs, hs, G.params, args, st.env)
    requires SameBytes(hs, st.mem, After(Z, w).mem) && After(Z, w).hist == st.hist
    requires NewStorages(Z, hs, storages, st, w)
    requires ExecOps(Z.C, storages + rest, st).Some?
    requires G.ret != [] ==> EvalV(G.ret[0], ExecOps(Z.C, storages + rest, st).value.env).Some?
    ensures var r := ExecOps(Z.C, storages + rest, st).value; var hs' := Allocated(hs, storages, st.turn, Z.base + |w|);
      After(Z, w').hist == r.hist && SameBytes(hs', r.mem, After(Z, w').mem) &&
      (G.ret != [] ==> Handled(hs', EvalV(G.ret[0], r.env).value)) &&
      forall fuel: nat :: n <= fuel ==> EvalFunction(M, G, args, w, fuel) == Ok(FirstFace(hs', G.ret, r.env), w')
  {
    hide Runs, NewStorages, SameBytes, After, EvalSetup, EvalOps, ExecOps, PlainOps, Handled, SameEnv, Allocated,
         Passed, Face;
    EntrySame(Z, objs, hs, G.params, args, st.env);
    var F0 := EvalSetup(Cpp, G.params, {}, BindAll(map[], I.ParamIds(G.params), args)).value;
    ExecAppend(Z.C, storages, rest, st);
    var F1, w1 := StoragesSame(Z, M, objs, hs, storages, st, F0, w);
    var hs' := Allocated(hs, storages, st.turn, Z.base + |w|);
    var F2;
    n, F2, w' := OpsSame(Z, M, objs, hs', rest, ExecOps(Z.C, storages, st).value, F1, w1);
    var r := ExecOps(Z.C, storages + rest, st).value;
    if G.ret != [] {
      assert G.ret[0] in G.ret;
      ValueSame(objs, hs', Z.C.dims, r.env, F2, G.ret[0]);
    }
    RunsHost(Z, M, hs);
    forall fuel: nat | n <= fuel ensures EvalFunction(M, G, args, w, fuel) == Ok(FirstFace(hs', G.ret, r.env), w') {
      EvalOpsAppend(M, EmitStorages(Z, storages), EmitOps(Z, objs, rest), F0, w, fuel);
      assert EvalOps(M, EmitStorages(Z, storages), F0, w, fuel) == Ok(F1, w1);
      assert EvalOps(M, EmitOps(Z, objs, rest), F1, w1, fuel) == Ok(F2, w');
    }
  }

  lemma RunsHost(Z: Link, M: Machine, hs: Handles)
    requires Runs(Z, M, hs)
    ensures M.host == Cpp
  {
    hide Serves, DistinctHandles;
  }
}

/** What tensor programs do to memory, byte by byte.

    Every storage starts out undefined; a byte is defined once something has been written to it. */
module TensorSemantics {
  import opened Bytecode
  import opened Runtime
  import opened PrimExprs
  import opened IRValues
  import opened TensorIR
  import opened ShapeBounds

  /** A storage: allocated by the op with this result in one turn of the loops around it, or
      supplied by the caller. */
  datatype Store = Own(res: nat, turn: seq<nat>) | External(n: nat)

  /** A tensor: where it lies in which storage, and how big that storage is. */
  datatype TensorRef = TensorRef(store: Store, nbytes: int, offset: int, shape: seq<int>, dtype: DType)

  datatype TVal =
    | TScalar(c: Const)
    | TTensor(t: TensorRef)
    | TTuple(fields: seq<TVal>)
    | TStorage(store: Store, nbytes: int)

  type TEnv = map<nat, TVal>

  /** The bytes of all storages; None is undefined. */
  type Memory = (Store, int) -> Option<int>

  type Content = seq<Option<int>>

  function Size(t: TensorRef): nat {
    Max2(PayloadBytes(t.shape, t.dtype), 0)
  }

  function Read(mem: Memory, t: TensorRef): (c: Content)
    ensures |c| == Size(t)
  {
    seq(Size(t), k requires 0 <= k < Size(t) => mem(t.store, t.offset + k))
  }

  /** The tensors inside a value. */
  function Tensors(v: TVal): seq<TensorRef> {
    match v
    case TTensor(t) => [t]
    case TTuple(fields) => AllTensors(fields)
    case _ => []
  }

  function AllTensors(vs: seq<TVal>): seq<TensorRef> {
    if vs == [] then [] else Tensors(vs[0]) + AllTensors(vs[1..])
  }

  lemma {:induction false} AllTensorsAt(vals: seq<TVal>, k: nat, t: TensorRef)
    requires k < |vals| && t in Tensors(vals[k])
    ensures t in AllTensors(vals)
  {
    if k > 0 { AllTensorsAt(vals[1..], k - 1, t); }
  }

  lemma {:induction false} AllTensorsFrom(vals: seq<TVal>, t: TensorRef) returns (k: nat)
    requires t in AllTensors(vals)
    ensures k < |vals| && t in Tensors(vals[k])
  {
    if t in Tensors(vals[0]) {
      k := 0;
    } else {
      k := AllTensorsFrom(vals[1..], t);
      k := k + 1;
    }
  }

  /** What foreign code sees of an argument besides its bytes: never where it lies. */
  datatype Desc = DScalar(c: Const) | DTensor(shape: seq<int>, dtype: DType) | DTuple(fields: seq<Desc>) | DStorage

  function Describe(v: TVal): Desc {
    match v
    case TScalar(c) => DScalar(c)
    case TTensor(t) => DTensor(t.shape, t.dtype)
    case TTuple(fields) => DTuple(DescribeAll(fields))
    case TStorage(_, _) => DStorage
  }

  function DescribeAll(vs: seq<TVal>): seq<Desc> {
    if vs == [] then [] else [Describe(vs[0])] + DescribeAll(vs[1..])
  }

  /** Alike but for where their tensors and storages lie. */
  predicate LookAlike(v: TVal, w: TVal) {
    match (v, w)
    case (TScalar(c), TScalar(d)) => c == d
    case (TTensor(t), TTensor(u)) => t.shape == u.shape && t.dtype == u.dtype
    case (TTuple(xs), TTuple(ys)) => |xs| == |ys| && forall k :: 0 <= k < |xs| ==> LookAlike(xs[k], ys[k])
    case (TStorage(_, _), TStorage(_, _)) => true
    case _ => false
  }

  /** Foreign code can tell two values apart exactly when they are not alike. */
  lemma {:induction false} DescribesExactly(v: TVal, w: TVal)
    ensures Describe(v) == Describe(w) <==> LookAlike(v, w)
    decreases v
  {
    if v.TTuple? && w.TTuple? { DescribesAll(v.fields, w.fields); }
  }

  lemma {:induction false} DescribesAll(xs: seq<TVal>, ys: seq<TVal>)
    ensures DescribeAll(xs) == DescribeAll(ys) <==>
      |xs| == |ys| && forall k :: 0 <= k < |xs| ==> LookAlike(xs[k], ys[k])
    decreases xs
  {
    if xs != [] && ys != [] {
      DescribesExactly(xs[0], ys[0]);
      DescribesAll(xs[1..], ys[1..]);
      assert DescribeAll(xs)[0] == Describe(xs[0]) && DescribeAll(xs)[1..] == DescribeAll(xs[1..]);
      assert DescribeAll(ys)[0] == Describe(ys[0]) && DescribeAll(ys)[1..] == DescribeAll(ys[1..]);
      if |xs| == |ys| && LookAlike(xs[0], ys[0]) &&
        forall k :: 0 <= k < |xs[1..]| ==> LookAlike(xs[1..][k], ys[1..][k])
      {
        forall k | 0 <= k < |xs| ensures LookAlike(xs[k], ys[k]) {
          if k > 0 { assert LookAlike(xs[1..][k - 1], ys[1..][k - 1]); }
        }
      }
      if |xs| == |ys| && forall k :: 0 <= k < |xs| ==> LookAlike(xs[k], ys[k]) {
        forall k | 0 <= k < |xs[1..]| ensures LookAlike(xs[1..][k], ys[1..][k]) {
          assert LookAlike(xs[k + 1], ys[k + 1]);
        }
      }
    }
  }

  function ReadAll(mem: Memory, ts: seq<TensorRef>): (cs: seq<Content>)
    ensures |cs| == |ts|
  {
    seq(|ts|, k requires 0 <= k < |ts| => Read(mem, ts[k]))
  }

  /** One foreign call: its arguments and the bytes of every tensor among them. */
  datatype CallEvent = CallEvent(target: string, args: seq<Desc>, contents: seq<Content>)

  type History = seq<CallEvent>

  /** Foreign code: given what happened before and the call, the bytes of each tensor it writes. */
  type Kernel = (History, CallEvent) -> Option<(nat, nat) -> Option<int>>

  /** What a functional call computes from its arguments and their bytes. */
  type Meaning = (string, seq<Desc>, seq<Content>) -> Option<nat -> Option<int>>

  /** The run-time values of symbolic dimensions, the foreign code, and the functional ops. */
  datatype Context = Context(host: Host, dims: Env, kernel: Kernel, meaning: Meaning)

  /** `turn` counts the iterations of the loops around the current op. */
  datatype TState = TState(env: TEnv, mem: Memory, hist: History, turn: seq<nat>)

  function EvalV(v: Value, E: TEnv): Option<TVal> {
    if v.Imm? then Some(TScalar(v.c)) else if v.id in E then Some(E[v.id]) else None
  }

  function EvalVs(vs: seq<Value>, E: TEnv): (r: Option<seq<TVal>>)
    ensures r.Some? ==> |r.value| == |vs|
    ensures r.Some? ==> forall k :: 0 <= k < |vs| ==> EvalV(vs[k], E) == Some(r.value[k])
  {
    if vs == [] then Some([])
    else
      var x, rest := EvalV(vs[0], E), EvalVs(vs[1..], E);
      if x.Some? && rest.Some? then Some([x.value] + rest.value) else None
  }

  predicate IsInt(v: TVal) {
    v.TScalar? && v.c.Int?
  }

  // ---------------------------------------------------------------- single ops

  /** Bytes a storage of its own has for a tensor. */
  function OwnSize(C: Context, spec: Spec): Option<int> {
    EvalSize(C, PlannedSize(spec.shape, spec.dtype.bits / 8))
  }

  function EvalSize(C: Context, e: PrimExpr): Option<int> {
    var n := EvalPrim(C.host, e, C.dims);
    if n.Some? && n.value.VInt? then Some(n.value.i) else None
  }

  /** Initial contents: zeros and full tensors start out defined. */
  function Filled(mem: Memory, kind: CreateKind, t: TensorRef): Memory {
    if kind == Zeros || kind == Full then
      (s: Store, b: int) => if s == t.store && 0 <= b < Size(t) then Some(0) else mem(s, b)
    else mem
  }

  function DoCreate(C: Context, op: Op, st: TState): Option<TState>
    requires op.CreateOp?
  {
    var dims, n := EvalShape(C.host, op.spec.shape, C.dims), OwnSize(C, op.spec);
    if dims.None? || n.None? then None
    else
      var t := TensorRef(Own(op.res, st.turn), n.value, 0, dims.value, op.spec.dtype);
      Some(st.(env := st.env[op.res := TTensor(t)], mem := Filled(st.mem, op.kind, t)))
  }

  /** A functional call puts its value into a new tensor. */
  function DoCompute(C: Context, op: Op, st: TState): Option<TState>
    requires op.ComputeOp?
  {
    var vals := EvalVs(op.args, st.env);
    var dims, n := EvalShape(C.host, op.spec.shape, C.dims), OwnSize(C, op.spec);
    if vals.None? || dims.None? || n.None? then None
    else
      var bytes := C.meaning(op.fn, DescribeAll(vals.value), ReadAll(st.mem, AllTensors(vals.value)));
      if bytes.None? then None
      else
        var t := TensorRef(Own(op.res, st.turn), n.value, 0, dims.value, op.spec.dtype);
        Some(st.(env := st.env[op.res := TTensor(t)], mem := WriteOne(st.mem, t, bytes.value)))
  }

  function DoStorage(C: Context, op: Op, st: TState): Option<TState>
    requires op.StorageOp?
  {
    match EvalSize(C, op.size)
    case Some(n) => Some(st.(env := st.env[op.res := TStorage(Own(op.res, st.turn), n)]))
    case None => None
  }

  /** A tensor at the start of a storage. */
  function DoPlace(C: Context, op: Op, st: TState): Option<TState>
    requires op.PlaceOp?
  {
    var s, dims := EvalV(op.storage, st.env), EvalShape(C.host, op.shape, C.dims);
    if s.None? || dims.None? || !s.value.TStorage? then None
    else
      var t := TensorRef(s.value.store, s.value.nbytes, 0, dims.value, op.dtype);
      Some(st.(env := st.env[op.res := TTensor(t)]))
  }

  /** A view lies in the storage of its base and must not reach beyond it. */
  function ViewOf(t: TensorRef, offset: int, dims: seq<int>): Option<TensorRef> {
    if offset < 0 then None
    else if t.nbytes > 0 && (t.offset < 0 || t.offset + offset + PayloadBytes(dims, t.dtype) > t.nbytes) then None
    else Some(TensorRef(t.store, t.nbytes, t.offset + offset, dims, t.dtype))
  }

  function DoView(C: Context, op: Op, st: TState): Option<TState>
    requires op.ViewOp?
  {
    var base, offset := EvalV(op.base, st.env), EvalV(op.byteOffset, st.env);
    var dims := EvalShape(C.host, op.shape, C.dims);
    if base.None? || offset.None? || dims.None? || !base.value.TTensor? || !IsInt(offset.value) then None
    else
      var view := ViewOf(base.value.t, offset.value.c.i * op.byteStride + op.baseOffset, dims.value);
      if view.Some? then Some(st.(env := st.env[op.res := TTensor(view.value)])) else None
  }

  function WriteOne(mem: Memory, t: TensorRef, bytes: nat -> Option<int>): Memory {
    (s: Store, b: int) => if s == t.store && t.offset <= b < t.offset + Size(t) then bytes(b - t.offset) else mem(s, b)
  }

  /** The bytes for the j-th tensor. */
  function Row(bytes: (nat, nat) -> Option<int>, j: nat): nat -> Option<int> {
    (k: nat) => bytes(j, k)
  }

  /** Tensors are written in order. */
  function WriteAll(mem: Memory, ts: seq<TensorRef>, bytes: (nat, nat) -> Option<int>, j: nat): Memory
    requires j <= |ts|
    decreases |ts| - j
  {
    if j == |ts| then mem else WriteAll(WriteOne(mem, ts[j], Row(bytes, j)), ts, bytes, j + 1)
  }

  /** A call sees the bytes of everything it reads or writes and replaces those of what it writes. */
  function DoCall(C: Context, op: Op, st: TState): Option<TState>
    requires op.CallOp?
  {
    var effect := EffectOf(op);
    var vals := EvalVs(Operands(op) + effect.reading + effect.writing, st.env);
    var outs := EvalVs(effect.writing, st.env);
    if vals.None? || outs.None? then None
    else
      var e := CallEvent(op.target, DescribeAll(vals.value), ReadAll(st.mem, AllTensors(vals.value)));
      var bytes := C.kernel(st.hist, e);
      if bytes.None? then None
      else Some(st.(mem := WriteAll(st.mem, AllTensors(outs.value), bytes.value, 0), hist := st.hist + [e]))
  }

  function DoCheck(op: Op, st: TState): Option<TState>
    requires op.CheckOp?
  {
    var v := EvalV(op.tensor, st.env);
    if v.None? || !v.value.TTensor? then None
    else
      var shape := v.value.t.shape;
      if 0 <= op.dim < |shape| && shape[op.dim] <= op.upper then Some(st) else None
  }

  function DoItem(op: Op, st: TState): Option<TState>
    requires op.ItemOp?
  {
    var v := EvalV(op.tup, st.env);
    if v.None? || !v.value.TTuple? then None
    else
      var fields := v.value.fields;
      if 0 <= op.index < |fields| then Some(st.(env := st.env[op.res := fields[op.index]])) else None
  }

  // ---------------------------------------------------------------- control flow

  function BindVals(E: TEnv, ids: seq<nat>, vals: seq<TVal>): TEnv
    requires |ids| == |vals|
    decreases |ids|
  {
    if ids == [] then E else BindVals(E[ids[0] := vals[0]], ids[1..], vals[1..])
  }

  function Exec(C: Context, op: Op, st: TState): Option<TState>
    decreases op, 1, 0
  {
    match op
    case ComputeOp(_, _, _, _, _) => DoCompute(C, op, st)
    case CreateOp(_, _, _, _, _) => DoCreate(C, op, st)
    case StorageOp(_, _, _) => DoStorage(C, op, st)
    case PlaceOp(_, _, _, _) => DoPlace(C, op, st)
    case ViewOp(_, _, _, _, _, _) => DoView(C, op, st)
    case CallOp(_, _, _, _) => DoCall(C, op, st)
    case CheckOp(_, _, _) => DoCheck(op, st)
    case TupleOp(res, elems) =>
      var vals := EvalVs(elems, st.env);
      if vals.Some? then Some(st.(env := st.env[res := TTuple(vals.value)])) else None
    case ItemOp(_, _, _) => DoItem(op, st)
    case IfOp(results, cond, thn, els) =>
      var v := EvalV(cond, st.env);
      if v.None? || !v.value.TScalar? || !v.value.c.Bool? then None
      else if v.value.c.b then ExecRegion(C, thn, results, st)
      else if els.Some? then ExecRegion(C, els.value, results, st)
      else Some(st)
    case ForOp(results, _, bounds, iters, _) =>
      var range, inits := LoopRange(bounds, st.env), EvalVs(Inits(iters), st.env);
      if range.None? || inits.None? then None
      else
        var r := ExecLoop(C, op, range.value, inits.value, 0, st);
        if r.Some? then LeaveLoop(results, r.value.0, st.env, r.value.1) else None
  }

  datatype Range = Range(start: int, end: int, step: int)

  function LoopRange(bounds: seq<Value>, E: TEnv): Option<Range> {
    var r := EvalVs(bounds, E);
    if r.None? then None
    else
      var vals := r.value;
      if |vals| == 3 && forall k :: 0 <= k < 3 ==> IsInt(vals[k])
      then Some(Range(vals[0].c.i, vals[1].c.i, vals[2].c.i)) else None
  }

  function LeaveLoop(results: seq<nat>, vals: seq<TVal>, E: TEnv, after: TState): Option<TState> {
    if results == [] then Some(after.(env := E))
    else if |vals| == |results| then Some(after.(env := BindVals(E, results, vals)))
    else None
  }

  /** The state a loop body starts in. */
  function EnterBody(op: Op, i: int, vals: seq<TVal>, k: nat, st: TState): TState
    requires op.ForOp? && |vals| == |op.iters|
  {
    st.(env := BindVals(st.env[op.loopVar := TScalar(Int(i))], Vars(op.iters), vals), turn := st.turn + [k])
  }

  /** From iteration k on, with these carried values; a loop that never ends has no meaning.
      Every iteration starts from the environment around the loop. */
  function ExecLoop(C: Context, op: Op, range: Range, vals: seq<TVal>, k: nat, st: TState): Option<(seq<TVal>, TState)>
    requires op.ForOp?
    decreases op, 0, if range.end >= range.start then range.end - range.start else 0
  {
    if range.start >= range.end then Some((vals, st))
    else if range.step <= 0 || |vals| != |op.iters| then None
    else
      var inner := ExecOps(C, op.body.ops, EnterBody(op, range.start, vals, k, st));
      var next := if inner.Some? then EvalVs(op.body.yielded, inner.value.env) else None;
      if next.None? then None
      else ExecLoop(C, op, range.(start := range.start + range.step), next.value, k + 1,
                    inner.value.(env := st.env, turn := st.turn))
  }

  /** A region's own names are gone afterwards; its results are bound outside. */
  function ExecRegion(C: Context, r: Region, results: seq<nat>, st: TState): Option<TState>
    decreases r, 0, 0
  {
    var inner := ExecOps(C, r.ops, st);
    var vals := if inner.Some? then EvalVs(r.yielded, inner.value.env) else None;
    if vals.None? || |vals.value| != |results| then None
    else Some(inner.value.(env := BindVals(st.env, results, vals.value)))
  }

  function ExecOps(C: Context, ops: seq<Op>, st: TState): Option<TState>
    decreases ops, 0, 0
  {
    if ops == [] then Some(st)
    else
      var next := Exec(C, ops[0], st);
      if next.Some? then ExecOps(C, ops[1..], next.value) else None
  }

  lemma {:induction false} ExecAppend(C: Context, a: seq<Op>, b: seq<Op>, st: TState)
    ensures ExecOps(C, a + b, st) == match ExecOps(C, a, st) case Some(mid) => ExecOps(C, b, mid) case None => None
  {
    if a == [] {
      assert a + b == b;
    } else {
      assert (a + b)[1..] == a[1..] + b;
      if Exec(C, a[0], st).Some? { ExecAppend(C, a[1..], b, Exec(C, a[0], st).value); }
    }
  }

  lemma {:induction false} RunOne(C: Context, op: Op, st: TState)
    ensures ExecOps(C, [op], st) == Exec(C, op, st)
  {
    hide Exec;
    assert [op][1..] == [];
    if Exec(C, op, st).Some? { assert ExecOps(C, [], Exec(C, op, st).value) == Exec(C, op, st); }
  }

  lemma {:induction false} EvalNone(E: TEnv)
    ensures EvalVs([], E) == Some([])
  {
  }

  lemma {:induction false} EvalFirst(vs: seq<Value>, E: TEnv)
    requires vs != []
    ensures EvalVs(vs, E) == match (EvalV(vs[0], E), EvalVs(vs[1..], E))
      case (Some(x), Some(rest)) => Some([x] + rest)
      case _ => None
  {
    hide EvalV;
  }

  lemma {:induction false} EvalAppend(a: seq<Value>, b: seq<Value>, E: TEnv)
    requires EvalVs(a, E).Some? && EvalVs(b, E).Some?
    ensures EvalVs(a + b, E) == Some(EvalVs(a, E).value + EvalVs(b, E).value)
  {
    hide EvalV, EvalVs;
    if a == [] {
      EvalNone(E);
      assert a + b == b && [] + EvalVs(b, E).value == EvalVs(b, E).value;
    } else {
      assert (a + b)[1..] == a[1..] + b && (a + b)[0] == a[0];
      EvalFirst(a, E);
      EvalFirst(a + b, E);
      EvalAppend(a[1..], b, E);
      var x, ra, rb := EvalV(a[0], E).value, EvalVs(a[1..], E).value, EvalVs(b, E).value;
      assert [x] + (ra + rb) == ([x] + ra) + rb;
    }
  }

  lemma {:induction false} EvalSplit(a: seq<Value>, b: seq<Value>, E: TEnv)
    requires EvalVs(a + b, E).Some?
    ensures EvalVs(a, E).Some? && EvalVs(b, E).Some?
    ensures EvalVs(a + b, E).value == EvalVs(a, E).value + EvalVs(b, E).value
  {
    hide EvalV, EvalVs;
    if a == [] {
      EvalNone(E);
      assert a + b == b && [] + EvalVs(b, E).value == EvalVs(b, E).value;
    } else {
      assert (a + b)[1..] == a[1..] + b && (a + b)[0] == a[0];
      EvalFirst(a, E);
      EvalFirst(a + b, E);
      EvalSplit(a[1..], b, E);
      var x, ra, rb := EvalV(a[0], E).value, EvalVs(a[1..], E).value, EvalVs(b, E).value;
      assert [x] + (ra + rb) == ([x] + ra) + rb;
    }
  }
}

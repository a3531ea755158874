/** Giving op results other identities does not change what a program computes. */
module Renaming {
  import opened Bytecode
  import opened PrimExprs
  import opened IRValues
  import opened TensorIR
  import opened TensorSemantics
  import opened Rewriter

  // ---------------------------------------------------------------- renamed code

  function Rn(m: Sub, id: nat): nat {
    if id in m then m[id] else id
  }

  function RnIds(m: Sub, ids: seq<nat>): (r: seq<nat>)
    ensures |r| == |ids| && forall k :: 0 <= k < |ids| ==> r[k] == Rn(m, ids[k])
  {
    seq(|ids|, k requires 0 <= k < |ids| => Rn(m, ids[k]))
  }

  function RenameLeaf(m: Sub, op: Op): Op
    requires IsLeaf(op)
  {
    Leaf(Default, op, m, if Results(op) == [] then 0 else Rn(m, Results(op)[0]))
  }

  function RenameOp(m: Sub, op: Op): Op
    decreases op, 1
  {
    match op
    case IfOp(results, cond, thn, els) =>
      IfOp(RnIds(m, results), Sv(m, cond), RenameRegion(m, thn), if els.Some? then Some(RenameRegion(m, els.value))
           else None)
    case ForOp(results, loopVar, bounds, iters, body) =>
      ForOp(RnIds(m, results), loopVar, Svs(m, bounds), SubstIters(m, iters), RenameRegion(m, body))
    case _ => RenameLeaf(m, op)
  }

  function RenameRegion(m: Sub, r: Region): Region
    decreases r, 0
  {
    Region(RenameOps(m, r.ops), Svs(m, r.yielded))
  }

  function RenameOps(m: Sub, ops: seq<Op>): seq<Op>
    decreases ops, 0
  {
    if ops == [] then [] else [RenameOp(m, ops[0])] + RenameOps(m, ops[1..])
  }

  lemma {:induction false} RenameOne(m: Sub, op: Op)
    ensures RenameOps(m, [op]) == [RenameOp(m, op)]
  {
    assert [op][1..] == [];
  }

  lemma {:induction false} RenameAppend(m: Sub, a: seq<Op>, b: seq<Op>)
    ensures RenameOps(m, a + b) == RenameOps(m, a) + RenameOps(m, b)
  {
    if a == [] {
      assert a + b == b;
    } else {
      assert (a + b)[1..] == a[1..] + b;
      RenameAppend(m, a[1..], b);
    }
  }

  /** Identities are below the bound; variables and storages keep theirs; no op that is split in
      two is its own argument. */
  predicate FitsOp(P: Pass, m: Sub, bound: nat, op: Op)
    decreases op, 1
  {
    (forall id <- Results(op) :: id < bound) && (Selected(P, op) ==> NotOwn(op)) &&
    match op
    case IfOp(_, cond, thn, els) => Stay(m, [cond]) && FitsRegion(P, m, bound, thn) &&
      (els.Some? ==> FitsRegion(P, m, bound, els.value))
    case ForOp(_, loopVar, bounds, iters, body) =>
      && Stay(m, bounds + Inits(iters)) && FitsRegion(P, m, bound, body)
      && loopVar < bound && Rn(m, loopVar) == loopVar && forall id <- Vars(iters) :: id < bound && Rn(m, id) == id
    case StorageOp(res, _, _) => Rn(m, res) == res
    case _ => Stay(m, Refs(OpNode(op)))
  }

  predicate NotOwn(op: Op)
    requires op.ComputeOp?
  {
    forall v <- op.args :: !v.Imm? ==> v.id != op.res
  }

  predicate FitsRegion(P: Pass, m: Sub, bound: nat, r: Region)
    decreases r, 0
  {
    FitsOps(P, m, bound, r.ops) && Stay(m, r.yielded)
  }

  predicate FitsOps(P: Pass, m: Sub, bound: nat, ops: seq<Op>)
    decreases ops, 0
  {
    ops == [] || (FitsOp(P, m, bound, ops[0]) && FitsOps(P, m, bound, ops[1..]))
  }

  predicate Stay(m: Sub, vs: seq<Value>) {
    forall v <- vs :: v.Var? ==> Rn(m, v.id) == v.id
  }

  // ---------------------------------------------------------------- renamed values

  function RnStore(m: Sub, s: Store): Store {
    match s
    case Own(res, turn) => Own(Rn(m, res), turn)
    case External(_) => s
  }

  function RnT(m: Sub, t: TensorRef): TensorRef {
    t.(store := RnStore(m, t.store))
  }

  function RnV(m: Sub, v: TVal): TVal {
    match v
    case TTensor(t) => TTensor(RnT(m, t))
    case TTuple(fields) => TTuple(RnVs(m, fields))
    case TStorage(s, n) => TStorage(RnStore(m, s), n)
    case TScalar(_) => v
  }

  function RnVs(m: Sub, vs: seq<TVal>): (r: seq<TVal>)
    ensures |r| == |vs| && forall k :: 0 <= k < |vs| ==> r[k] == RnV(m, vs[k])
  {
    if vs == [] then [] else [RnV(m, vs[0])] + RnVs(m, vs[1..])
  }

  function RnTs(m: Sub, ts: seq<TensorRef>): (r: seq<TensorRef>)
    ensures |r| == |ts| && forall k :: 0 <= k < |ts| ==> r[k] == RnT(m, ts[k])
  {
    seq(|ts|, k requires 0 <= k < |ts| => RnT(m, ts[k]))
  }

  predicate StoreBelow(bound: nat, s: Store) {
    s.Own? ==> s.res < bound
  }

  predicate Below(bound: nat, v: TVal) {
    match v
    case TTensor(t) => StoreBelow(bound, t.store)
    case TTuple(fields) => AllBelow(bound, fields)
    case TStorage(s, _) => StoreBelow(bound, s)
    case TScalar(_) => true
  }

  predicate AllBelow(bound: nat, vs: seq<TVal>) {
    vs == [] || (Below(bound, vs[0]) && AllBelow(bound, vs[1..]))
  }

  lemma {:induction false} AllBelowAt(bound: nat, vs: seq<TVal>, k: nat)
    requires AllBelow(bound, vs) && k < |vs|
    ensures Below(bound, vs[k])
  {
    if k > 0 { AllBelowAt(bound, vs[1..], k - 1); }
  }

  /** Renaming changes neither the tensors a value holds, apart from their storages, nor what
      foreign code sees of it. */
  lemma {:induction false} RnTensors(m: Sub, bound: nat, v: TVal)
    ensures Tensors(RnV(m, v)) == RnTs(m, Tensors(v)) && Describe(RnV(m, v)) == Describe(v)
    ensures Below(bound, v) ==> forall t <- Tensors(v) :: StoreBelow(bound, t.store)
    decreases v, 0
  {
    if v.TTuple? { AllRnTensors(m, bound, v.fields); }
  }

  lemma {:induction false} AllRnTensors(m: Sub, bound: nat, vs: seq<TVal>)
    ensures AllTensors(RnVs(m, vs)) == RnTs(m, AllTensors(vs)) && DescribeAll(RnVs(m, vs)) == DescribeAll(vs)
    ensures AllBelow(bound, vs) ==> forall t <- AllTensors(vs) :: StoreBelow(bound, t.store)
    decreases vs
  {
    if vs != [] {
      RnTensors(m, bound, vs[0]);
      AllRnTensors(m, bound, vs[1..]);
      assert RnVs(m, vs)[1..] == RnVs(m, vs[1..]);
    }
  }

  // ---------------------------------------------------------------- the relation

  ghost predicate Apart(m: Sub, bound: nat) {
    forall i: nat, j: nat :: i < bound && j < bound && Rn(m, i) == Rn(m, j) ==> i == j
  }

  ghost predicate EnvRn(m: Sub, bound: nat, E: TEnv, E': TEnv) {
    forall id <- E :: id < bound && Rn(m, id) in E' && E'[Rn(m, id)] == RnV(m, E[id]) && Below(bound, E[id])
  }

  ghost predicate MemRn(m: Sub, bound: nat, mem: Memory, mem': Memory) {
    forall s: Store, b: int :: StoreBelow(bound, s) ==> mem'(RnStore(m, s), b) == mem(s, b)
  }

  lemma {:induction false} EvalRn(m: Sub, bound: nat, E: TEnv, E': TEnv, v: Value)
    requires EnvRn(m, bound, E, E') && Stay(m, [v]) && EvalV(v, E).Some?
    ensures EvalV(Sv(m, v), E') == Some(RnV(m, EvalV(v, E).value)) && Below(bound, EvalV(v, E).value)
  {
    assert v in [v];
  }

  lemma {:induction false} EvalAllRn(m: Sub, bound: nat, E: TEnv, E': TEnv, vs: seq<Value>)
    requires EnvRn(m, bound, E, E') && Stay(m, vs) && EvalVs(vs, E).Some?
    ensures EvalVs(Svs(m, vs), E') == Some(RnVs(m, EvalVs(vs, E).value)) && AllBelow(bound, EvalVs(vs, E).value)
  {
    if vs != [] {
      assert vs[0] in vs && forall v <- vs[1..] :: v in vs;
      EvalRn(m, bound, E, E', vs[0]);
      EvalAllRn(m, bound, E, E', vs[1..]);
      assert Svs(m, vs)[0] == Sv(m, vs[0]) && Svs(m, vs)[1..] == Svs(m, vs[1..]);
      var vals := EvalVs(vs, E).value;
      assert vals[1..] == EvalVs(vs[1..], E).value;
    }
  }

  lemma {:induction false} EnvRnBind(m: Sub, bound: nat, E: TEnv, E': TEnv, id: nat, val: TVal)
    requires EnvRn(m, bound, E, E') && Apart(m, bound) && id < bound && Below(bound, val)
    ensures EnvRn(m, bound, E[id := val], E'[Rn(m, id) := RnV(m, val)])
  {
  }

  lemma {:induction false} BindRn(m: Sub, bound: nat, E: TEnv, E': TEnv, ids: seq<nat>, vals: seq<TVal>)
    requires EnvRn(m, bound, E, E') && Apart(m, bound) && |ids| == |vals| && (forall id <- ids :: id < bound)
    requires AllBelow(bound, vals)
    ensures EnvRn(m, bound, BindVals(E, ids, vals), BindVals(E', RnIds(m, ids), RnVs(m, vals)))
    decreases |ids|
  {
    hide EnvRn, Apart, Rn;
    if ids != [] {
      assert ids[0] in ids && forall id <- ids[1..] :: id in ids;
      EnvRnBind(m, bound, E, E', ids[0], vals[0]);
      BindRn(m, bound, E[ids[0] := vals[0]], E'[Rn(m, ids[0]) := RnV(m, vals[0])], ids[1..], vals[1..]);
      assert RnIds(m, ids)[1..] == RnIds(m, ids[1..]) && RnVs(m, vals)[1..] == RnVs(m, vals[1..]);
    }
  }

  // ---------------------------------------------------------------- memory

  lemma StoresApart(m: Sub, bound: nat, s: Store, s': Store)
    requires Apart(m, bound) && StoreBelow(bound, s) && StoreBelow(bound, s') && RnStore(m, s) == RnStore(m, s')
    ensures s == s'
  {
  }

  lemma WriteRn(m: Sub, bound: nat, mem: Memory, mem': Memory, t: TensorRef, bytes: nat -> Option<int>,
                bytes': nat -> Option<int>)
    requires MemRn(m, bound, mem, mem') && Apart(m, bound) && StoreBelow(bound, t.store)
    requires forall k: nat :: bytes(k) == bytes'(k)
    ensures MemRn(m, bound, WriteOne(mem, t, bytes), WriteOne(mem', RnT(m, t), bytes'))
  {
    hide Apart;
    var w, w' := WriteOne(mem, t, bytes), WriteOne(mem', RnT(m, t), bytes');
    forall s: Store, b: int | StoreBelow(bound, s) ensures w'(RnStore(m, s), b) == w(s, b) {
      if RnStore(m, s) == RnStore(m, t.store) { StoresApart(m, bound, s, t.store); }
      assert mem'(RnStore(m, s), b) == mem(s, b);
    }
  }

  lemma {:induction false} WriteAllRn(m: Sub, bound: nat, mem: Memory, mem': Memory, ts: seq<TensorRef>,
                                      bytes: (nat, nat) -> Option<int>, j: nat)
    requires MemRn(m, bound, mem, mem') && Apart(m, bound) && (forall t <- ts :: StoreBelow(bound, t.store))
    requires j <= |ts|
    ensures MemRn(m, bound, WriteAll(mem, ts, bytes, j), WriteAll(mem', RnTs(m, ts), bytes, j))
    decreases |ts| - j
  {
    hide MemRn, Apart, WriteOne, RnT;
    if j < |ts| {
      var b := Row(bytes, j);
      WriteRn(m, bound, mem, mem', ts[j], b, b);
      WriteAllRn(m, bound, WriteOne(mem, ts[j], b), WriteOne(mem', RnT(m, ts[j]), b), ts, bytes, j + 1);
    }
  }

  lemma ReadRn(m: Sub, bound: nat, mem: Memory, mem': Memory, ts: seq<TensorRef>)
    requires MemRn(m, bound, mem, mem') && forall t <- ts :: StoreBelow(bound, t.store)
    ensures ReadAll(mem', RnTs(m, ts)) == ReadAll(mem, ts)
  {
    forall k | 0 <= k < |ts| ensures Read(mem', RnT(m, ts[k])) == Read(mem, ts[k]) {
      var t := ts[k];
      assert t in ts;
      forall b | 0 <= b < Size(t) ensures Read(mem', RnT(m, t))[b] == Read(mem, t)[b] {
        assert mem'(RnStore(m, t.store), t.offset + b) == mem(t.store, t.offset + b);
      }
    }
  }
}

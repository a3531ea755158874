/** Putting tensors into shared storages does not change what a program computes
    (python/devproc2/compiler/passes/lower_tensor_create_to_alloc.py). */
module StorageSharing {
  import opened Bytecode
  import opened Runtime
  import opened PrimExprs
  import opened IRValues
  import opened TensorIR
  import opened AliasAnalysis
  import opened TensorSemantics
  import opened Lifetimes
  import opened AliasSound
  import opened MemoryFrame

  // ---------------------------------------------------------------- the lowering

  /** Which storage every created tensor goes to, and what is known about lifetimes and sizes. */
  datatype Layout = Layout(nodes: seq<Node>, params: set<nat>,
                           last: map<nat, int>,     // last use of each created tensor
                           home: map<nat, nat>,     // result of the storage op each created tensor goes to
                           depth: map<nat, nat>,    // how many loops are around each creation
                           need: map<nat, int>,     // bytes of a storage of its own
                           room: map<nat, int>)     // bytes of each storage

  function LowerOp(home: map<nat, nat>, op: Op): Op
    decreases op, 1
  {
    match op
    case CreateOp(res, _, _, spec, _) => if res in home then PlaceOp(res, Res(home[res]), spec.shape, spec.dtype)
      else op
    case IfOp(results, cond, thn, els) =>
      IfOp(results, cond, LowerRegion(home, thn), if els.Some? then Some(LowerRegion(home, els.value)) else None)
    case ForOp(results, loopVar, bounds, iters, body) => ForOp(results, loopVar, bounds, iters, LowerRegion(home, body))
    case _ => op
  }

  function LowerRegion(home: map<nat, nat>, r: Region): Region
    decreases r, 0
  {
    Region(LowerOps(home, r.ops), r.yielded)
  }

  function LowerOps(home: map<nat, nat>, ops: seq<Op>): seq<Op>
    decreases ops, 0
  {
    if ops == [] then [] else [LowerOp(home, ops[0])] + LowerOps(home, ops[1..])
  }

  // ---------------------------------------------------------------- when a layout is right

  ghost predicate LiveTogether(L: Layout, c: Creation, d: Creation)
    requires c.res in L.last && d.res in L.last
  {
    c.index <= L.last[d.res] && d.index <= L.last[c.res]
  }

  predicate SizeOk(need: int, room: int) {
    need == room || 0 < need <= room
  }

  /** Creations are at the recorded depth. */
  predicate DepthsAre(depth: map<nat, nat>, op: Op, d: nat)
    decreases op, 1
  {
    match op
    case CreateOp(res, _, _, _, _) => res in depth && depth[res] == d
    case IfOp(_, _, thn, els) => AllDepths(depth, thn.ops, d) && (els.Some? ==> AllDepths(depth, els.value.ops, d))
    case ForOp(_, _, _, _, body) => AllDepths(depth, body.ops, d + 1)
    case _ => true
  }

  predicate AllDepths(depth: map<nat, nat>, ops: seq<Op>, d: nat)
    decreases ops, 0
  {
    ops == [] || (DepthsAre(depth, ops[0], d) && AllDepths(depth, ops[1..], d))
  }

  /** The loop at position i does not use up a tensor from before it, and nothing made in it outlives it. */
  predicate EndsApart(L: Layout, i: nat, op: Op) {
    var e := i + |OpNodes(op)| - 1;
    forall c <- Creations(L.nodes) :: c.res in L.last ==>
      (c.index < i ==> L.last[c.res] <= i || L.last[c.res] >= e) && (i < c.index <= e ==> L.last[c.res] <= e)
  }

  predicate LoopsEndApart(L: Layout) {
    forall i :: 0 <= i < |L.nodes| && L.nodes[i].OpNode? && L.nodes[i].op.ForOp? ==> EndsApart(L, i, L.nodes[i].op)
  }

  ghost predicate LayoutOk(L: Layout) {
    var cs := Creations(L.nodes);
    && UniqueResults(L.nodes) && ParamsOnly(L.nodes, L.params) && PlainLoops(L.nodes, L.params) && LoopsEndApart(L)
    && (forall c <- cs :: c.res in L.depth)
    && (forall c <- cs :: c.res in L.last && c.res in L.home && c.res in L.need && L.home[c.res] in L.room &&
          SizeOk(L.need[c.res], L.room[L.home[c.res]]))
    && (forall id <- L.home :: id in ResIds(cs))
    && (forall s <- L.room :: s !in L.params && forall n <- L.nodes :: s !in ResultsAt(n))
    && (forall c <- cs, i ::
        0 <= i < |L.nodes| && Refers(GraphAt(L.nodes, |L.nodes|), IsCreated(cs), L.nodes[i], c.res) ==>
          i <= L.last[c.res])
    && (forall c <- cs, d <- cs :: c.res != d.res && L.home[c.res] == L.home[d.res] ==> !LiveTogether(L, c, d))
  }

  /** A creation starts out undefined: lowering has no way to say otherwise. */
  predicate Uninitialised(op: Op)
    decreases op, 1
  {
    match op
    case CreateOp(_, _, kind, _, _) => kind != Zeros && kind != Full
    case IfOp(_, _, thn, els) => UninitialisedOps(thn.ops) && (els.Some? ==> UninitialisedOps(els.value.ops))
    case ForOp(_, _, _, _, body) => UninitialisedOps(body.ops)
    case _ => true
  }

  predicate UninitialisedOps(ops: seq<Op>)
    decreases ops, 0
  {
    ops == [] || (Uninitialised(ops[0]) && UninitialisedOps(ops[1..]))
  }

  // ---------------------------------------------------------------- moving values

  function MoveT(L: Layout, t: TensorRef): TensorRef {
    if t.store.Own? && t.store.res in L.home && L.home[t.store.res] in L.room
    then t.(store := Own(L.home[t.store.res], []), nbytes := L.room[L.home[t.store.res]])
    else t
  }

  function Move(L: Layout, v: TVal): TVal {
    match v
    case TTensor(t) => TTensor(MoveT(L, t))
    case TTuple(fields) => TTuple(MoveAll(L, fields))
    case _ => v
  }

  function MoveAll(L: Layout, vs: seq<TVal>): (r: seq<TVal>)
    ensures |r| == |vs| && forall k :: 0 <= k < |vs| ==> r[k] == Move(L, vs[k])
  {
    if vs == [] then [] else [Move(L, vs[0])] + MoveAll(L, vs[1..])
  }

  function MoveTs(L: Layout, ts: seq<TensorRef>): (r: seq<TensorRef>)
    ensures |r| == |ts| && forall k :: 0 <= k < |ts| ==> r[k] == MoveT(L, ts[k])
  {
    seq(|ts|, k requires 0 <= k < |ts| => MoveT(L, ts[k]))
  }

  lemma {:induction false} MovedTensors(L: Layout, v: TVal)
    ensures Tensors(Move(L, v)) == MoveTs(L, Tensors(v)) && Describe(Move(L, v)) == Describe(v)
    decreases v, 0
  {
    if v.TTuple? { AllMovedTensors(L, v.fields); }
  }

  lemma MoveBoth(L: Layout, a: seq<TensorRef>, b: seq<TensorRef>)
    ensures MoveTs(L, a + b) == MoveTs(L, a) + MoveTs(L, b)
  {
    hide MoveT;
  }

  lemma {:induction false} AllMovedTensors(L: Layout, vs: seq<TVal>)
    ensures AllTensors(MoveAll(L, vs)) == MoveTs(L, AllTensors(vs)) && DescribeAll(MoveAll(L, vs)) == DescribeAll(vs)
    decreases vs
  {
    hide Move, MoveT, Tensors, Describe;
    if vs != [] {
      MovedTensors(L, vs[0]);
      AllMovedTensors(L, vs[1..]);
      assert MoveAll(L, vs)[1..] == MoveAll(L, vs[1..]) && MoveAll(L, vs)[0] == Move(L, vs[0]);
      MoveBoth(L, Tensors(vs[0]), AllTensors(vs[1..]));
    }
  }

  // ---------------------------------------------------------------- the relation

  predicate Leq(a: Option<int>, b: Option<int>) {
    a.Some? ==> b == a
  }

  predicate ContentLeq(a: Content, b: Content) {
    |a| == |b| && forall k :: 0 <= k < |a| ==> Leq(a[k], b[k])
  }

  predicate EventLeq(a: CallEvent, b: CallEvent) {
    a.target == b.target && a.args == b.args && |a.contents| == |b.contents| &&
    forall k :: 0 <= k < |a.contents| ==> ContentLeq(a.contents[k], b.contents[k])
  }

  predicate HistLeq(a: History, b: History) {
    |a| == |b| && forall k :: 0 <= k < |a| ==> EventLeq(a[k], b[k])
  }

  /** Foreign code depends on defined bytes only: more defined bytes never change what it defines. */
  ghost predicate Robust(K: Kernel) {
    forall h, h', e, e' :: HistLeq(h, h') && EventLeq(e, e') && K(h, e).Some? ==>
      K(h', e').Some? && forall j, k :: Leq(K(h, e).value(j, k), K(h', e').value(j, k))
  }

  /** Every tensor in the value was created before position i. */
  ghost predicate Located(L: Layout, i: nat, T: seq<nat>, v: TVal) {
    forall t <- Tensors(v) :: LocatedT(L, i, T, t)
  }

  ghost predicate LocatedT(L: Layout, i: nat, T: seq<nat>, t: TensorRef) {
    t.store.Own? ==> exists c ::
      c in Creations(L.nodes) && Current(L, T, c, t.store) && c.index < i && c.res in L.need &&
        t.nbytes == L.need[c.res]
  }

  /** In this turn of the loops, the creation's tensor is in this storage. */
  predicate Current(L: Layout, T: seq<nat>, c: Creation, s: Store) {
    c.res in L.depth && L.depth[c.res] <= |T| && s == Own(c.res, T[..L.depth[c.res]])
  }

  ghost predicate EnvRel(L: Layout, i: nat, T: seq<nat>, E: TEnv, E': TEnv) {
    && (forall id <- E :: id in E' && E'[id] == Move(L, E[id]) && Located(L, i, T, E[id]) && id !in L.room)
    && (forall s <- L.room :: s in E' && E'[s] == TStorage(Own(s, []), L.room[s]))
  }

  /** The tensor's bytes, where defined, are in its storage. */
  ghost predicate Kept(L: Layout, T: seq<nat>, mem: Memory, mem': Memory, c: Creation)
    requires c.res in L.home
  {
    c.res in L.depth && L.depth[c.res] <= |T| ==>
      forall b: int :: Leq(mem(Own(c.res, T[..L.depth[c.res]]), b), mem'(Own(L.home[c.res], []), b))
  }

  predicate LiveAt(L: Layout, i: nat, c: Creation) {
    c.res in L.last && c.res in L.home && c.index < i && L.last[c.res] >= i
  }

  /** One turn goes on where the other stops. */
  predicate Along(T: seq<nat>, u: seq<nat>) {
    T <= u || u <= T
  }

  ghost predicate Untouched(mem: Memory, s: Store) {
    forall b: int :: mem(s, b).None?
  }

  ghost predicate CallerMemory(mem: Memory, mem': Memory) {
    forall n: nat, b: int :: Leq(mem(External(n), b), mem'(External(n), b))
  }

  ghost predicate MemRel(L: Layout, i: nat, T: seq<nat>, mem: Memory, mem': Memory) {
    && (forall c <- Creations(L.nodes) :: LiveAt(L, i, c) ==> Kept(L, T, mem, mem', c))
    && (forall c, u: seq<nat> :: c in Creations(L.nodes) && c.index >= i && Along(T, u) ==>
          Untouched(mem, Own(c.res, u)))
    && CallerMemory(mem, mem')
  }

  /** The shared run at position i does what the private run does. */
  ghost predicate StateRel(L: Layout, i: nat, st: TState, st': TState) {
    st.turn == st'.turn && EnvRel(L, i, st.turn, st.env, st'.env) && MemRel(L, i, st.turn, st.mem, st'.mem) &&
      HistLeq(st.hist, st'.hist)
  }

  /** Skipping ahead without executing anything. */
  lemma StateRelLater(L: Layout, i: nat, j: nat, st: TState, st': TState)
    requires StateRel(L, i, st, st') && i <= j
    ensures StateRel(L, j, st, st')
  {
    forall id | id in st.env ensures Located(L, j, st.turn, st.env[id]) { LocatedLater(L, i, j, st.turn, st.env[id]); }
    forall c | c in Creations(L.nodes) && LiveAt(L, j, c) ensures Kept(L, st.turn, st.mem, st'.mem, c) {
      if c.index >= i { NotMadeIsKept(L, i, st, st', c); }
    }
  }

  /** What has not been made yet is undefined, so any storage does. */
  lemma NotMadeIsKept(L: Layout, i: nat, st: TState, st': TState, c: Creation)
    requires StateRel(L, i, st, st') && c in Creations(L.nodes) && c.index >= i && c.res in L.home
    ensures Kept(L, st.turn, st.mem, st'.mem, c)
  {
    hide EnvRel, HistLeq, CallerMemory;
    if c.res in L.depth && L.depth[c.res] <= |st.turn| {
      NotMade(L, i, st.turn, st.mem, st'.mem, c, st.turn[..L.depth[c.res]]);
    }
  }

  lemma NotMade(L: Layout, i: nat, T: seq<nat>, mem: Memory, mem': Memory, c: Creation, u: seq<nat>)
    requires MemRel(L, i, T, mem, mem') && c in Creations(L.nodes) && c.index >= i && Along(T, u)
    ensures Untouched(mem, Own(c.res, u))
  {
  }

  lemma LocatedLater(L: Layout, i: nat, j: nat, T: seq<nat>, v: TVal)
    requires Located(L, i, T, v) && i <= j
    ensures Located(L, j, T, v)
  {
    forall t | t in Tensors(v) ensures LocatedT(L, j, T, t) { assert LocatedT(L, i, T, t); }
  }

  lemma {:induction false} EvalMoved(L: Layout, i: nat, T: seq<nat>, E: TEnv, E': TEnv, v: Value)
    requires EnvRel(L, i, T, E, E') && EvalV(v, E).Some?
    ensures EvalV(v, E') == Some(Move(L, EvalV(v, E).value)) && Located(L, i, T, EvalV(v, E).value)
  {
  }

  lemma {:induction false} EvalAllMoved(L: Layout, i: nat, T: seq<nat>, E: TEnv, E': TEnv, vs: seq<Value>)
    requires EnvRel(L, i, T, E, E') && EvalVs(vs, E).Some?
    ensures EvalVs(vs, E') == Some(MoveAll(L, EvalVs(vs, E).value)) && Located(L, i, T, TTuple(EvalVs(vs, E).value))
  {
    if vs != [] {
      EvalMoved(L, i, T, E, E', vs[0]);
      EvalAllMoved(L, i, T, E, E', vs[1..]);
      var x, rest := EvalV(vs[0], E).value, EvalVs(vs[1..], E).value;
      assert ([x] + rest)[1..] == rest;
      forall t | t in Tensors(TTuple([x] + rest)) ensures LocatedT(L, i, T, t) {
        if t in Tensors(x) { assert Located(L, i, T, x); } else { assert t in Tensors(TTuple(rest)); }
      }
    }
  }

  // ---------------------------------------------------------------- reading and writing

  /** A tensor that is live at position i. */
  ghost predicate LiveT(L: Layout, i: nat, T: seq<nat>, t: TensorRef) {
    t.store.Own? ==> exists c :: c in Creations(L.nodes) && Current(L, T, c, t.store) && LiveAt(L, i, c)
  }

  lemma LayoutShape(L: Layout)
    requires LayoutOk(L)
    ensures UniqueResults(L.nodes) && ParamsOnly(L.nodes, L.params) && PlainLoops(L.nodes, L.params)
    ensures ReadLoops(L.nodes, L.params)
  {
    hide UniqueResults, ParamsOnly, PlainLoops, LoopsEndApart, CarriesNone, ReadLoops;
    PlainLoopsRead(L.nodes, L.params);
  }

  lemma LayoutHome(L: Layout, c: Creation)
    requires LayoutOk(L) && c in Creations(L.nodes)
    ensures c.res in L.last && c.res in L.home && c.res in L.need && L.home[c.res] in L.room
    ensures SizeOk(L.need[c.res], L.room[L.home[c.res]])
  {
  }

  lemma ReadRel(L: Layout, i: nat, T: seq<nat>, mem: Memory, mem': Memory, t: TensorRef)
    requires LayoutOk(L) && MemRel(L, i, T, mem, mem') && LiveT(L, i, T, t)
    ensures ContentLeq(Read(mem, t), Read(mem', MoveT(L, t)))
  {
    hide LayoutOk, MemRel;
    var t' := MoveT(L, t);
    if t.store.Own? {
      var c :| c in Creations(L.nodes) && Current(L, T, c, t.store) && LiveAt(L, i, c);
      LayoutHome(L, c);
      LiveKept(L, i, T, mem, mem', c);
      forall k | 0 <= k < Size(t) ensures Leq(Read(mem, t)[k], Read(mem', t')[k]) {
        assert Leq(mem(t.store, t.offset + k), mem'(Own(L.home[c.res], []), t.offset + k));
      }
    } else {
      CallerKept(L, i, T, mem, mem');
      forall k | 0 <= k < Size(t) ensures Leq(Read(mem, t)[k], Read(mem', t')[k]) {
        assert Leq(mem(External(t.store.n), t.offset + k), mem'(External(t.store.n), t.offset + k));
      }
    }
  }

  lemma LiveKept(L: Layout, i: nat, T: seq<nat>, mem: Memory, mem': Memory, c: Creation)
    requires MemRel(L, i, T, mem, mem') && c in Creations(L.nodes) && LiveAt(L, i, c)
    ensures Kept(L, T, mem, mem', c)
  {
  }

  lemma CallerKept(L: Layout, i: nat, T: seq<nat>, mem: Memory, mem': Memory)
    requires MemRel(L, i, T, mem, mem')
    ensures CallerMemory(mem, mem')
  {
  }

  lemma NotTogether(L: Layout, c: Creation, d: Creation)
    requires LayoutOk(L) && c in Creations(L.nodes) && d in Creations(L.nodes) && c.res != d.res
    requires c.res in L.home && d.res in L.home && L.home[c.res] == L.home[d.res] && c.res in L.last && d.res in L.last
    ensures !LiveTogether(L, c, d)
  {
  }

  /** Two live tensors in one storage are the same tensor. */
  lemma LiveAreApart(L: Layout, i: nat, c: Creation, d: Creation)
    requires LayoutOk(L) && c in Creations(L.nodes) && d in Creations(L.nodes)
    requires LiveAt(L, i, c) && LiveAt(L, i, d) && L.home[c.res] == L.home[d.res]
    ensures c.res == d.res
  {
    hide LayoutOk;
    if c.res != d.res { NotTogether(L, c, d); }
  }

  /** A write to one live tensor leaves what every live tensor holds in step. */
  lemma WriteKeeps(L: Layout, i: nat, T: seq<nat>, mem: Memory, mem': Memory, t: TensorRef, bytes: nat -> Option<int>,
                   bytes': nat -> Option<int>, c: Creation)
    requires LayoutOk(L) && LiveT(L, i, T, t) && (forall k :: Leq(bytes(k), bytes'(k)))
    requires c in Creations(L.nodes) && LiveAt(L, i, c) && Kept(L, T, mem, mem', c)
    ensures Kept(L, T, WriteOne(mem, t, bytes), WriteOne(mem', MoveT(L, t), bytes'), c)
  {
    hide LayoutOk;
    var m, m' := WriteOne(mem, t, bytes), WriteOne(mem', MoveT(L, t), bytes');
    if t.store.Own? {
      var d :| d in Creations(L.nodes) && Current(L, T, d, t.store) && LiveAt(L, i, d);
      LayoutHome(L, d);
      if L.home[c.res] == L.home[d.res] { LiveAreApart(L, i, c, d); }
    }
    if c.res in L.depth && L.depth[c.res] <= |T| {
      var s := Own(c.res, T[..L.depth[c.res]]);
      forall b: int ensures Leq(m(s, b), m'(Own(L.home[c.res], []), b)) {
        assert Leq(mem(s, b), mem'(Own(L.home[c.res], []), b));
      }
    }
  }

  lemma WriteUntouched(L: Layout, i: nat, T: seq<nat>, mem: Memory, t: TensorRef, bytes: nat -> Option<int>,
                       c: Creation, u: seq<nat>)
    requires LayoutOk(L) && LiveT(L, i, T, t) && c in Creations(L.nodes) && c.index >= i
    requires Untouched(mem, Own(c.res, u))
    ensures Untouched(WriteOne(mem, t, bytes), Own(c.res, u))
  {
    hide LayoutOk, UniqueResults, Untouched;
    LayoutShape(L);
    if t.store.Own? {
      var d :| d in Creations(L.nodes) && Current(L, T, d, t.store) && LiveAt(L, i, d);
      if d.res == c.res { SameCreation(L.nodes, c, d); }
    }
    UntouchedElsewhere(mem, t, bytes, Own(c.res, u));
  }

  lemma UntouchedElsewhere(mem: Memory, t: TensorRef, bytes: nat -> Option<int>, s: Store)
    requires Untouched(mem, s) && t.store != s
    ensures Untouched(WriteOne(mem, t, bytes), s)
  {
    forall b: int ensures WriteOne(mem, t, bytes)(s, b).None? { assert mem(s, b).None?; }
  }

  lemma WriteCaller(L: Layout, mem: Memory, mem': Memory, t: TensorRef, bytes: nat -> Option<int>,
                    bytes': nat -> Option<int>)
    requires CallerMemory(mem, mem') && (forall k :: Leq(bytes(k), bytes'(k)))
    requires (t.store.Own? ==> MoveT(L, t).store.Own?)
    ensures CallerMemory(WriteOne(mem, t, bytes), WriteOne(mem', MoveT(L, t), bytes'))
  {
    var m, m' := WriteOne(mem, t, bytes), WriteOne(mem', MoveT(L, t), bytes');
    forall n: nat, b: int ensures Leq(m(External(n), b), m'(External(n), b)) {
      assert Leq(mem(External(n), b), mem'(External(n), b));
    }
  }

  /** A write in the private run and the same write in the shared one. */
  lemma WriteRel(L: Layout, i: nat, T: seq<nat>, mem: Memory, mem': Memory, t: TensorRef, bytes: nat -> Option<int>,
                 bytes': nat -> Option<int>)
    requires LayoutOk(L) && MemRel(L, i, T, mem, mem') && LiveT(L, i, T, t) && forall k :: Leq(bytes(k), bytes'(k))
    ensures MemRel(L, i, T, WriteOne(mem, t, bytes), WriteOne(mem', MoveT(L, t), bytes'))
  {
    hide LayoutOk, Kept, Untouched, CallerMemory, LiveT, WriteOne;
    var m, m' := WriteOne(mem, t, bytes), WriteOne(mem', MoveT(L, t), bytes');
    forall c | c in Creations(L.nodes) && LiveAt(L, i, c) ensures Kept(L, T, m, m', c) {
      WriteKeeps(L, i, T, mem, mem', t, bytes, bytes', c);
    }
    forall c, u: seq<nat> | c in Creations(L.nodes) && c.index >= i && Along(T, u) ensures Untouched(m, Own(c.res, u)) {
      WriteUntouched(L, i, T, mem, t, bytes, c, u);
    }
    WriteCaller(L, mem, mem', t, bytes, bytes');
  }

  lemma {:induction false} SameCreation(nodes: seq<Node>, c: Creation, d: Creation)
    requires UniqueResults(nodes) && c in Creations(nodes) && d in Creations(nodes) && c.res == d.res
    ensures c.index == d.index
  {
    assert c.res in ResultsAt(nodes[c.index]) && d.res in ResultsAt(nodes[d.index]);
  }

  lemma {:induction false} WriteAllRel(L: Layout, i: nat, T: seq<nat>, mem: Memory, mem': Memory, ts: seq<TensorRef>,
                                       bytes: (nat, nat) -> Option<int>, bytes': (nat, nat) -> Option<int>, j: nat)
    requires LayoutOk(L) && MemRel(L, i, T, mem, mem') && (forall t <- ts :: LiveT(L, i, T, t)) && j <= |ts|
    requires forall n, k :: Leq(bytes(n, k), bytes'(n, k))
    ensures MemRel(L, i, T, WriteAll(mem, ts, bytes, j), WriteAll(mem', MoveTs(L, ts), bytes', j))
    decreases |ts| - j
  {
    hide LayoutOk, MemRel, LiveT, WriteOne, MoveT;
    if j < |ts| {
      var b, b' := Row(bytes, j), Row(bytes', j);
      WriteRel(L, i, T, mem, mem', ts[j], b, b');
      WriteAllRel(L, i, T, WriteOne(mem, ts[j], b), WriteOne(mem', MoveT(L, ts[j]), b'), ts, bytes, bytes', j + 1);
    }
  }

  // ---------------------------------------------------------------- single ops

  /** What a node refers to is live there. */
  lemma OperandLive(L: Layout, i: nat, T: seq<nat>, E: TEnv, v: Value, t: TensorRef)
    requires LayoutOk(L) && i < |L.nodes| && v in Refs(L.nodes[i]) && EvalV(v, E).Some?
    requires t in Tensors(EvalV(v, E).value)
    requires EnvCovered(L.nodes, L.params, i, E) && LocatedT(L, i, T, t)
    ensures LiveT(L, i, T, t)
  {
    hide LayoutOk, EnvCovered, UniqueResults, ParamsOnly, PlainLoops, ReadLoops, Unread;
    if t.store.Own? {
      LayoutShape(L);
      var c :| c in Creations(L.nodes) && Current(L, T, c, t.store) && c.index < i;
      LayoutHome(L, c);
      OperandOf(L.nodes, L.params, i, v);
      OperandCovered(L.nodes, L.params, i, E, v);
      var P := IsCreated(Creations(L.nodes));
      GraphGrows(L.nodes, i, |L.nodes|);
      ReachesMore(GraphAt(L.nodes, i), GraphAt(L.nodes, |L.nodes|), P, v, Res(c.res));
      LastCovers(L, c, i, v);
    }
  }

  lemma LastCovers(L: Layout, c: Creation, i: nat, v: Value)
    requires LayoutOk(L) && c in Creations(L.nodes) && i < |L.nodes| && v in Refs(L.nodes[i])
    requires Reaches(GraphAt(L.nodes, |L.nodes|), IsCreated(Creations(L.nodes)), v, Res(c.res)) && c.res in L.last
    ensures L.last[c.res] >= i
  {
    assert Refers(GraphAt(L.nodes, |L.nodes|), IsCreated(Creations(L.nodes)), L.nodes[i], c.res);
  }

  lemma {:induction false} OperandsLive(L: Layout, i: nat, T: seq<nat>, E: TEnv, vs: seq<Value>)
    requires LayoutOk(L) && i < |L.nodes| && (forall v <- vs :: v in Refs(L.nodes[i])) && EvalVs(vs, E).Some?
    requires EnvCovered(L.nodes, L.params, i, E) && Located(L, i, T, TTuple(EvalVs(vs, E).value))
    ensures forall t <- AllTensors(EvalVs(vs, E).value) :: LiveT(L, i, T, t)
  {
    hide LayoutOk, EnvCovered;
    var vals := EvalVs(vs, E).value;
    forall t | t in AllTensors(vals) ensures LiveT(L, i, T, t) {
      var k := AllTensorsFrom(vals, t);
      assert t in Tensors(TTuple(vals));
      OperandLive(L, i, T, E, vs[k], t);
    }
  }

  lemma ReadAllRel(L: Layout, i: nat, T: seq<nat>, mem: Memory, mem': Memory, ts: seq<TensorRef>)
    requires LayoutOk(L) && MemRel(L, i, T, mem, mem') && forall t <- ts :: LiveT(L, i, T, t)
    ensures var a, b := ReadAll(mem, ts), ReadAll(mem', MoveTs(L, ts)); forall k :: 0 <= k < |ts| ==>
      ContentLeq(a[k], b[k])
  {
    hide LayoutOk, MemRel, LiveT, ContentLeq;
    forall k | 0 <= k < |ts| ensures ContentLeq(ReadAll(mem, ts)[k], ReadAll(mem', MoveTs(L, ts))[k]) {
      ReadRel(L, i, T, mem, mem', ts[k]);
    }
  }

  lemma HistSnoc(h: History, h': History, e: CallEvent, e': CallEvent)
    requires HistLeq(h, h') && EventLeq(e, e')
    ensures HistLeq(h + [e], h' + [e'])
  {
  }

  /** A call sees the same defined bytes and writes the same defined bytes. */
  lemma CallRel(C: Context, L: Layout, i: nat, op: Op, st: TState, st': TState)
    requires LayoutOk(L) && Robust(C.kernel) && i < |L.nodes| && L.nodes[i] == OpNode(op) && op.CallOp?
    requires StateRel(L, i, st, st') && EnvCovered(L.nodes, L.params, i, st.env) && DoCall(C, op, st).Some?
    ensures DoCall(C, op, st').Some? && StateRel(L, i, DoCall(C, op, st).value, DoCall(C, op, st').value)
  {
    hide LayoutOk, EnvCovered, EnvRel, MemRel, LiveT, Robust, Located, HistLeq, EventLeq;
    var effect := EffectOf(op);
    var refs := Operands(op) + effect.reading + effect.writing;
    var vals, outs := EvalVs(refs, st.env).value, EvalVs(effect.writing, st.env).value;
    EvalAllMoved(L, i, st.turn, st.env, st'.env, refs);
    EvalAllMoved(L, i, st.turn, st.env, st'.env, effect.writing);
    OperandsLive(L, i, st.turn, st.env, refs);
    OperandsLive(L, i, st.turn, st.env, effect.writing);
    AllMovedTensors(L, vals);
    AllMovedTensors(L, outs);
    ReadAllRel(L, i, st.turn, st.mem, st'.mem, AllTensors(vals));
    var e := CallEvent(op.target, DescribeAll(vals), ReadAll(st.mem, AllTensors(vals)));
    var e' := CallEvent(op.target, DescribeAll(MoveAll(L, vals)), ReadAll(st'.mem, AllTensors(MoveAll(L, vals))));
    EventRel(e, e');
    KernelRel(C.kernel, st.hist, st'.hist, e, e');
    WriteAllRel(L, i, st.turn, st.mem, st'.mem, AllTensors(outs), C.kernel(st.hist, e).value,
                C.kernel(st'.hist, e').value, 0);
    HistSnoc(st.hist, st'.hist, e, e');
  }

  lemma EventRel(e: CallEvent, e': CallEvent)
    requires e.target == e'.target && e.args == e'.args && |e.contents| == |e'.contents|
    requires forall k :: 0 <= k < |e.contents| ==> ContentLeq(e.contents[k], e'.contents[k])
    ensures EventLeq(e, e')
  {
  }

  lemma KernelRel(K: Kernel, h: History, h': History, e: CallEvent, e': CallEvent)
    requires Robust(K) && HistLeq(h, h') && EventLeq(e, e') && K(h, e).Some?
    ensures K(h', e').Some? && forall n, k :: Leq(K(h, e).value(n, k), K(h', e').value(n, k))
  {
  }

  /** Own storages have the planned sizes. */
  ghost predicate SizesAre(C: Context, L: Layout) {
    forall c <- Creations(L.nodes) ::
      c.res in L.need && (OwnSize(C, c.spec).Some? ==> OwnSize(C, c.spec).value == L.need[c.res])
  }

  lemma ResultsApart(L: Layout, i: nat)
    requires LayoutOk(L) && i < |L.nodes|
    ensures forall id <- ResultsAt(L.nodes[i]) :: id !in L.room && id !in L.params
  {
    assert L.nodes[i] in L.nodes;
  }

  lemma {:induction false} EnvRelBind(L: Layout, i: nat, T: seq<nat>, E: TEnv, E': TEnv, id: nat, val: TVal)
    requires EnvRel(L, i, T, E, E') && Located(L, i, T, val) && id !in L.room
    ensures EnvRel(L, i, T, E[id := val], E'[id := Move(L, val)])
  {
  }

  lemma {:induction false} CreateRel(C: Context, L: Layout, i: nat, op: Op, st: TState, st': TState)
    requires LayoutOk(L) && SizesAre(C, L) && i < |L.nodes| && L.nodes[i] == OpNode(op) && op.CreateOp?
    requires Uninitialised(op)
    requires op.res in L.depth && L.depth[op.res] == |st.turn|
    requires StateRel(L, i, st, st') && DoCreate(C, op, st).Some?
    ensures Exec(C, LowerOp(L.home, op), st').Some?
    ensures StateRel(L, i + 1, DoCreate(C, op, st).value, Exec(C, LowerOp(L.home, op), st').value)
  {
    hide LayoutOk, MemRel, EnvRel, HistLeq, LocatedT, EvalShape, OwnSize, SizeOk, UniqueResults, Exec, LowerOp;
    var c := Creation(op.res, op.name, op.spec, i);
    LayoutHome(L, c);
    ResultsApart(L, i);
    HomeBound(L, i, st.turn, st.env, st'.env, c);
    PlacedRuns(C, L, i, op, st');
    StateRelLater(L, i, i + 1, st, st');
    var val := DoCreate(C, op, st).value.env[op.res];
    assert st.turn[..|st.turn|] == st.turn;
    CreatedLocated(L, st.turn, c, val.t);
    assert Located(L, i + 1, st.turn, val);
    EnvRelBind(L, i + 1, st.turn, st.env, st'.env, op.res, val);
  }

  /** The lowered creation puts the tensor at the start of its storage. */
  lemma {:induction false} PlacedRuns(C: Context, L: Layout, i: nat, op: Op, st': TState)
    requires op.CreateOp? && op.res in L.home && EvalShape(C.host, op.spec.shape, C.dims).Some?
    requires var s := L.home[op.res]; s in L.room && s in st'.env ==> st'.env[s] == TStorage(Own(s, []), L.room[s])
    ensures var s := L.home[op.res];
      s in L.room && s in st'.env ==>
        var dims := EvalShape(C.host, op.spec.shape, C.dims).value;
        var t := TensorRef(Own(s, []), L.room[s], 0, dims, op.spec.dtype);
        Exec(C, LowerOp(L.home, op), st') == Some(st'.(env := st'.env[op.res := TTensor(t)]))
  {
    hide EvalShape;
  }

  lemma CreatedLocated(L: Layout, T: seq<nat>, c: Creation, t: TensorRef)
    requires c in Creations(L.nodes) && Current(L, T, c, t.store) && c.res in L.need && t.nbytes == L.need[c.res]
    ensures LocatedT(L, c.index + 1, T, t)
  {
  }

  lemma HomeBound(L: Layout, i: nat, T: seq<nat>, E: TEnv, E': TEnv, c: Creation)
    requires EnvRel(L, i, T, E, E') && c.res in L.home && L.home[c.res] in L.room
    ensures L.home[c.res] in E' && E'[L.home[c.res]] == TStorage(Own(L.home[c.res], []), L.room[L.home[c.res]])
  {
  }

  /** A view that fits the tensor's own storage fits the shared one. */
  lemma ViewFits(L: Layout, i: nat, T: seq<nat>, t: TensorRef, offset: int, dims: seq<int>)
    requires LayoutOk(L) && LocatedT(L, i, T, t) && ViewOf(t, offset, dims).Some?
    ensures ViewOf(MoveT(L, t), offset, dims) == Some(MoveT(L, ViewOf(t, offset, dims).value))
    ensures LocatedT(L, i, T, ViewOf(t, offset, dims).value)
  {
    hide LayoutOk, ViewOf, Creations, SizeOk;
    if t.store.Own? {
      var c :| c in Creations(L.nodes) && Current(L, T, c, t.store) && c.index < i && c.res in L.need &&
        t.nbytes == L.need[c.res];
      LayoutHome(L, c);
    } else {
      SameSize(t.nbytes);
    }
    ViewInRoom(t, MoveT(L, t), offset, dims);
  }

  lemma SameSize(n: int)
    ensures SizeOk(n, n)
  {
  }

  /** More room does not hurt. */
  lemma ViewInRoom(t: TensorRef, t': TensorRef, offset: int, dims: seq<int>)
    requires t' == t.(store := t'.store, nbytes := t'.nbytes) && SizeOk(t.nbytes, t'.nbytes)
    requires ViewOf(t, offset, dims).Some?
    ensures var v := ViewOf(t, offset, dims).value;
      v.store == t.store && v.nbytes == t.nbytes &&
      ViewOf(t', offset, dims) == Some(v.(store := t'.store, nbytes := t'.nbytes))
  {
    hide PayloadBytes;
  }

  lemma ViewRel(C: Context, L: Layout, i: nat, op: Op, st: TState, st': TState)
    requires LayoutOk(L) && i < |L.nodes| && L.nodes[i] == OpNode(op) && op.ViewOp?
    requires StateRel(L, i, st, st') && DoView(C, op, st).Some?
    ensures DoView(C, op, st').Some? && StateRel(L, i + 1, DoView(C, op, st).value, DoView(C, op, st').value)
  {
    hide LayoutOk, MemRel, EnvRel, HistLeq, LocatedT, ViewOf;
    EvalMoved(L, i, st.turn, st.env, st'.env, op.base);
    EvalMoved(L, i, st.turn, st.env, st'.env, op.byteOffset);
    var t := EvalV(op.base, st.env).value.t;
    assert t in Tensors(TTensor(t));
    var offset := EvalV(op.byteOffset, st.env).value.c.i * op.byteStride + op.baseOffset;
    var dims := EvalShape(C.host, op.shape, C.dims).value;
    ViewFits(L, i, st.turn, t, offset, dims);
    ResultsApart(L, i);
    StateRelLater(L, i, i + 1, st, st');
    var view := TTensor(ViewOf(t, offset, dims).value);
    assert Located(L, i, st.turn, view);
    LocatedLater(L, i, i + 1, st.turn, view);
    EnvRelBind(L, i + 1, st.turn, st.env, st'.env, op.res, view);
  }

  lemma ItemRel(L: Layout, i: nat, op: Op, st: TState, st': TState)
    requires LayoutOk(L) && i < |L.nodes| && L.nodes[i] == OpNode(op) && op.ItemOp?
    requires StateRel(L, i, st, st') && DoItem(op, st).Some?
    ensures DoItem(op, st').Some? && StateRel(L, i + 1, DoItem(op, st).value, DoItem(op, st').value)
  {
    hide LayoutOk, MemRel, EnvRel, HistLeq, LocatedT;
    EvalMoved(L, i, st.turn, st.env, st'.env, op.tup);
    var fields := EvalV(op.tup, st.env).value.fields;
    var val := fields[op.index];
    forall t | t in Tensors(val) ensures LocatedT(L, i, st.turn, t) { AllTensorsAt(fields, op.index, t); }
    LocatedLater(L, i, i + 1, st.turn, val);
    ResultsApart(L, i);
    StateRelLater(L, i, i + 1, st, st');
    EnvRelBind(L, i + 1, st.turn, st.env, st'.env, op.res, val);
  }

  lemma {:induction false} TupleRel(C: Context, L: Layout, i: nat, op: Op, st: TState, st': TState)
    requires LayoutOk(L) && i < |L.nodes| && L.nodes[i] == OpNode(op) && op.TupleOp?
    requires StateRel(L, i, st, st') && Exec(C, op, st).Some?
    ensures Exec(C, op, st').Some? && StateRel(L, i + 1, Exec(C, op, st).value, Exec(C, op, st').value)
  {
    hide LayoutOk, MemRel, EnvRel, HistLeq, Located;
    EvalAllMoved(L, i, st.turn, st.env, st'.env, op.elems);
    var val := TTuple(EvalVs(op.elems, st.env).value);
    LocatedLater(L, i, i + 1, st.turn, val);
    ResultsApart(L, i);
    StateRelLater(L, i, i + 1, st, st');
    EnvRelBind(L, i + 1, st.turn, st.env, st'.env, op.res, val);
  }

  lemma CheckRel(L: Layout, i: nat, op: Op, st: TState, st': TState)
    requires op.CheckOp? && StateRel(L, i, st, st') && DoCheck(op, st).Some?
    ensures DoCheck(op, st') == Some(st') && DoCheck(op, st) == Some(st) && StateRel(L, i + 1, st, st')
  {
    EvalMoved(L, i, st.turn, st.env, st'.env, op.tensor);
    StateRelLater(L, i, i + 1, st, st');
  }

  lemma {:induction false} SimpleRel(C: Context, L: Layout, i: nat, op: Op, st: TState, st': TState)
    requires Comparable(C, L) && i < |L.nodes| && L.nodes[i] == OpNode(op)
    requires Lowered(op) && !op.IfOp? && !op.ForOp? && Uninitialised(op) && DepthsAre(L.depth, op, |st.turn|)
    requires StateRel(L, i, st, st') && EnvCovered(L.nodes, L.params, i, st.env) && Exec(C, op, st).Some?
    ensures var op' := LowerOp(L.home, op);
      Exec(C, op', st').Some? && StateRel(L, i + 1, Exec(C, op, st).value, Exec(C, op', st').value)
    ensures Exec(C, op, st).value.turn == st.turn
  {
    LeafTurn(C, op, st);
    hide LayoutOk, SizesAre, Robust, StateRel, EnvCovered, DoCreate, DoView, DoCall, DoItem, DoCheck, DoPlace;
    match op
    case CreateOp(_, _, _, _, _) => CreateRel(C, L, i, op, st, st');
    case ViewOp(_, _, _, _, _, _) => ViewRel(C, L, i, op, st, st');
    case CallOp(_, _, _, _) =>
      CallRel(C, L, i, op, st, st');
      StateRelLater(L, i, i + 1, DoCall(C, op, st).value, DoCall(C, op, st').value);
    case CheckOp(_, _, _) => CheckRel(L, i, op, st, st');
    case TupleOp(_, _) => TupleRel(C, L, i, op, st, st');
    case ItemOp(_, _, _) => ItemRel(L, i, op, st, st');
  }

  lemma {:induction false} LeafTurn(C: Context, op: Op, st: TState)
    requires !op.IfOp? && !op.ForOp? && Exec(C, op, st).Some?
    ensures Exec(C, op, st).value.turn == st.turn
  {
  }

  // ---------------------------------------------------------------- control flow

  lemma {:induction false} BindRel(L: Layout, i: nat, T: seq<nat>, E: TEnv, E': TEnv, ids: seq<nat>, vals: seq<TVal>)
    requires EnvRel(L, i, T, E, E') && |ids| == |vals| && (forall id <- ids :: id !in L.room)
    requires Located(L, i, T, TTuple(vals))
    ensures EnvRel(L, i, T, BindVals(E, ids, vals), BindVals(E', ids, MoveAll(L, vals)))
    decreases |ids|
  {
    hide EnvRel, Located;
    if ids != [] {
      LocatedHead(L, i, T, vals);
      EnvRelBind(L, i, T, E, E', ids[0], vals[0]);
      BindRel(L, i, T, E[ids[0] := vals[0]], E'[ids[0] := Move(L, vals[0])], ids[1..], vals[1..]);
      assert MoveAll(L, vals)[1..] == MoveAll(L, vals[1..]);
    }
  }

  lemma LocatedHead(L: Layout, i: nat, T: seq<nat>, vals: seq<TVal>)
    requires vals != [] && Located(L, i, T, TTuple(vals))
    ensures Located(L, i, T, vals[0]) && Located(L, i, T, TTuple(vals[1..]))
  {
    assert forall t <- Tensors(vals[0]) :: t in Tensors(TTuple(vals));
    assert forall t <- Tensors(TTuple(vals[1..])) :: t in Tensors(TTuple(vals));
  }

  /** Leaving a region: the results are bound outside, memory and history are those of the inside. */
  lemma {:induction false} RegionEnds(C: Context, L: Layout, i: nat, j: nat, e: nat, op: Op, r: Region, st: TState,
                                      st': TState, inner: TState, inner': TState)
    requires Comparable(C, L) && i <= j <= e && i < |L.nodes| && L.nodes[i] == OpNode(op) && op.IfOp?
    requires StateRel(L, i, st, st') && StateRel(L, j, inner, inner') && inner.turn == st.turn
    requires EvalVs(r.yielded, inner.env).Some? && |r.yielded| == |op.results|
    ensures var vals := EvalVs(r.yielded, inner.env).value;
      EvalVs(r.yielded, inner'.env) == Some(MoveAll(L, vals)) &&
      StateRel(L, e, inner.(env := BindVals(st.env, op.results, vals)),
               inner'.(env := BindVals(st'.env, op.results, MoveAll(L, vals))))
  {
    hide LayoutOk, EnvRel, MemRel, HistLeq, Located;
    EvalAllMoved(L, j, st.turn, inner.env, inner'.env, r.yielded);
    var vals := EvalVs(r.yielded, inner.env).value;
    StateRelLater(L, j, e, inner, inner');
    StateRelLater(L, i, e, st, st');
    LocatedLater(L, j, e, st.turn, TTuple(vals));
    ResultsApart(L, i);
    BindRel(L, e, st.turn, st.env, st'.env, op.results, vals);
  }

  /** Everything the comparison of the two runs assumes. */
  ghost predicate Comparable(C: Context, L: Layout) {
    LayoutOk(L) && SizesAre(C, L) && Robust(C.kernel)
  }

  lemma {:induction false} RegionRel(C: Context, L: Layout, i: nat, s: nat, e: nat, op: Op, r: Region, st: TState,
                                     st': TState)
    requires Comparable(C, L) && i < s && i < |L.nodes| && L.nodes[i] == OpNode(op) && op.IfOp?
    requires LoweredOps(r.ops) && UninitialisedOps(r.ops) && AllDepths(L.depth, r.ops, |st.turn|)
    requires Segment(L.nodes, s, RegionNodes(r)) && s + |RegionNodes(r)| <= e <= |L.nodes|
    requires Settled(L, s, |st.turn|) && StateRel(L, i, st, st') && EnvCovered(L.nodes, L.params, i, st.env)
    requires ExecRegion(C, r, op.results, st).Some?
    ensures var r' := LowerRegion(L.home, r);
      ExecRegion(C, r', op.results, st').Some? &&
      StateRel(L, e, ExecRegion(C, r, op.results, st).value, ExecRegion(C, r', op.results, st').value)
    ensures ExecRegion(C, r, op.results, st).value.turn == st.turn
    decreases r, 0
  {
    hide Comparable, EnvCovered, StateRel, ExecOps, RegionNodes, OpsNodes, LoweredOps, UninitialisedOps, LowerOps,
         UniqueResults, ParamsOnly, PlainLoops, ReadLoops, AllDepths, Settled;
    RegionSegments(L.nodes, s, r);
    ComparableShape(C, L);
    EnvCoveredLater(L.nodes, L.params, i, s, st.env);
    StateRelLater(L, i, s, st, st');
    OpsRel(C, L, s, r.ops, st, st');
    var inner, inner' := ExecOps(C, r.ops, st).value, ExecOps(C, LowerOps(L.home, r.ops), st').value;
    RegionEnds(C, L, i, s + |OpsNodes(r.ops)|, e, op, r, st, st', inner, inner');
  }

  lemma ComparableShape(C: Context, L: Layout)
    requires Comparable(C, L)
    ensures UniqueResults(L.nodes) && ParamsOnly(L.nodes, L.params) && PlainLoops(L.nodes, L.params) && LayoutOk(L)
    ensures ReadLoops(L.nodes, L.params)
  {
    hide LayoutOk, UniqueResults, ParamsOnly, PlainLoops, ReadLoops;
    LayoutShape(L);
  }

  // ---------------------------------------------------------------- loops

  /** Whatever was made in loops that do not go around position i is no longer in use. */
  ghost predicate Settled(L: Layout, i: nat, d: nat) {
    forall c <- Creations(L.nodes) :: c.index < i && c.res in L.depth && L.depth[c.res] > d && c.res in L.last ==>
      L.last[c.res] < i
  }

  lemma SettledNext(L: Layout, i: nat, op: Op, d: nat)
    requires LayoutOk(L) && i < |L.nodes| && L.nodes[i] == OpNode(op) && Settled(L, i, d)
    requires op.CreateOp? ==> op.res in L.depth && L.depth[op.res] == d
    ensures Settled(L, i + 1, d)
  {
    hide LayoutOk;
  }

  lemma SettledYield(L: Layout, i: nat, d: nat)
    requires i < |L.nodes| && L.nodes[i].YieldNode? && Settled(L, i, d)
    ensures Settled(L, i + 1, d)
  {
  }

  lemma {:induction false} SettledLoop(L: Layout, i: nat, op: Op, d: nat)
    requires LayoutOk(L) && Segment(L.nodes, i, OpNodes(op)) && op.ForOp? && Settled(L, i, d)
    ensures Settled(L, i + |OpNodes(op)|, d)
  {
    hide UniqueResults, ParamsOnly, PlainLoops, ReadLoops, OpNodes;
    SegmentHead(L.nodes, i, OpNodes(op));
    assert EndsApart(L, i, op);
  }

  lemma {:induction false} SettledRegion(L: Layout, i: nat, r: Region, d: nat)
    requires LayoutOk(L) && Segment(L.nodes, i, RegionNodes(r)) && AllDepths(L.depth, r.ops, d) && Settled(L, i, d)
    ensures Settled(L, i + |RegionNodes(r)|, d)
    decreases r, 0
  {
    hide LayoutOk, Settled, AllDepths, OpsNodes;
    RegionSegments(L.nodes, i, r);
    SettledOps(L, i, r.ops, d);
    SettledYield(L, i + |OpsNodes(r.ops)|, d);
  }

  lemma {:induction false} SettledOp(L: Layout, i: nat, op: Op, d: nat)
    requires LayoutOk(L) && Segment(L.nodes, i, OpNodes(op)) && DepthsAre(L.depth, op, d) && Settled(L, i, d)
    ensures Settled(L, i + |OpNodes(op)|, d)
    decreases op, 1
  {
    hide LayoutOk, Settled, RegionNodes, AllDepths;
    SegmentHead(L.nodes, i, OpNodes(op));
    if op.IfOp? {
      BranchSegments(L.nodes, i, op);
      SettledNext(L, i, op, d);
      SettledRegion(L, i + 1, op.thn, d);
      if op.els.Some? { SettledRegion(L, i + 1 + |RegionNodes(op.thn)|, op.els.value, d); }
    } else if op.ForOp? {
      SettledLoop(L, i, op, d);
    } else {
      SettledNext(L, i, op, d);
    }
  }

  lemma {:induction false} SettledOps(L: Layout, i: nat, ops: seq<Op>, d: nat)
    requires LayoutOk(L) && Segment(L.nodes, i, OpsNodes(ops)) && AllDepths(L.depth, ops, d) && Settled(L, i, d)
    ensures Settled(L, i + |OpsNodes(ops)|, d)
    decreases ops, 0
  {
    hide LayoutOk, Settled, OpNodes, DepthsAre;
    if ops != [] {
      SegmentParts(L.nodes, i, OpNodes(ops[0]), OpsNodes(ops[1..]));
      SettledOp(L, i, ops[0], d);
      SettledOps(L, i + |OpNodes(ops[0])|, ops[1..], d);
    }
  }

  /** Between rounds: tensors from before the loop that are still in use, and the caller's, are in step. */
  ghost predicate LoopMem(L: Layout, i: nat, T: seq<nat>, mem: Memory, mem': Memory) {
    (forall c <- Creations(L.nodes) :: c.index < i && LiveAt(L, i + 1, c) ==> Kept(L, T, mem, mem', c)) &&
    CallerMemory(mem, mem')
  }

  /** Nothing has been written to what round k and later ones, and later code, will make. */
  ghost predicate Ahead(L: Layout, i: nat, T: seq<nat>, k: nat, mem: Memory) {
    forall c, u: seq<nat> :: c in Creations(L.nodes) && c.index > i && NotBefore(T, k, u) ==>
      Untouched(mem, Own(c.res, u))
  }

  predicate NotBefore(T: seq<nat>, k: nat, u: seq<nat>) {
    u <= T || (|u| > |T| && T <= u && u[|T|] >= k)
  }

  /** What holds before every round. */
  ghost predicate LoopRel(L: Layout, i: nat, k: nat, st: TState, st': TState) {
    st.turn == st'.turn && EnvRel(L, i, st.turn, st.env, st'.env) && LoopMem(L, i, st.turn, st.mem, st'.mem) &&
    Ahead(L, i, st.turn, k, st.mem) && HistLeq(st.hist, st'.hist)
  }

  lemma LoopStarts(L: Layout, i: nat, op: Op, st: TState, st': TState)
    requires i < |L.nodes| && L.nodes[i] == OpNode(op) && op.ForOp? && StateRel(L, i, st, st')
    ensures LoopRel(L, i, 0, st, st')
  {
    hide Kept, Untouched, CallerMemory, HistLeq, EnvRel;
    forall c, u: seq<nat> | c in Creations(L.nodes) && c.index > i && NotBefore(st.turn, 0, u)
      ensures Untouched(st.mem, Own(c.res, u))
    {
      assert Along(st.turn, u);
    }
  }

  /** In a deeper turn the older tensors are where they were. */
  lemma KeptDeeper(L: Layout, i: nat, T: seq<nat>, k: nat, mem: Memory, mem': Memory, c: Creation)
    requires Settled(L, i, |T|) && c in Creations(L.nodes) && c.index < i && LiveAt(L, i + 1, c)
    ensures Kept(L, T, mem, mem', c) <==> Kept(L, T + [k], mem, mem', c)
  {
    if c.res in L.depth && L.depth[c.res] <= |T| {
      assert (T + [k])[..L.depth[c.res]] == T[..L.depth[c.res]];
    }
  }

  lemma NotCreatedHere(L: Layout, i: nat, op: Op, c: Creation)
    requires i < |L.nodes| && L.nodes[i] == OpNode(op) && op.ForOp? && c in Creations(L.nodes)
    ensures c.index != i
  {
  }

  lemma {:induction false} BindEnv(L: Layout, i: nat, T: seq<nat>, op: Op, x: int, vals: seq<TVal>, E: TEnv, E': TEnv)
    requires op.ForOp? && |vals| == |op.iters| && EnvRel(L, i, T, E, E') && Located(L, i, T, TTuple(vals))
    requires op.loopVar !in L.room && forall id <- Vars(op.iters) :: id !in L.room
    ensures EnvRel(L, i, T, BindVals(E[op.loopVar := TScalar(Int(x))], Vars(op.iters), vals),
                   BindVals(E'[op.loopVar := TScalar(Int(x))], Vars(op.iters), MoveAll(L, vals)))
  {
    hide EnvRel, Located;
    EnvRelBind(L, i, T, E, E', op.loopVar, TScalar(Int(x))) by { ScalarLocated(L, i, T, x); }
    BindRel(L, i, T, E[op.loopVar := TScalar(Int(x))], E'[op.loopVar := TScalar(Int(x))], Vars(op.iters), vals);
  }

  lemma ScalarLocated(L: Layout, i: nat, T: seq<nat>, x: int)
    ensures Located(L, i, T, TScalar(Int(x)))
  {
  }

  lemma EnvDeeper(L: Layout, i: nat, T: seq<nat>, k: nat, E: TEnv, E': TEnv)
    requires EnvRel(L, i, T, E, E')
    ensures EnvRel(L, i + 1, T + [k], E, E')
  {
    hide Move;
    forall id | id in E ensures Located(L, i + 1, T + [k], E[id]) {
      assert Located(L, i, T, E[id]);
      forall t | t in Tensors(E[id]) ensures LocatedT(L, i + 1, T + [k], t) { DeeperT(L, i, T, k, t); }
    }
  }

  lemma DeeperT(L: Layout, i: nat, T: seq<nat>, k: nat, t: TensorRef)
    requires LocatedT(L, i, T, t)
    ensures LocatedT(L, i + 1, T + [k], t)
  {
    if t.store.Own? {
      var c :| c in Creations(L.nodes) && Current(L, T, c, t.store) && c.index < i && c.res in L.need &&
        t.nbytes == L.need[c.res];
      assert (T + [k])[..L.depth[c.res]] == T[..L.depth[c.res]];
      assert Current(L, T + [k], c, t.store);
    }
  }

  lemma NoneHeldLocated(L: Layout, i: nat, T: seq<nat>, vals: seq<TVal>)
    requires forall v <- vals :: !Holds(v)
    ensures Located(L, i, T, TTuple(vals))
  {
    forall t | t in Tensors(TTuple(vals)) ensures LocatedT(L, i, T, t) {
      var k := AllTensorsFrom(vals, t);
      assert !Holds(vals[k]);
    }
  }

  lemma LoopVarsApart(L: Layout, i: nat, op: Op)
    requires LayoutOk(L) && i < |L.nodes| && L.nodes[i] == OpNode(op) && op.ForOp?
    ensures op.loopVar !in L.room && forall id <- Vars(op.iters) :: id !in L.room
  {
    hide UniqueResults, ParamsOnly, LoopsEndApart, CarriesNone;
    PlainLoop(L.nodes, L.params, i, op);
  }

  /** A round starts in step. */
  lemma {:induction false} RoundStarts(L: Layout, i: nat, op: Op, x: int, vals: seq<TVal>, k: nat, st: TState,
                                       st': TState)
    requires LayoutOk(L) && i < |L.nodes| && L.nodes[i] == OpNode(op) && op.ForOp? && |vals| == |op.iters|
    requires Settled(L, i, |st.turn|) && LoopRel(L, i, k, st, st') && forall v <- vals :: !Holds(v)
    ensures Settled(L, i + 1, |st.turn| + 1)
    ensures StateRel(L, i + 1, EnterBody(op, x, vals, k, st),
                     EnterBody(LowerOp(L.home, op), x, MoveAll(L, vals), k, st'))
  {
    hide LayoutOk, EnvRel, Kept, Untouched, CallerMemory, HistLeq, Holds;
    var T := st.turn;
    LoopVarsApart(L, i, op);
    EnvDeeper(L, i, T, k, st.env, st'.env);
    NoneHeldLocated(L, i + 1, T + [k], vals);
    BindEnv(L, i + 1, T + [k], op, x, vals, st.env, st'.env);
    forall c | c in Creations(L.nodes) && LiveAt(L, i + 1, c) ensures Kept(L, T + [k], st.mem, st'.mem, c) {
      NotCreatedHere(L, i, op, c);
      KeptDeeper(L, i, T, k, st.mem, st'.mem, c);
    }
    forall c, u: seq<nat> | c in Creations(L.nodes) && c.index >= i + 1 && Along(T + [k], u)
      ensures Untouched(st.mem, Own(c.res, u))
    {
      OnTheWay(T, k, u);
    }
  }

  lemma OnTheWay(T: seq<nat>, k: nat, u: seq<nat>)
    requires Along(T + [k], u)
    ensures NotBefore(T, k, u)
  {
    if T + [k] <= u { assert u[|T|] == k; }
  }

  /** The storages that a stretch of code can name: those of older tensors, the caller's, its own. */
  ghost function Reach(L: Layout, i: nat, made: set<nat>, T: seq<nat>): iset<Store> {
    iset s: Store | s.External? || (s.Own? && ((s.res in made && T <= s.turn) || ResBefore(L, i, s.res)))
  }

  ghost predicate ResBefore(L: Layout, i: nat, res: nat) {
    exists c :: c in Creations(L.nodes) && c.index < i && c.res == res
  }

  lemma EnvReach(L: Layout, i: nat, T: seq<nat>, made: set<nat>, U: seq<nat>, E: TEnv, E': TEnv)
    requires EnvRel(L, i, T, E, E')
    ensures KnowsEnv(Reach(L, i, made, U), E)
  {
    forall id, t | id in E && t in Tensors(E[id]) ensures t.store in Reach(L, i, made, U) {
      assert Located(L, i, T, E[id]) && LocatedT(L, i, T, t);
    }
  }

  lemma {:induction false} MadeOpsAt(nodes: seq<Node>, i: nat, ops: seq<Op>, res: nat) returns (c: Creation)
    requires Segment(nodes, i, OpsNodes(ops)) && res in MadeOps(ops)
    ensures c in Creations(nodes) && c.res == res && i <= c.index < i + |OpsNodes(ops)|
    decreases ops, 0
  {
    hide Made, OpNodes, Creations;
    SegmentParts(nodes, i, OpNodes(ops[0]), OpsNodes(ops[1..]));
    if res in Made(ops[0]) {
      c := MadeAt(nodes, i, ops[0], res);
    } else {
      c := MadeOpsAt(nodes, i + |OpNodes(ops[0])|, ops[1..], res);
    }
  }

  lemma {:induction false} MadeAt(nodes: seq<Node>, i: nat, op: Op, res: nat) returns (c: Creation)
    requires Segment(nodes, i, OpNodes(op)) && res in Made(op)
    ensures c in Creations(nodes) && c.res == res && i <= c.index < i + |OpNodes(op)|
    decreases op, 1
  {
    hide MadeOps, OpsNodes;
    SegmentHead(nodes, i, OpNodes(op));
    if op.IfOp? {
      BranchSegments(nodes, i, op);
      RegionSegments(nodes, i + 1, op.thn);
      if res in MadeOps(op.thn.ops) {
        c := MadeOpsAt(nodes, i + 1, op.thn.ops, res);
      } else {
        RegionSegments(nodes, i + 1 + |RegionNodes(op.thn)|, op.els.value);
        c := MadeOpsAt(nodes, i + 1 + |RegionNodes(op.thn)|, op.els.value.ops, res);
      }
    } else if op.ForOp? {
      LoopSegments(nodes, i, op);
      c := MadeOpsAt(nodes, i + 1, op.body.ops, res);
    } else {
      c := Creation(op.res, op.name, op.spec, i);
    }
  }

  /** These results belong to creations before position n. */
  ghost predicate MadeBefore(nodes: seq<Node>, n: nat, made: set<nat>) {
    forall res <- made :: exists c :: c in Creations(nodes) && c.res == res && c.index < n
  }

  /** A later creation's storages are out of reach, except its own in this turn. */
  lemma OutOfReach(L: Layout, i: nat, n: nat, T: seq<nat>, made: set<nat>, c: Creation, u: seq<nat>)
    requires LayoutOk(L) && MadeBefore(L.nodes, n, made) && c in Creations(L.nodes) && c.index >= i
    requires !(T <= u) || c.index >= n
    ensures Own(c.res, u) !in Reach(L, i, made, T)
  {
    hide LayoutOk, UniqueResults, Creations;
    LayoutShape(L);
    if ResBefore(L, i, c.res) {
      var d :| d in Creations(L.nodes) && d.index < i && d.res == c.res;
      SameCreation(L.nodes, c, d);
    }
    if c.res in made && T <= u {
      var d :| d in Creations(L.nodes) && d.res == c.res && d.index < n;
      SameCreation(L.nodes, c, d);
    }
  }

  lemma {:induction false} MadeInside(nodes: seq<Node>, i: nat, op: Op)
    requires op.ForOp? && Segment(nodes, i, OpNodes(op))
    ensures MadeBefore(nodes, i + |OpNodes(op)|, Made(op)) && Made(op) == MadeOps(op.body.ops)
  {
    hide MadeOps, OpNodes, Creations;
    forall res | res in Made(op)
      ensures exists c :: c in Creations(nodes) && c.res == res && c.index < i + |OpNodes(op)| {
      var c := MadeAt(nodes, i, op, res);
    }
  }

  lemma UntouchedOutside(K: iset<Store>, mem: Memory, mem': Memory, s: Store)
    requires SameOutside(K, mem, mem') && s !in K && Untouched(mem, s)
    ensures Untouched(mem', s)
  {
    forall b: int ensures mem'(s, b).None? { assert mem(s, b).None? && mem'(s, b) == mem(s, b); }
  }

  lemma ReachAllows(L: Layout, i: nat, made: set<nat>, T: seq<nat>)
    ensures Allows(Reach(L, i, made, T), made, T)
  {
  }

  /** After a round, later rounds still find their storages untouched. */
  lemma {:induction false} AheadAfterRound(C: Context, L: Layout, i: nat, op: Op, k: nat, st: TState, start: TState,
                                           start': TState)
    requires LayoutOk(L) && Segment(L.nodes, i, OpNodes(op)) && op.ForOp? && Lowered(op)
    requires Ahead(L, i, st.turn, k, st.mem) && start.mem == st.mem && start.turn == st.turn + [k]
    requires EnvRel(L, i + 1, start.turn, start.env, start'.env) && ExecOps(C, op.body.ops, start).Some?
    ensures Ahead(L, i, st.turn, k + 1, ExecOps(C, op.body.ops, start).value.mem)
  {
    hide LayoutOk, EnvRel, ExecOps, Untouched, MadeOps, OpsNodes, OpNodes, LoweredOps, Reach, SameOutside, Allows;
    LoopSegments(L.nodes, i, op);
    MadeInside(L.nodes, i, op);
    var T, made := st.turn, MadeOps(op.body.ops);
    var K := Reach(L, i + 1, made, start.turn);
    EnvReach(L, i + 1, start.turn, made, start.turn, start.env, start'.env);
    ReachAllows(L, i + 1, made, start.turn);
    OpsFrame(C, K, op.body.ops, start);
    var mem := ExecOps(C, op.body.ops, start).value.mem;
    forall c, u: seq<nat> | c in Creations(L.nodes) && c.index > i && NotBefore(T, k + 1, u)
      ensures Untouched(mem, Own(c.res, u))
    {
      assert NotBefore(T, k, u) && Untouched(st.mem, Own(c.res, u));
      assert start.turn[|T|] == k;
      OutOfReach(L, i + 1, i + |OpNodes(op)|, start.turn, made, c, u);
      UntouchedOutside(K, st.mem, mem, Own(c.res, u));
    }
  }

  /** A round leaves older tensors that are still in use in step. */
  lemma {:induction false} RoundEnds(L: Layout, i: nat, op: Op, k: nat, T: seq<nat>, inner: TState, inner': TState)
    requires LayoutOk(L) && Segment(L.nodes, i, OpNodes(op)) && op.ForOp? && Settled(L, i, |T|)
    requires inner.turn == T + [k] && StateRel(L, i + |OpNodes(op)| - 1, inner, inner')
    ensures LoopMem(L, i, T, inner.mem, inner'.mem)
  {
    hide UniqueResults, ParamsOnly, PlainLoops, ReadLoops, EnvRel, Kept, Untouched, CallerMemory, HistLeq, OpNodes;
    SegmentHead(L.nodes, i, OpNodes(op));
    assert EndsApart(L, i, op);
    LoopSegments(L.nodes, i, op);
    var e := i + |OpNodes(op)| - 1;
    forall c | c in Creations(L.nodes) && c.index < i && LiveAt(L, i + 1, c)
      ensures Kept(L, T, inner.mem, inner'.mem, c) {
      assert LiveAt(L, e, c);
      KeptDeeper(L, i, T, k, inner.mem, inner'.mem, c);
    }
  }

  /** One round of a loop leaves the two runs ready for the next one. */
  lemma {:induction false} RoundRel(C: Context, L: Layout, i: nat, op: Op, x: int, vals: seq<TVal>, k: nat, st: TState,
                                    st': TState)
    requires Comparable(C, L) && Segment(L.nodes, i, OpNodes(op)) && op.ForOp? && i + 1 <= |L.nodes|
    requires Lowered(op) && Uninitialised(op) && DepthsAre(L.depth, op, |st.turn|) && Settled(L, i, |st.turn|)
    requires LoopRel(L, i, k, st, st') && EnvCovered(L.nodes, L.params, i + 1, st.env) && forall v <- vals :: !Holds(v)
    requires |vals| == |op.iters| && ExecOps(C, op.body.ops, EnterBody(op, x, vals, k, st)).Some?
    requires EvalVs(op.body.yielded, ExecOps(C, op.body.ops, EnterBody(op, x, vals, k, st)).value.env).Some?
    ensures var op' := LowerOp(L.home, op);
      op'.ForOp? && |MoveAll(L, vals)| == |op'.iters| && op'.body.yielded == op.body.yielded &&
      ExecOps(C, op'.body.ops, EnterBody(op', x, MoveAll(L, vals), k, st')).Some?
    ensures var inner := ExecOps(C, op.body.ops, EnterBody(op, x, vals, k, st)).value;
      var op' := LowerOp(L.home, op);
      var inner' := ExecOps(C, op'.body.ops, EnterBody(op', x, MoveAll(L, vals), k, st')).value;
      var next := EvalVs(op.body.yielded, inner.env).value;
      EvalVs(op.body.yielded, inner'.env) == Some(MoveAll(L, next)) && (forall v <- next :: !Holds(v)) &&
      LoopRel(L, i, k + 1, inner.(env := st.env, turn := st.turn), inner'.(env := st'.env, turn := st'.turn))
    decreases op, 0, 0
  {
    hide Comparable, EnvCovered, EnvRel, MemRel, ExecOps, OpNodes, OpsNodes, Lowered, Uninitialised, LowerOps,
         AllDepths, LowerOp, DepthsAre, Settled, LoopMem, Ahead, Holds, HistLeq, UniqueResults, ParamsOnly, PlainLoops,
         ReadLoops,
         LayoutOk, CarriesNone, Segment;
    ComparableShape(C, L);
    LoopSegments(L.nodes, i, op);
    LoopParts(L.home, L.depth, op, |st.turn|);
    PlainLoop(L.nodes, L.params, i, op);
    var op' := LowerOp(L.home, op);
    var start, start' := EnterBody(op, x, vals, k, st), EnterBody(op', x, MoveAll(L, vals), k, st');
    RoundStarts(L, i, op, x, vals, k, st, st');
    EnterCovered(L.nodes, L.params, i + 1, op, x, vals, k, st);
    OpsRel(C, L, i + 1, op.body.ops, start, start');
    OpsCovered(C, L.nodes, L.params, i + 1, op.body.ops, start);
    var inner, inner' := ExecOps(C, op.body.ops, start).value, ExecOps(C, op'.body.ops, start').value;
    var e := i + 1 + |OpsNodes(op.body.ops)|;
    CarriedHoldNone(L.nodes, L.params, e, op, inner.env, op.body.yielded, e);
    EvalAllMoved(L, e, inner.turn, inner.env, inner'.env, op.body.yielded);
    RoundEnds(L, i, op, k, st.turn, inner, inner');
    AheadAfterRound(C, L, i, op, k, st, start, start');
  }

  /** All rounds: the lowered loop carries the same values and leaves older tensors in step. */
  lemma {:induction false} RoundsRel(C: Context, L: Layout, i: nat, op: Op, range: Range, vals: seq<TVal>, k: nat,
                                     st: TState, st': TState)
    requires Comparable(C, L) && Segment(L.nodes, i, OpNodes(op)) && op.ForOp? && i + 1 <= |L.nodes|
    requires Lowered(op) && Uninitialised(op) && DepthsAre(L.depth, op, |st.turn|) && Settled(L, i, |st.turn|)
    requires LoopRel(L, i, k, st, st') && EnvCovered(L.nodes, L.params, i + 1, st.env) && forall v <- vals :: !Holds(v)
    requires ExecLoop(C, op, range, vals, k, st).Some?
    ensures var r := ExecLoop(C, op, range, vals, k, st).value;
      var r' := ExecLoop(C, LowerOp(L.home, op), range, MoveAll(L, vals), k, st');
      r'.Some? && r'.value.0 == MoveAll(L, r.0) && (forall v <- r.0 :: !Holds(v)) &&
      r.1.turn == r'.value.1.turn == st.turn && LoopMem(L, i, st.turn, r.1.mem, r'.value.1.mem) &&
      HistLeq(r.1.hist, r'.value.1.hist)
    decreases op, 0, if range.end >= range.start then range.end - range.start else 0
  {
    hide Comparable, EnvCovered, ExecOps, OpNodes, Lowered, Uninitialised, LowerOp, DepthsAre, Settled, LoopMem,
         LayoutOk,
         EnvRel, Ahead, Holds, HistLeq, Segment, EvalVs, EnterBody;
    if range.start < range.end {
      var x, op' := range.start, LowerOp(L.home, op);
      RoundRel(C, L, i, op, x, vals, k, st, st');
      var inner := ExecOps(C, op.body.ops, EnterBody(op, x, vals, k, st)).value;
      var inner' := ExecOps(C, op'.body.ops, EnterBody(op', x, MoveAll(L, vals), k, st')).value;
      RoundsRel(C, L, i, op, range.(start := x + range.step), EvalVs(op.body.yielded, inner.env).value, k + 1,
                inner.(env := st.env, turn := st.turn), inner'.(env := st'.env, turn := st'.turn));
    } else {
      LoopParts(L.home, L.depth, op, |st.turn|);
    }
  }

  lemma {:induction false} LoopParts(home: map<nat, nat>, depth: map<nat, nat>, op: Op, d: nat)
    requires op.ForOp? && Lowered(op) && Uninitialised(op) && DepthsAre(depth, op, d)
    ensures LoweredOps(op.body.ops) && UninitialisedOps(op.body.ops) && AllDepths(depth, op.body.ops, d + 1)
    ensures var op' := LowerOp(home, op);
      op'.ForOp? && op'.body.ops == LowerOps(home, op.body.ops) && op'.body.yielded == op.body.yielded &&
      op'.bounds == op.bounds && op'.iters == op.iters && op'.results == op.results && op'.loopVar == op.loopVar
  {
    hide LoweredOps, UninitialisedOps, AllDepths, LowerOps;
  }

  /** After the loop. */
  lemma {:induction false} LoopLeaves(C: Context, L: Layout, i: nat, op: Op, st: TState, st': TState, vals: seq<TVal>,
                                      mem: Memory, mem': Memory)
    requires LayoutOk(L) && Segment(L.nodes, i, OpNodes(op)) && op.ForOp? && StateRel(L, i, st, st')
    requires LoopMem(L, i, st.turn, mem, mem') && SameOutside(Reach(L, i, Made(op), st.turn), st.mem, mem)
    ensures MemRel(L, i + |OpNodes(op)|, st.turn, mem, mem')
  {
    hide UniqueResults, ParamsOnly, PlainLoops, ReadLoops, EnvRel, Kept, Untouched, CallerMemory, HistLeq, OpNodes,
         Reach,
         SameOutside, Made;
    SegmentHead(L.nodes, i, OpNodes(op));
    assert EndsApart(L, i, op);
    MadeInside(L.nodes, i, op);
    var n, T := i + |OpNodes(op)|, st.turn;
    forall c | c in Creations(L.nodes) && LiveAt(L, n, c) ensures Kept(L, T, mem, mem', c) {
      NotCreatedHere(L, i, op, c);
      assert LiveAt(L, i + 1, c);
    }
    forall c, u: seq<nat> | c in Creations(L.nodes) && c.index >= n && Along(T, u)
      ensures Untouched(mem, Own(c.res, u)) {
      NotMade(L, i, T, st.mem, st'.mem, c, u);
      OutOfReach(L, i, n, T, Made(op), c, u);
      UntouchedOutside(Reach(L, i, Made(op), T), st.mem, mem, Own(c.res, u));
    }
  }

  lemma {:induction false} MoveScalars(L: Layout, vals: seq<TVal>)
    requires forall v <- vals :: v.TScalar?
    ensures MoveAll(L, vals) == vals
  {
    if vals != [] { MoveScalars(L, vals[1..]); }
  }

  lemma BoundsRel(L: Layout, i: nat, T: seq<nat>, E: TEnv, E': TEnv, bounds: seq<Value>)
    requires EnvRel(L, i, T, E, E') && LoopRange(bounds, E).Some?
    ensures LoopRange(bounds, E') == LoopRange(bounds, E)
  {
    hide EnvRel;
    EvalAllMoved(L, i, T, E, E', bounds);
    var vals := EvalVs(bounds, E).value;
    forall v | v in vals ensures v.TScalar? { var k :| 0 <= k < |vals| && vals[k] == v; }
    MoveScalars(L, vals);
  }

  lemma {:induction false} ForRel(C: Context, L: Layout, i: nat, op: Op, st: TState, st': TState)
    requires Comparable(C, L) && Segment(L.nodes, i, OpNodes(op)) && op.ForOp?
    requires Lowered(op) && Uninitialised(op) && DepthsAre(L.depth, op, |st.turn|) && Settled(L, i, |st.turn|)
    requires StateRel(L, i, st, st') && EnvCovered(L.nodes, L.params, i, st.env) && Exec(C, op, st).Some?
    ensures var op' := LowerOp(L.home, op);
      i + |OpNodes(op)| <= |L.nodes| && Exec(C, op', st').Some? &&
      StateRel(L, i + |OpNodes(op)|, Exec(C, op, st).value, Exec(C, op', st').value)
    ensures Exec(C, op, st).value.turn == st.turn
    decreases op, 0
  {
    hide Comparable, EnvCovered, EnvRel, MemRel, ExecLoop, OpNodes, Lowered, Uninitialised, LowerOps, AllDepths,
         Settled, LoopMem, LoopRel, Holds, HistLeq, UniqueResults, ParamsOnly, PlainLoops, ReadLoops, LayoutOk,
         CarriesNone,
         Segment, Located, DepthsAre, Refs, BindVals, Made, Reach, SameOutside;
    ComparableShape(C, L);
    LoopSegments(L.nodes, i, op);
    LoopParts(L.home, L.depth, op, |st.turn|);
    PlainLoop(L.nodes, L.params, i, op);
    var range, inits := LoopRange(op.bounds, st.env).value, EvalVs(Inits(op.iters), st.env).value;
    BoundsRel(L, i, st.turn, st.env, st'.env, op.bounds);
    EvalAllMoved(L, i, st.turn, st.env, st'.env, Inits(op.iters));
    InitsAreRefs(L.nodes, i, op);
    CarriedHoldNone(L.nodes, L.params, i, op, st.env, Inits(op.iters), i);
    EnvCoveredLater(L.nodes, L.params, i, i + 1, st.env);
    LoopStarts(L, i, op, st, st');
    RoundsRel(C, L, i, op, range, inits, 0, st, st');
    var (vals, after) := ExecLoop(C, op, range, inits, 0, st).value;
    var (vals', after') := ExecLoop(C, LowerOp(L.home, op), range, MoveAll(L, inits), 0, st').value;
    ForFrame(C, L, i, op, st, st');
    LoopLeaves(C, L, i, op, st, st', vals, after.mem, after'.mem);
    var e := i + |OpNodes(op)|;
    StateRelLater(L, i, e, st, st');
    if op.results != [] {
      ResultsApart(L, i);
      NoneHeldLocated(L, e, st.turn, vals);
      BindRel(L, e, st.turn, st.env, st'.env, op.results, vals);
    }
  }

  lemma {:induction false} ForFrame(C: Context, L: Layout, i: nat, op: Op, st: TState, st': TState)
    requires op.ForOp? && Lowered(op) && StateRel(L, i, st, st') && Exec(C, op, st).Some?
    ensures SameOutside(Reach(L, i, Made(op), st.turn), st.mem, Exec(C, op, st).value.mem)
  {
    hide Exec, EnvRel, MemRel, HistLeq, Made, Reach, SameOutside, Lowered;
    EnvReach(L, i, st.turn, Made(op), st.turn, st.env, st'.env);
    ReachAllows(L, i, Made(op), st.turn);
    OpFrame(C, Reach(L, i, Made(op), st.turn), op, st);
  }

  lemma {:induction false} IfRel(C: Context, L: Layout, i: nat, op: Op, st: TState, st': TState)
    requires Comparable(C, L) && Segment(L.nodes, i, OpNodes(op)) && op.IfOp?
    requires Lowered(op) && Uninitialised(op) && DepthsAre(L.depth, op, |st.turn|) && Settled(L, i, |st.turn|)
    requires StateRel(L, i, st, st') && EnvCovered(L.nodes, L.params, i, st.env) && Exec(C, op, st).Some?
    ensures var op' := LowerOp(L.home, op);
      i + |OpNodes(op)| <= |L.nodes| && Exec(C, op', st').Some? &&
      StateRel(L, i + |OpNodes(op)|, Exec(C, op, st).value, Exec(C, op', st').value)
    ensures Exec(C, op, st).value.turn == st.turn
    decreases op, 0
  {
    hide Comparable, EnvCovered, StateRel, ExecRegion, Exec, LowerOp, RegionNodes, OpNodes, Uninitialised, Lowered,
         AllDepths, Settled, LayoutOk, UniqueResults, ParamsOnly, PlainLoops, ReadLoops, Segment;
    ComparableShape(C, L);
    BranchSegments(L.nodes, i, op);
    SegmentEnd(L.nodes, i, OpNodes(op));
    var e := i + |OpNodes(op)|;
    IfParts(C, L.home, op, st, st');
    CondRel(L, i, st, st', op.cond);
    SettledNext(L, i, op, |st.turn|);
    SettledRegion(L, i + 1, op.thn, |st.turn|);
    if EvalV(op.cond, st.env).value.c.b {
      RegionRel(C, L, i, i + 1, e, op, op.thn, st, st');
    } else if op.els.Some? {
      RegionRel(C, L, i, i + 1 + |RegionNodes(op.thn)|, e, op, op.els.value, st, st');
    } else {
      StateRelLater(L, i, e, st, st');
    }
  }

  lemma {:induction false} OpRel(C: Context, L: Layout, i: nat, op: Op, st: TState, st': TState)
    requires Comparable(C, L) && Segment(L.nodes, i, OpNodes(op))
    requires Lowered(op) && Uninitialised(op) && DepthsAre(L.depth, op, |st.turn|) && Settled(L, i, |st.turn|)
    requires StateRel(L, i, st, st') && EnvCovered(L.nodes, L.params, i, st.env) && Exec(C, op, st).Some?
    ensures var op' := LowerOp(L.home, op);
      i + |OpNodes(op)| <= |L.nodes| && Exec(C, op', st').Some? &&
      StateRel(L, i + |OpNodes(op)|, Exec(C, op, st).value, Exec(C, op', st').value)
    ensures Exec(C, op, st).value.turn == st.turn
    decreases op, 1
  {
    hide Comparable, EnvCovered, StateRel, ExecRegion, Exec, LowerOp, RegionNodes, Uninitialised, Lowered, AllDepths,
         Settled, LayoutOk;
    SegmentHead(L.nodes, i, OpNodes(op));
    if op.IfOp? {
      IfRel(C, L, i, op, st, st');
    } else if op.ForOp? {
      ForRel(C, L, i, op, st, st');
    } else {
      SimpleNodes(op);
      SimpleRel(C, L, i, op, st, st');
    }
  }

  lemma {:induction false} SimpleNodes(op: Op)
    requires Lowered(op) && !op.IfOp? && !op.ForOp?
    ensures |OpNodes(op)| == 1
  {
  }

  /** A conditional and its lowering, unfolded. */
  lemma {:induction false} IfParts(C: Context, home: map<nat, nat>, op: Op, st: TState, st': TState)
    requires op.IfOp?
    ensures Exec(C, op, st).Some? ==>
      EvalV(op.cond, st.env).Some? && EvalV(op.cond, st.env).value.TScalar? && EvalV(op.cond, st.env).value.c.Bool?
    ensures Exec(C, op, st).Some? ==>
      Exec(C, op, st) ==
      if EvalV(op.cond, st.env).value.c.b then ExecRegion(C, op.thn, op.results, st)
      else if op.els.Some? then ExecRegion(C, op.els.value, op.results, st) else Some(st)
    ensures EvalV(op.cond, st'.env) == EvalV(op.cond, st.env) && Exec(C, op, st).Some? ==>
      Exec(C, LowerOp(home, op), st') ==
      if EvalV(op.cond, st.env).value.c.b then ExecRegion(C, LowerRegion(home, op.thn), op.results, st')
      else if op.els.Some? then ExecRegion(C, LowerRegion(home, op.els.value), op.results, st') else Some(st')
    ensures Lowered(op) && Uninitialised(op) ==> LoweredOps(op.thn.ops) && UninitialisedOps(op.thn.ops)
    ensures Lowered(op) && Uninitialised(op) && op.els.Some? ==>
      LoweredOps(op.els.value.ops) && UninitialisedOps(op.els.value.ops)
  {
    hide ExecRegion, LowerRegion, LoweredOps, UninitialisedOps;
  }

  lemma CondRel(L: Layout, i: nat, st: TState, st': TState, v: Value)
    requires StateRel(L, i, st, st') && EvalV(v, st.env).Some? && EvalV(v, st.env).value.TScalar?
    ensures EvalV(v, st'.env) == EvalV(v, st.env)
  {
    EvalMoved(L, i, st.turn, st.env, st'.env, v);
  }

  /** Every op of the lowered program keeps the shared run in step with the private one. */
  lemma {:induction false} OpsRel(C: Context, L: Layout, i: nat, ops: seq<Op>, st: TState, st': TState)
    requires Comparable(C, L) && Segment(L.nodes, i, OpsNodes(ops))
    requires LoweredOps(ops) && UninitialisedOps(ops) && AllDepths(L.depth, ops, |st.turn|) && Settled(L, i, |st.turn|)
    requires StateRel(L, i, st, st') && EnvCovered(L.nodes, L.params, i, st.env) && ExecOps(C, ops, st).Some?
    ensures var ops' := LowerOps(L.home, ops);
      i + |OpsNodes(ops)| <= |L.nodes| && ExecOps(C, ops', st').Some? &&
      StateRel(L, i + |OpsNodes(ops)|, ExecOps(C, ops, st).value, ExecOps(C, ops', st').value)
    ensures ExecOps(C, ops, st).value.turn == st.turn
    decreases ops, 0
  {
    hide Comparable, EnvCovered, StateRel, Exec, ExecOps, OpNodes, OpsNodes, Lowered, LoweredOps, Uninitialised,
         UninitialisedOps, LowerOp, LowerOps, Segment, DepthsAre, AllDepths, Settled, PlainLoops, UniqueResults,
         ParamsOnly, LayoutOk;
    SegmentEnd(L.nodes, i, OpsNodes(ops));
    if ops == [] {
      NothingRel(C, L, st);
      NothingRel(C, L, st');
    } else {
      OpsFirst(C, L, ops, |st.turn|);
      ExecFirst(C, ops, st);
      SegmentParts(L.nodes, i, OpNodes(ops[0]), OpsNodes(ops[1..]));
      ComparableShape(C, L);
      OpRel(C, L, i, ops[0], st, st');
      SettledOp(L, i, ops[0], |st.turn|);
      OpCovered(C, L.nodes, L.params, i, ops[0], st);
      var op', rest' := LowerOp(L.home, ops[0]), LowerOps(L.home, ops[1..]);
      OpsRel(C, L, i + |OpNodes(ops[0])|, ops[1..], Exec(C, ops[0], st).value, Exec(C, op', st').value);
      assert ([op'] + rest')[1..] == rest';
      ExecFirst(C, [op'] + rest', st');
    }
  }

  lemma SegmentEnd(nodes: seq<Node>, i: nat, part: seq<Node>)
    requires Segment(nodes, i, part)
    ensures i + |part| <= |nodes|
  {
  }

  lemma {:induction false} NothingRel(C: Context, L: Layout, st: TState)
    ensures OpsNodes([]) == [] && LowerOps(L.home, []) == [] && ExecOps(C, [], st) == Some(st)
  {
  }

  lemma {:induction false} OpsFirst(C: Context, L: Layout, ops: seq<Op>, d: nat)
    requires ops != []
    ensures OpsNodes(ops) == OpNodes(ops[0]) + OpsNodes(ops[1..])
    ensures LowerOps(L.home, ops) == [LowerOp(L.home, ops[0])] + LowerOps(L.home, ops[1..])
    ensures LoweredOps(ops) ==> Lowered(ops[0]) && LoweredOps(ops[1..])
    ensures UninitialisedOps(ops) ==> Uninitialised(ops[0]) && UninitialisedOps(ops[1..])
    ensures AllDepths(L.depth, ops, d) ==> DepthsAre(L.depth, ops[0], d) && AllDepths(L.depth, ops[1..], d)
  {
  }

  lemma {:induction false} ExecFirst(C: Context, ops: seq<Op>, st: TState)
    requires ops != []
    ensures ExecOps(C, ops, st) ==
      match Exec(C, ops[0], st) case Some(next) => ExecOps(C, ops[1..], next) case None => None
  {
    hide Exec;
  }

  // ---------------------------------------------------------------- what lowering forgets

  /** A lowered creation leaves the tensor with whatever its storage held.  That is what the source
      says for every content of the storage exactly when the creation does not initialise. */
  lemma {:induction false} LoweredCreationIsFaithful(C: Context, op: Op, st: TState, home: TensorRef)
    requires op.CreateOp? && DoCreate(C, op, st).Some? && (forall b: int :: st.mem(Own(op.res, st.turn), b).None?)
    requires DoCreate(C, op, st).value.env[op.res].t == home.(store := Own(op.res, st.turn),
      nbytes := DoCreate(C, op, st).value.env[op.res].t.nbytes)
    ensures var st' := DoCreate(C, op, st).value;
      (forall mem': Memory :: ContentLeq(Read(st'.mem, st'.env[op.res].t), Read(mem', home))) <==>
      (Uninitialised(op) || Size(home) == 0)
  {
    var st' := DoCreate(C, op, st).value;
    var t := st'.env[op.res].t;
    if Uninitialised(op) || Size(home) == 0 {
      forall mem': Memory ensures ContentLeq(Read(st'.mem, t), Read(mem', home)) {
        forall k | 0 <= k < Size(t) ensures Leq(Read(st'.mem, t)[k], Read(mem', home)[k]) {
          assert st.mem(Own(op.res, st.turn), t.offset + k).None?;
        }
      }
    } else {
      var blank: Memory := (s: Store, b: int) => None;
      assert Read(st'.mem, t)[0] == Some(0) && Read(blank, home)[0] == None;
      assert !ContentLeq(Read(st'.mem, t), Read(blank, home));
    }
  }
}

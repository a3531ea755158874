/** Planning and lowering together: the program with planned storages against the program in which
    every tensor has a storage of its own. */
module PlannedProgram {
  import opened Bytecode
  import opened PrimExprs
  import opened TensorIR
  import opened AliasAnalysis
  import opened TensorSemantics
  import opened ShapeBounds
  import opened Lifetimes
  import opened StoragePlan
  import opened MemoryPlanning
  import opened AliasSound
  import opened MemoryFrame
  import opened StorageSharing

  ghost function PlanOf(fn: Func): Plan {
    Greedy(TensorsOf(fn))
  }

  /** Storage k is made by the op with result base + k. */
  function StorageOps(entries: seq<Entry>, base: nat): (ops: seq<Op>)
    ensures |ops| == |entries|
    ensures forall k :: 0 <= k < |entries| ==> ops[k] == StorageOp(base + k, entries[k].sizeExpr, entries[k].device)
  {
    seq(|entries|, k requires 0 <= k < |entries| => StorageOp(base + k, entries[k].sizeExpr, entries[k].device))
  }

  /** Where each created tensor goes. */
  function HomesOf(slot: map<string, nat>, cs: seq<Creation>, base: nat): map<nat, nat> {
    if cs == [] then map[]
    else
      var c := cs[|cs| - 1];
      var rest := HomesOf(slot, cs[..|cs| - 1], base);
      if c.name in slot then rest[c.res := base + slot[c.name]] else rest
  }

  lemma {:induction false} HomesAre(slot: map<string, nat>, cs: seq<Creation>, base: nat)
    requires UniqueCreationResults(cs) && forall c <- cs :: c.name in slot
    ensures var h := HomesOf(slot, cs, base);
      h.Keys == ResIds(cs) && forall c <- cs :: h[c.res] == base + slot[c.name]
  {
    if cs != [] {
      var init, last := cs[..|cs| - 1], cs[|cs| - 1];
      assert cs == init + [last];
      HomesAre(slot, init, base);
      forall c | c in init ensures c.res != last.res {
        var k :| 0 <= k < |init| && init[k] == c;
        assert cs[k] == c;
      }
    }
  }

  /** The lowered body: storages first, then the ops with creations replaced. */
  ghost function LoweredBody(fn: Func, base: nat): seq<Op> {
    StorageOps(PlanOf(fn).entries, base) + LowerOps(HomesOf(PlanOf(fn).slot, Creations(FuncNodes(fn)), base), fn.body)
  }

  lemma EntryOf(fn: Func, k: nat)
    requires UniqueCreationNames(Creations(FuncNodes(fn))) && k < |Creations(FuncNodes(fn))|
    ensures var c, p := Creations(FuncNodes(fn))[k], PlanOf(fn);
      c.name in p.slot && p.slot[c.name] < |p.entries| && p.entries[p.slot[c.name]].device == c.spec.device
  {
    hide Creations, FuncNodes, Greedy, Fits, Edges, LastRef, Escapes;
    TensorsAreSorted(fn);
    assert TensorsOf(fn)[k] in TensorsOf(fn);
    SeatOf(TensorsOf(fn), TensorsOf(fn)[k]);
  }

  /** A created tensor is put into a storage that is allocated at entry, on the tensor's own device. */
  lemma StorageIsOnDevice(fn: Func, base: nat, k: nat)
    requires UniqueCreationNames(Creations(FuncNodes(fn))) && UniqueCreationResults(Creations(FuncNodes(fn)))
    requires k < |Creations(FuncNodes(fn))|
    ensures var c := Creations(FuncNodes(fn))[k]; var home := HomesOf(PlanOf(fn).slot, Creations(FuncNodes(fn)), base);
      c.res in home && base <= home[c.res] < base + |PlanOf(fn).entries| <= base + |LoweredBody(fn, base)| &&
      var op := LoweredBody(fn, base)[home[c.res] - base];
      op.StorageOp? && op.res == home[c.res] && op.device == c.spec.device
  {
    hide Creations, FuncNodes, PlanOf, LowerOps, HomesOf;
    var cs := Creations(FuncNodes(fn));
    forall c | c in cs ensures c.name in PlanOf(fn).slot {
      var j :| 0 <= j < |cs| && cs[j] == c;
      EntryOf(fn, j);
    }
    EntryOf(fn, k);
    HomesAre(PlanOf(fn).slot, cs, base);
    assert cs[k] in cs;
  }

  // ---------------------------------------------------------------- sizes of shared storages

  /** The variables whose values decide the sizes that are only known at run time. */
  function SizeVars(fn: Func): set<PrimExpr> {
    set c <- Creations(FuncNodes(fn)), x <- VarsOf(PlannedSize(c.spec.shape, ItemSize(c.spec))) :: x
  }

  ghost predicate SizesKnown(size: Option<int>, sizeExpr: PrimExpr, vars: set<PrimExpr>) {
    (size.Some? ==> sizeExpr == IntImm(size.value)) && VarsOf(sizeExpr) <= vars
  }

  /** A storage of static size is allocated with exactly that size; any other with a size over the
      variables of some tensor. */
  lemma {:induction false} EntrySizes(ts: seq<Tensor>, vars: set<PrimExpr>)
    requires forall t <- ts :: SizesKnown(t.size, t.sizeExpr, vars)
    ensures forall e <- Greedy(ts).entries :: SizesKnown(e.size, e.sizeExpr, vars)
  {
    hide SizesKnown;
    if ts != [] {
      var init, t := ts[..|ts| - 1], ts[|ts| - 1];
      assert t in ts && forall x <- init :: x in ts;
      EntrySizes(init, vars);
      var p, p' := Greedy(init), Greedy(ts);
      var i := if t.reusable then FirstFit(p.entries, t, 0) else |p.entries|;
      forall e | e in p'.entries ensures SizesKnown(e.size, e.sizeExpr, vars) {
        if i < |p.entries| {
          assert p'.entries == p.entries[i := Join(p.entries[i], t)];
          if e != Join(p.entries[i], t) { assert e in p.entries; } else { assert p.entries[i] in p.entries; }
        } else {
          assert p'.entries == p.entries + [NewEntry(|p.entries|, t)];
        }
      }
    }
  }

  /** The storage a tensor is put in is no smaller than the one it would have to itself. */
  lemma SharedIsLargeEnough(C: Context, e: Entry, t: Tensor, spec: Spec, vars: set<PrimExpr>)
    requires Fits(e, t) && NamesakesAgree(vars, C.dims) && SizesKnown(e.size, e.sizeExpr, vars)
    requires VarsOf(t.sizeExpr) <= vars
    requires t.size == SizeBytes(spec.shape, ItemSize(spec)) && t.sizeExpr == PlannedSize(spec.shape, ItemSize(spec))
    requires OwnSize(C, spec).Some? && EvalSize(C, e.sizeExpr).Some?
    ensures SizeOk(OwnSize(C, spec).value, EvalSize(C, e.sizeExpr).value)
  {
    if t.size.Some? {
      StaticIsPositive(spec);
    } else {
      SameExprSameValue(C.host, e.sizeExpr, t.sizeExpr, vars, C.dims);
    }
  }

  lemma StaticIsPositive(spec: Spec)
    requires SizeBytes(spec.shape, ItemSize(spec)).Some?
    ensures SizeBytes(spec.shape, ItemSize(spec)).value > 0
  {
    AlignUp(Max2(ProductUpper(spec.shape).n * ItemSize(spec), 1));
  }

  // ---------------------------------------------------------------- the layout of a plan

  /** Storage results are objects of their own. */
  ghost predicate FreshIds(fn: Func, base: nat) {
    (forall p <- FuncVars(fn) :: p < base) && forall n <- FuncNodes(fn), id <- ResultsAt(n) :: id < base
  }

  /** Every storage size can be computed from the symbolic dimensions at entry. */
  ghost predicate SizesEvaluate(C: Context, fn: Func) {
    (forall e <- PlanOf(fn).entries :: EvalSize(C, e.sizeExpr).Some?) &&
    forall c <- Creations(FuncNodes(fn)) :: OwnSize(C, c.spec).Some?
  }

  /** What the planning pass insists on. */
  ghost predicate Plannable(fn: Func) {
    WfFunc(fn) && UniqueCreationNames(Creations(FuncNodes(fn)))
  }

  /** A tensor from before the loop is either not used in it or still in use at its end, and a tensor
      made in the loop is not used after it. */
  predicate LifeApart(life: Interval, i: int, e: int) {
    (life.first < i ==> life.last <= i || life.last >= e) && (i < life.first <= e ==> life.last <= e)
  }

  /** Lifetimes in one walk over the ops are enough for these loops: they carry no created tensor, and
      they do not use one up that is from before them. */
  ghost predicate SafeLoops(fn: Func) {
    NoneCarried(fn) &&
    forall i, k :: 0 <= i < |FuncNodes(fn)| && 0 <= k < |TensorsOf(fn)| ==>
      LoopApart(FuncNodes(fn)[i], TensorsOf(fn)[k].interval, i)
  }

  predicate LoopApart(n: Node, life: Interval, i: nat) {
    n.OpNode? && n.op.ForOp? ==> LifeApart(life, i, i + |OpNodes(n.op)| - 1)
  }

  /** A function without loops is safe. */
  lemma NoLoopsAreSafe(fn: Func)
    requires forall n <- FuncNodes(fn) :: !(n.OpNode? && n.op.ForOp?)
    ensures SafeLoops(fn)
  {
    hide FuncNodes, TensorsOf;
  }

  // ---------------------------------------------------------------- depths

  /** How many loops are around each creation. */
  function Depths(op: Op, d: nat): map<nat, nat>
    decreases op, 1
  {
    match op
    case CreateOp(res, _, _, _, _) => map[res := d]
    case IfOp(_, _, thn, els) => OpsDepths(thn.ops, d) + (if els.Some? then OpsDepths(els.value.ops, d) else map[])
    case ForOp(_, _, _, _, body) => OpsDepths(body.ops, d + 1)
    case _ => map[]
  }

  function OpsDepths(ops: seq<Op>, d: nat): map<nat, nat>
    decreases ops, 0
  {
    if ops == [] then map[] else Depths(ops[0], d) + OpsDepths(ops[1..], d)
  }

  lemma {:induction false} DepthKeys(op: Op, d: nat)
    ensures Depths(op, d).Keys == Made(op)
    decreases op, 1
  {
    if op.IfOp? {
      OpsDepthKeys(op.thn.ops, d);
      if op.els.Some? { OpsDepthKeys(op.els.value.ops, d); }
    } else if op.ForOp? {
      OpsDepthKeys(op.body.ops, d + 1);
    }
  }

  lemma {:induction false} OpsDepthKeys(ops: seq<Op>, d: nat)
    ensures OpsDepths(ops, d).Keys == MadeOps(ops)
    decreases ops, 0
  {
    if ops != [] {
      DepthKeys(ops[0], d);
      OpsDepthKeys(ops[1..], d);
    }
  }

  predicate AgreesWith(D: map<nat, nat>, part: map<nat, nat>) {
    forall id <- part :: id in D && D[id] == part[id]
  }

  lemma AgreesBoth(D: map<nat, nat>, a: map<nat, nat>, b: map<nat, nat>)
    requires AgreesWith(D, a + b) && a.Keys !! b.Keys
    ensures AgreesWith(D, a) && AgreesWith(D, b)
  {
    forall id | id in a ensures id in D && D[id] == a[id] { assert id in a + b && (a + b)[id] == a[id]; }
    forall id | id in b ensures id in D && D[id] == b[id] { assert id in a + b && (a + b)[id] == b[id]; }
  }

  lemma {:induction false} DepthsHold(nodes: seq<Node>, i: nat, op: Op, d: nat, D: map<nat, nat>)
    requires UniqueResults(nodes) && Segment(nodes, i, OpNodes(op)) && AgreesWith(D, Depths(op, d))
    ensures DepthsAre(D, op, d)
    decreases op, 1
  {
    hide UniqueResults, OpsNodes, OpsDepths, AgreesWith;
    SegmentHead(nodes, i, OpNodes(op));
    if op.IfOp? {
      BranchSegments(nodes, i, op);
      RegionSegments(nodes, i + 1, op.thn);
      var j := i + 1 + |RegionNodes(op.thn)|;
      if op.els.Some? {
        RegionSegments(nodes, j, op.els.value);
        MadeApart(nodes, i + 1, op.thn.ops, j, op.els.value.ops, d);
        AgreesBoth(D, OpsDepths(op.thn.ops, d), OpsDepths(op.els.value.ops, d));
        OpsDepthsHold(nodes, j, op.els.value.ops, d, D);
      } else {
        assert Depths(op, d) == OpsDepths(op.thn.ops, d);
      }
      OpsDepthsHold(nodes, i + 1, op.thn.ops, d, D);
    } else if op.ForOp? {
      LoopSegments(nodes, i, op);
      OpsDepthsHold(nodes, i + 1, op.body.ops, d + 1, D);
    } else if op.CreateOp? {
      OneDepth(D, op.res, d);
    }
  }

  lemma OneDepth(D: map<nat, nat>, res: nat, d: nat)
    requires AgreesWith(D, map[res := d])
    ensures res in D && D[res] == d
  {
    assert res in map[res := d];
  }

  /** Two stretches of code make different tensors. */
  lemma {:induction false} MadeApart(nodes: seq<Node>, i: nat, a: seq<Op>, j: nat, b: seq<Op>, d: nat)
    requires UniqueResults(nodes) && Segment(nodes, i, OpsNodes(a)) && Segment(nodes, j, OpsNodes(b))
    requires i + |OpsNodes(a)| <= j
    ensures OpsDepths(a, d).Keys !! OpsDepths(b, d).Keys
  {
    hide UniqueResults, OpsNodes, OpsDepths, MadeOps, Creations;
    OpsDepthKeys(a, d);
    OpsDepthKeys(b, d);
    forall res | res in MadeOps(a) && res in MadeOps(b) ensures false {
      var c := MadeOpsAt(nodes, i, a, res);
      var c' := MadeOpsAt(nodes, j, b, res);
      SameCreation(nodes, c, c');
    }
  }

  lemma {:induction false} OpsDepthsHold(nodes: seq<Node>, i: nat, ops: seq<Op>, d: nat, D: map<nat, nat>)
    requires UniqueResults(nodes) && Segment(nodes, i, OpsNodes(ops)) && AgreesWith(D, OpsDepths(ops, d))
    ensures AllDepths(D, ops, d)
    decreases ops, 0
  {
    hide UniqueResults, OpNodes, Depths, AgreesWith, DepthsAre, Segment;
    if ops != [] {
      var first, rest := [ops[0]], ops[1..];
      OneOp(ops[0], d);
      SegmentParts(nodes, i, OpNodes(ops[0]), OpsNodes(rest));
      MadeApart(nodes, i, first, i + |OpNodes(ops[0])|, rest, d);
      AgreesBoth(D, Depths(ops[0], d), OpsDepths(rest, d));
      DepthsHold(nodes, i, ops[0], d, D);
      OpsDepthsHold(nodes, i + |OpNodes(ops[0])|, rest, d, D);
    }
  }

  lemma {:induction false} OneOp(op: Op, d: nat)
    ensures OpsNodes([op]) == OpNodes(op) && OpsDepths([op], d) == Depths(op, d)
  {
    hide OpNodes, Depths;
    assert [op][1..] == [] && OpsNodes([]) == [] && OpsDepths([], d) == map[];
  }

  function StorageIds(n: nat, base: nat): (ids: set<nat>)
    ensures forall s :: s in ids <==> base <= s < base + n
  {
    if n == 0 then {} else StorageIds(n - 1, base) + {base + n - 1}
  }

  ghost function LayoutOf(C: Context, fn: Func, base: nat): Layout
    requires SizesEvaluate(C, fn)
  {
    var nodes := FuncNodes(fn);
    var cs := Creations(nodes);
    var entries := PlanOf(fn).entries;
    Layout(nodes, FuncVars(fn),
           map id | id in ResIds(cs) :: LastOf(fn, id),
           HomesOf(PlanOf(fn).slot, cs, base),
           OpsDepths(fn.body, 0),
           map id | id in ResIds(cs) :: NeedOf(C, fn, id),
           map s | s in StorageIds(|entries|, base) :: RoomOf(C, fn, s - base))
  }

  ghost function IndexOf(fn: Func, id: nat): (k: nat)
    requires id in ResIds(Creations(FuncNodes(fn)))
    ensures k < |Creations(FuncNodes(fn))| && Creations(FuncNodes(fn))[k].res == id
  {
    var cs := Creations(FuncNodes(fn));
    var c :| c in cs && c.res == id;
    var k: nat :| k < |cs| && cs[k] == c;
    k
  }

  ghost function LastOf(fn: Func, id: nat): int
    requires id in ResIds(Creations(FuncNodes(fn)))
  {
    TensorsOf(fn)[IndexOf(fn, id)].interval.last
  }

  ghost function NeedOf(C: Context, fn: Func, id: nat): int
    requires SizesEvaluate(C, fn) && id in ResIds(Creations(FuncNodes(fn)))
  {
    var c := Creations(FuncNodes(fn))[IndexOf(fn, id)];
    assert c in Creations(FuncNodes(fn));
    OwnSize(C, c.spec).value
  }

  ghost function RoomOf(C: Context, fn: Func, k: nat): int
    requires SizesEvaluate(C, fn) && k < |PlanOf(fn).entries|
  {
    assert PlanOf(fn).entries[k] in PlanOf(fn).entries;
    EvalSize(C, PlanOf(fn).entries[k].sizeExpr).value
  }

  lemma ResultsAreUnique(fn: Func)
    requires WfFunc(fn)
    ensures UniqueCreationResults(Creations(FuncNodes(fn)))
  {
    var nodes := FuncNodes(fn);
    var cs := Creations(nodes);
    forall j, k | 0 <= j < k < |cs| ensures cs[j].res != cs[k].res {
      assert cs[j] in cs && cs[k] in cs;
      assert cs[j].res in ResultsAt(nodes[cs[j].index]) && cs[k].res in ResultsAt(nodes[cs[k].index]);
    }
  }

  lemma IndexIs(fn: Func, k: nat)
    requires WfFunc(fn) && k < |Creations(FuncNodes(fn))|
    ensures Creations(FuncNodes(fn))[k].res in ResIds(Creations(FuncNodes(fn)))
    ensures IndexOf(fn, Creations(FuncNodes(fn))[k].res) == k
  {
    ResultsAreUnique(fn);
    var cs := Creations(FuncNodes(fn));
    assert cs[k] in cs;
    var j := IndexOf(fn, cs[k].res);
    assert cs[j].res == cs[k].res;
  }

  /** Where the plan puts one creation. */
  lemma SlotIs(fn: Func, k: nat)
    requires Plannable(fn) && k < |Creations(FuncNodes(fn))|
    ensures var t, p := TensorsOf(fn)[k], PlanOf(fn);
      t.name == Creations(FuncNodes(fn))[k].name && t.name in p.slot && p.slot[t.name] < |p.entries| &&
        Fits(p.entries[p.slot[t.name]], t)
  {
    hide Greedy, Fits;
    TensorsAreSorted(fn);
    GreedyOk(TensorsOf(fn));
    assert TensorsOf(fn)[k] in TensorsOf(fn);
    assert Seated(PlanOf(fn), TensorsOf(fn)[k]);
  }

  lemma {:induction false} HomeIs(fn: Func, base: nat, k: nat)
    requires Plannable(fn) && k < |Creations(FuncNodes(fn))|
    ensures var cs := Creations(FuncNodes(fn)); var h := HomesOf(PlanOf(fn).slot, cs, base);
      h.Keys == ResIds(cs) && cs[k].res in h && cs[k].name in PlanOf(fn).slot &&
        h[cs[k].res] == base + PlanOf(fn).slot[cs[k].name]
  {
    hide Greedy, TensorsOf, Fits, HomesOf;
    var cs := Creations(FuncNodes(fn));
    ResultsAreUnique(fn);
    forall c | c in cs ensures c.name in PlanOf(fn).slot {
      var j :| 0 <= j < |cs| && cs[j] == c;
      SlotIs(fn, j);
    }
    assert cs[k] in cs;
    HomesAre(PlanOf(fn).slot, cs, base);
  }

  /** The storage of a creation has room for it. */
  lemma RoomIs(C: Context, fn: Func, k: nat)
    requires Plannable(fn) && NamesakesAgree(SizeVars(fn), C.dims) && SizesEvaluate(C, fn)
    requires k < |Creations(FuncNodes(fn))|
    ensures var c := Creations(FuncNodes(fn))[k]; var p := PlanOf(fn);
      c.res in ResIds(Creations(FuncNodes(fn))) && c.name in p.slot && p.slot[c.name] < |p.entries| &&
      SizeOk(NeedOf(C, fn, c.res), RoomOf(C, fn, p.slot[c.name]))
  {
    hide Greedy, Fits, TensorsOf, Creations, FuncNodes, WfFunc, PlannedSize, SizeBytes, NamesakesAgree, SizeVars,
         OwnSize, EvalSize, SizeOk;
    var cs, ts, p := Creations(FuncNodes(fn)), TensorsOf(fn), PlanOf(fn);
    IndexIs(fn, k);
    SlotIs(fn, k);
    StaticSizes(fn);
    TensorFields(fn, k);
    EntrySizes(ts, SizeVars(fn));
    var e := p.entries[p.slot[ts[k].name]];
    assert e in p.entries;
    assert cs[k] in cs;
    SharedIsLargeEnough(C, e, ts[k], cs[k].spec, SizeVars(fn));
  }

  lemma StaticSizes(fn: Func)
    ensures forall t <- TensorsOf(fn) :: SizesKnown(t.size, t.sizeExpr, SizeVars(fn))
  {
    hide SizeBytes, PlannedSize, SizesKnown;
    var ts, cs := TensorsOf(fn), Creations(FuncNodes(fn));
    forall t | t in ts ensures SizesKnown(t.size, t.sizeExpr, SizeVars(fn)) {
      var k :| 0 <= k < |ts| && ts[k] == t;
      TensorFields(fn, k);
      assert cs[k] in cs;
      CreationSize(fn, cs[k]);
    }
  }

  lemma CreationSize(fn: Func, c: Creation)
    requires c in Creations(FuncNodes(fn))
    ensures SizesKnown(SizeBytes(c.spec.shape, ItemSize(c.spec)), PlannedSize(c.spec.shape, ItemSize(c.spec)),
                       SizeVars(fn))
  {
    hide FuncNodes, Creations, SizeBytes, SizeExpr;
  }

  lemma TensorFields(fn: Func, k: nat)
    requires k < |Creations(FuncNodes(fn))|
    ensures var t, c := TensorsOf(fn)[k], Creations(FuncNodes(fn))[k];
      t.name == c.name && t.size == SizeBytes(c.spec.shape, ItemSize(c.spec)) &&
        t.sizeExpr == PlannedSize(c.spec.shape, ItemSize(c.spec))
  {
  }

  /** What the layout says about one creation. */
  lemma PlannedAt(C: Context, fn: Func, base: nat, k: nat)
    requires Plannable(fn) && NamesakesAgree(SizeVars(fn), C.dims) && SizesEvaluate(C, fn)
    requires k < |Creations(FuncNodes(fn))|
    ensures var L := LayoutOf(C, fn, base); var c := Creations(FuncNodes(fn))[k]; var t := TensorsOf(fn)[k];
      c.res in L.last && c.res in L.home && c.res in L.need && L.last[c.res] == t.interval.last &&
      t.name in PlanOf(fn).slot && L.home[c.res] == base + PlanOf(fn).slot[t.name] &&
      L.home[c.res] in L.room && SizeOk(L.need[c.res], L.room[L.home[c.res]])
  {
    hide PlanOf, LastOf, NeedOf, RoomOf, TensorsOf, HomesOf, FuncNodes, Creations, SizesEvaluate, WfFunc,
         NamesakesAgree, SizeVars, Fits, StorageIds;
    SlotIs(fn, k);
    HomeIs(fn, base, k);
    RoomIs(C, fn, k);
    LastIs(fn, k);
  }

  lemma LastIs(fn: Func, k: nat)
    requires WfFunc(fn) && k < |Creations(FuncNodes(fn))|
    ensures var c := Creations(FuncNodes(fn))[k];
      c.res in ResIds(Creations(FuncNodes(fn))) && LastOf(fn, c.res) == TensorsOf(fn)[k].interval.last
  {
    IndexIs(fn, k);
  }

  lemma CreationAt(cs: seq<Creation>, c: Creation) returns (k: nat)
    requires c in cs
    ensures k < |cs| && cs[k] == c
  {
    k :| 0 <= k < |cs| && cs[k] == c;
  }

  /** The computed lifetime covers every reference. */
  lemma LastCovers(fn: Func, k: nat, i: nat)
    requires k < |Creations(FuncNodes(fn))| && i < |FuncNodes(fn)|
    requires var nodes := FuncNodes(fn);
      Refers(GraphAt(nodes, |nodes|), IsCreated(Creations(nodes)), nodes[i], Creations(nodes)[k].res)
    ensures i <= TensorsOf(fn)[k].interval.last
  {
    hide TensorsOf, Creations, FuncNodes, Refers, IsCreated, Edges;
    var nodes := FuncNodes(fn);
    assert nodes[..|nodes|] == nodes;
    LifetimeIsExact(fn, k);
  }

  lemma ReferencesAreCovered(C: Context, fn: Func, base: nat, c: Creation, i: nat)
    requires Plannable(fn) && NamesakesAgree(SizeVars(fn), C.dims) && SizesEvaluate(C, fn)
    requires c in Creations(FuncNodes(fn))
    requires var nodes := FuncNodes(fn);
      i < |nodes| && Refers(GraphAt(nodes, |nodes|), IsCreated(Creations(nodes)), nodes[i], c.res)
    ensures c.res in LayoutOf(C, fn, base).last && i <= LayoutOf(C, fn, base).last[c.res]
  {
    hide LayoutOf, TensorsOf, Creations, Plannable, NamesakesAgree, SizesEvaluate, FuncNodes, Refers, IsCreated;
    var k := CreationAt(Creations(FuncNodes(fn)), c);
    LastCovers(fn, k, i);
    PlannedAt(C, fn, base, k);
  }

  /** Tensors that share a storage are not live together. */
  lemma SharersAreApart(C: Context, fn: Func, base: nat, c: Creation, d: Creation)
    requires Plannable(fn) && NamesakesAgree(SizeVars(fn), C.dims) && SizesEvaluate(C, fn)
    requires c in Creations(FuncNodes(fn)) && d in Creations(FuncNodes(fn)) && c.res != d.res
    ensures var L := LayoutOf(C, fn, base);
      c.res in L.home && d.res in L.home && c.res in L.last && d.res in L.last &&
      (L.home[c.res] == L.home[d.res] ==> !LiveTogether(L, c, d))
  {
    hide LayoutOf, Creations, PlanOf, FuncNodes, NamesakesAgree, SizeVars, SizesEvaluate, TensorsOf, WfFunc;
    var j := CreationAt(Creations(FuncNodes(fn)), c);
    var k := CreationAt(Creations(FuncNodes(fn)), d);
    PlannedAt(C, fn, base, j);
    PlannedAt(C, fn, base, k);
    SlotsApart(fn, j, k);
    FirstIs(fn, j);
    FirstIs(fn, k);
  }

  lemma FirstIs(fn: Func, k: nat)
    requires k < |Creations(FuncNodes(fn))|
    ensures TensorsOf(fn)[k].interval.first == Creations(FuncNodes(fn))[k].index
  {
  }

  lemma SlotsApart(fn: Func, j: nat, k: nat)
    requires Plannable(fn) && j < |TensorsOf(fn)| && k < |TensorsOf(fn)| && j != k
    ensures var p, a, b := PlanOf(fn), TensorsOf(fn)[j], TensorsOf(fn)[k];
      a.name in p.slot && b.name in p.slot && (p.slot[a.name] == p.slot[b.name] ==> !Overlap(a.interval, b.interval))
  {
    hide Greedy, TensorsOf, Fits;
    var ts := TensorsOf(fn);
    TensorsAreSorted(fn);
    assert ts[j] in ts && ts[k] in ts;
    DifferentNames(ts, j, k);
    PlanIsSound(ts, ts[j], ts[k]);
  }

  lemma DifferentNames(ts: seq<Tensor>, j: nat, k: nat)
    requires DistinctTensors(ts) && j < |ts| && k < |ts| && j != k
    ensures ts[j].name != ts[k].name
  {
    assert j < k ==> ts[j].name != ts[k].name;
  }

  /** Every creation is somewhere in the body. */
  lemma {:induction false} CreationsAreMade(ops: seq<Op>)
    ensures forall n <- OpsNodes(ops) :: n.OpNode? && n.op.CreateOp? ==> n.op.res in MadeOps(ops)
    decreases ops, 0
  {
    hide OpNodes, Made;
    if ops != [] {
      CreationIsMade(ops[0]);
      CreationsAreMade(ops[1..]);
    }
  }

  lemma {:induction false} CreationIsMade(op: Op)
    ensures forall n <- OpNodes(op) :: n.OpNode? && n.op.CreateOp? ==> n.op.res in Made(op)
    decreases op, 1
  {
    hide OpsNodes, MadeOps;
    if op.IfOp? {
      CreationsAreMade(op.thn.ops);
      if op.els.Some? { CreationsAreMade(op.els.value.ops); }
    } else if op.ForOp? {
      CreationsAreMade(op.body.ops);
    }
  }

  lemma DepthsKnown(fn: Func)
    requires WfFunc(fn)
    ensures forall c <- Creations(FuncNodes(fn)) :: c.res in OpsDepths(fn.body, 0)
    ensures AllDepths(OpsDepths(fn.body, 0), fn.body, 0)
  {
    hide UniqueResults, ParamsOnly, LoweredOps, Creations, OpsNodes, MadeOps, OpsDepths;
    var nodes := FuncNodes(fn);
    OpsDepthKeys(fn.body, 0);
    CreationsAreMade(fn.body);
    forall c | c in Creations(nodes) ensures c.res in OpsDepths(fn.body, 0) {
      assert nodes[c.index] in OpsNodes(fn.body);
    }
    assert nodes[0..|OpsNodes(fn.body)|] == OpsNodes(fn.body);
    OpsDepthsHold(nodes, 0, fn.body, 0, OpsDepths(fn.body, 0));
  }

  /** Lifetimes that keep apart from a loop, in terms of the layout. */
  lemma LoopEndsApart(C: Context, fn: Func, base: nat, i: nat)
    requires Plannable(fn) && NamesakesAgree(SizeVars(fn), C.dims) && SizesEvaluate(C, fn) && SafeLoops(fn)
    requires i < |FuncNodes(fn)| && FuncNodes(fn)[i].OpNode? && FuncNodes(fn)[i].op.ForOp?
    ensures EndsApart(LayoutOf(C, fn, base), i, FuncNodes(fn)[i].op)
  {
    hide LayoutOf, TensorsOf, Creations, OpNodes, FuncNodes, NoneCarried, NamesakesAgree, SizeVars, SizesEvaluate,
         WfFunc,
         PlanOf, SizeOk;
    LayoutNodes(C, fn, base);
    var L := LayoutOf(C, fn, base);
    var e := i + |OpNodes(FuncNodes(fn)[i].op)| - 1;
    forall c | c in Creations(L.nodes) && c.res in L.last
      ensures (c.index < i ==> L.last[c.res] <= i || L.last[c.res] >= e) && (i < c.index <= e ==> L.last[c.res] <= e)
    {
      var k := CreationAt(Creations(FuncNodes(fn)), c);
      PlannedAt(C, fn, base, k);
      FirstIs(fn, k);
      assert LoopApart(FuncNodes(fn)[i], TensorsOf(fn)[k].interval, i);
    }
  }

  lemma LayoutNodes(C: Context, fn: Func, base: nat)
    requires SizesEvaluate(C, fn)
    ensures LayoutOf(C, fn, base).nodes == FuncNodes(fn) && LayoutOf(C, fn, base).params == FuncVars(fn)
    ensures LayoutOf(C, fn, base).depth == OpsDepths(fn.body, 0)
  {
  }

  /** A plan is a layout under which sharing is invisible. */
  lemma LayoutIsOk(C: Context, fn: Func, base: nat)
    requires SafeLoops(fn)
    requires Plannable(fn) && NamesakesAgree(SizeVars(fn), C.dims) && SizesEvaluate(C, fn) && FreshIds(fn, base)
    ensures LayoutOk(LayoutOf(C, fn, base))
  {
    hide PlanOf, LastOf, NeedOf, RoomOf, TensorsOf, HomesOf, Refers, LiveTogether, SizeOk, Edges, OpsDepths, EndsApart,
         FuncNodes, Creations, PlainLoops, UniqueResults, ParamsOnly, LoweredOps;
    var L := LayoutOf(C, fn, base);
    var cs := Creations(L.nodes);
    LoopsArePlain(fn);
    DepthsKnown(fn);
    forall i | 0 <= i < |L.nodes| && L.nodes[i].OpNode? && L.nodes[i].op.ForOp? ensures EndsApart(L, i, L.nodes[i].op) {
      LoopEndsApart(C, fn, base, i);
    }
    forall c | c in cs
      ensures c.res in L.last && c.res in L.home && c.res in L.need && L.home[c.res] in L.room
      ensures SizeOk(L.need[c.res], L.room[L.home[c.res]])
    {
      var k := CreationAt(cs, c);
      PlannedAt(C, fn, base, k);
    }
    forall c, i | c in cs && 0 <= i < |L.nodes| && Refers(GraphAt(L.nodes, |L.nodes|), IsCreated(cs), L.nodes[i], c.res)
      ensures i <= L.last[c.res]
    {
      ReferencesAreCovered(C, fn, base, c, i);
    }
    forall c, d | c in cs && d in cs && c.res != d.res && L.home[c.res] == L.home[d.res]
      ensures !LiveTogether(L, c, d) {
      SharersAreApart(C, fn, base, c, d);
    }
    HomesAreCreated(fn, base);
  }

  lemma {:induction false} HomeKeys(slot: map<string, nat>, cs: seq<Creation>, base: nat)
    ensures HomesOf(slot, cs, base).Keys <= ResIds(cs)
  {
    if cs != [] {
      HomeKeys(slot, cs[..|cs| - 1], base);
      assert cs == cs[..|cs| - 1] + [cs[|cs| - 1]];
    }
  }

  lemma {:induction false} HomesAreCreated(fn: Func, base: nat)
    ensures HomesOf(PlanOf(fn).slot, Creations(FuncNodes(fn)), base).Keys <= ResIds(Creations(FuncNodes(fn)))
  {
    HomeKeys(PlanOf(fn).slot, Creations(FuncNodes(fn)), base);
  }

  // ---------------------------------------------------------------- allocating the storages

  /** The hoisted ops only bind storages. */
  lemma {:induction false} StoragesRun(C: Context, fn: Func, base: nat, k: nat, st: TState)
    requires SizesEvaluate(C, fn) && k <= |PlanOf(fn).entries| && st.turn == []
    ensures var r := ExecOps(C, StorageOps(PlanOf(fn).entries, base)[k..], st);
      r.Some? && r.value.mem == st.mem && r.value.hist == st.hist && r.value.turn == [] &&
      (forall id :: id in st.env && !(base + k <= id < base + |PlanOf(fn).entries|) ==>
       id in r.value.env && r.value.env[id] == st.env[id]) &&
      forall s :: base + k <= s < base + |PlanOf(fn).entries| ==>
        s in r.value.env && r.value.env[s] == TStorage(Own(s, []), RoomOf(C, fn, s - base))
    decreases |PlanOf(fn).entries| - k
  {
    hide PlanOf;
    var entries := PlanOf(fn).entries;
    var ops := StorageOps(entries, base);
    if k < |entries| {
      assert ops[k..][0] == ops[k] && ops[k..][1..] == ops[k + 1..];
      assert entries[k] in entries;
      StoragesRun(C, fn, base, k + 1, Exec(C, ops[k], st).value);
    }
  }

  lemma HistSelf(h: History)
    ensures HistLeq(h, h)
  {
  }

  /** The caller passes tensors of its own, one per parameter. */
  ghost predicate CallerArgs(fn: Func, E: TEnv) {
    forall id <- E :: id in fn.params && !Holds(E[id])
  }

  lemma {:induction false} CallerMoves(L: Layout, v: TVal)
    requires !Holds(v)
    ensures Move(L, v) == v && Located(L, 0, [], v)
    decreases v, 0
  {
    if v.TTuple? {
      AllCallerMove(L, v.fields);
      assert forall t <- Tensors(v) :: !t.store.Own?;
    }
    if v.TTensor? { assert v.t in Tensors(v); }
  }

  lemma {:induction false} AllCallerMove(L: Layout, vs: seq<TVal>)
    requires forall t <- AllTensors(vs) :: !t.store.Own?
    ensures MoveAll(L, vs) == vs
    decreases vs
  {
    if vs != [] {
      CallerMoves(L, vs[0]);
      AllCallerMove(L, vs[1..]);
    }
  }

  /** No storage of the function has been written to. */
  ghost predicate NothingMade(fn: Func, mem: Memory) {
    forall c, u: seq<nat> :: c in Creations(FuncNodes(fn)) ==> Untouched(mem, Own(c.res, u))
  }

  /** Both runs start alike. */
  lemma StartRel(C: Context, fn: Func, base: nat, st: TState, st': TState)
    requires SizesEvaluate(C, fn) && FreshIds(fn, base) && CallerArgs(fn, st.env) && st.turn == st'.turn == []
    requires NothingMade(fn, st.mem)
    requires CallerMemory(st.mem, st'.mem) && HistLeq(st.hist, st'.hist)
    requires forall id <- st.env :: id in st'.env && st'.env[id] == st.env[id]
    requires forall s :: base <= s < base + |PlanOf(fn).entries| ==>
      s in st'.env && st'.env[s] == TStorage(Own(s, []), RoomOf(C, fn, s - base))
    ensures StateRel(LayoutOf(C, fn, base), 0, st, st')
  {
    hide PlanOf, LastOf, NeedOf, RoomOf, TensorsOf, HomesOf, Holds;
    var L := LayoutOf(C, fn, base);
    ParamsBelow(fn, base, st.env);
    forall id | id in st.env
      ensures st'.env[id] == Move(L, st.env[id]) && Located(L, 0, [], st.env[id]) && id !in L.room {
      CallerMoves(L, st.env[id]);
    }
  }

  /** What the planning and the lowering are given: a function they accept, and a run of it in which
      every tensor has a storage of its own. */
  ghost predicate PrivateRun(C: Context, fn: Func, base: nat, st: TState, shared: Memory) {
    && Plannable(fn) && UninitialisedOps(fn.body) && FreshIds(fn, base) && SizesEvaluate(C, fn)
    && CallerArgs(fn, st.env) && NothingMade(fn, st.mem)
    && CallerMemory(st.mem, shared) && ExecOps(C, fn.body, st).Some? && st.turn == []
  }

  /** The lowered program runs too, from the given initial contents of the shared storages; it makes
      the same calls in the same order, and every byte that is defined in what it returns, in what
      its calls see, and in the caller's tensors is the same. */
  ghost predicate SharedRunAgrees(C: Context, fn: Func, base: nat, st: TState, shared: Memory)
    requires SizesEvaluate(C, fn) && ExecOps(C, fn.body, st).Some?
  {
    var L := LayoutOf(C, fn, base);
    var r := ExecOps(C, fn.body, st).value;
    var run' := ExecOps(C, LoweredBody(fn, base), st.(mem := shared));
    run'.Some? && HistLeq(r.hist, run'.value.hist) && CallerMemory(r.mem, run'.value.mem) &&
    forall v <- fn.ret :: EvalV(v, r.env).Some? ==>
      EvalV(v, run'.value.env) == Some(Move(L, EvalV(v, r.env).value)) &&
      forall t <- Tensors(EvalV(v, r.env).value) :: ContentLeq(Read(r.mem, t), Read(run'.value.mem, MoveT(L, t)))
  }

  /** Sharing storages as planned is invisible, provided dimensions that look alike have one value and
      loops neither carry created tensors nor use older ones up. */
  lemma SharedStoragesAreInvisible(C: Context, fn: Func, base: nat, st: TState, shared: Memory)
    requires PrivateRun(C, fn, base, st, shared) && SafeLoops(fn)
    requires NamesakesAgree(SizeVars(fn), C.dims) && Robust(C.kernel)
    ensures SharedRunAgrees(C, fn, base, st, shared)
  {
    hide PlanOf, LayoutOf, LayoutOk, EnvCovered, StateRel, Untouched, CallerMemory, ContentLeq, WfFunc, SizesAre,
         Robust, ExecOps, UninitialisedOps, SafeLoops, NothingMade;
    var L := LayoutOf(C, fn, base);
    var st' := st.(mem := shared);
    var ops := StorageOps(PlanOf(fn).entries, base);
    assert ops[0..] == ops;
    StoragesRun(C, fn, base, 0, st');
    var mid := ExecOps(C, ops, st').value;
    ParamsBelow(fn, base, st.env);
    HistSelf(st.hist);
    StartRel(C, fn, base, st, mid);
    LayoutIsOk(C, fn, base);
    NodesAre(C, fn, base);
    FunctionRel(C, fn, base, L, st, mid);
    LowerIs(C, fn, base);
    ExecAppend(C, ops, LowerOps(L.home, fn.body), st');
    var r, r' := ExecOps(C, fn.body, st).value, ExecOps(C, LowerOps(L.home, fn.body), mid).value;
    ResultRel(C, fn, base, L, st, r, r');
  }

  lemma ParamsBelow(fn: Func, base: nat, E: TEnv)
    requires FreshIds(fn, base) && CallerArgs(fn, E)
    ensures forall id <- E :: id < base
  {
    forall id | id in E ensures id < base { assert id in FuncVars(fn); }
  }

  lemma NodesAre(C: Context, fn: Func, base: nat)
    requires WfFunc(fn) && SizesEvaluate(C, fn)
    ensures var L := LayoutOf(C, fn, base);
      L.nodes == FuncNodes(fn) && L.params == FuncVars(fn) && L.depth == OpsDepths(fn.body, 0) &&
        Segment(L.nodes, 0, OpsNodes(fn.body)) &&
      SizesAre(C, L) &&
      |L.nodes| == |OpsNodes(fn.body)| + 1 && L.nodes[|OpsNodes(fn.body)|] == ReturnNode(fn.ret)
  {
    var L := LayoutOf(C, fn, base);
    assert FuncNodes(fn)[0..|OpsNodes(fn.body)|] == OpsNodes(fn.body);
    forall c | c in Creations(L.nodes) ensures c.res in L.need && OwnSize(C, c.spec).value == L.need[c.res] {
      NeedIs(C, fn, c);
    }
  }

  lemma NeedIs(C: Context, fn: Func, c: Creation)
    requires WfFunc(fn) && SizesEvaluate(C, fn) && c in Creations(FuncNodes(fn))
    ensures c.res in ResIds(Creations(FuncNodes(fn))) && NeedOf(C, fn, c.res) == OwnSize(C, c.spec).value
  {
    var k := CreationAt(Creations(FuncNodes(fn)), c);
    IndexIs(fn, k);
  }

  lemma LowerIs(C: Context, fn: Func, base: nat)
    requires SizesEvaluate(C, fn)
    ensures LoweredBody(fn, base) == StorageOps(PlanOf(fn).entries, base) +
      LowerOps(LayoutOf(C, fn, base).home, fn.body)
  {
  }

  lemma {:induction false} FunctionRel(C: Context, fn: Func, base: nat, L: Layout, st: TState, mid: TState)
    requires Plannable(fn) && UninitialisedOps(fn.body) && Robust(C.kernel) && CallerArgs(fn, st.env)
    requires ExecOps(C, fn.body, st).Some?
    requires LayoutOk(L) && SizesAre(C, L) && L.nodes == FuncNodes(fn) && L.params == FuncVars(fn)
    requires L.depth == OpsDepths(fn.body, 0) && st.turn == []
    requires Segment(L.nodes, 0, OpsNodes(fn.body)) && StateRel(L, 0, st, mid)
    ensures ExecOps(C, LowerOps(L.home, fn.body), mid).Some?
    ensures |OpsNodes(fn.body)| <= |L.nodes|
    ensures var r, r' := ExecOps(C, fn.body, st).value, ExecOps(C, LowerOps(L.home, fn.body), mid).value;
      StateRel(L, |OpsNodes(fn.body)|, r, r') && EnvCovered(L.nodes, L.params, |OpsNodes(fn.body)|, r.env)
  {
    hide LayoutOk, SizesAre, Robust, EnvCovered, StateRel, UniqueResults, ParamsOnly, LoweredOps, UninitialisedOps,
         ExecOps, PlainLoops, AllDepths, OpsDepths, Settled, FuncNodes, FuncVars, CallerArgs, OpsNodes, LowerOps,
         Segment,
         UniqueCreationNames;
    LayoutShape(L);
    StartCovered(L.nodes, L.params, st.env) by { ArgsAreVars(fn, st.env); }
    DepthsKnown(fn);
    SettledAtStart(L);
    OpsRel(C, L, 0, fn.body, st, mid);
    OpsCovered(C, L.nodes, L.params, 0, fn.body, st);
  }

  lemma ArgsAreVars(fn: Func, E: TEnv)
    requires CallerArgs(fn, E)
    ensures E.Keys <= FuncVars(fn) && forall id <- E :: !Holds(E[id])
  {
    forall id | id in E ensures id in FuncVars(fn) { assert id in fn.params; }
  }

  lemma SettledAtStart(L: Layout)
    ensures Settled(L, 0, 0)
  {
  }

  lemma {:induction false} ResultRel(C: Context, fn: Func, base: nat, L: Layout, st: TState, r: TState, r': TState)
    requires LayoutOk(L) && |L.nodes| == |OpsNodes(fn.body)| + 1 && L.nodes[|OpsNodes(fn.body)|] == ReturnNode(fn.ret)
    requires StateRel(L, |OpsNodes(fn.body)|, r, r') && EnvCovered(L.nodes, L.params, |OpsNodes(fn.body)|, r.env)
    ensures HistLeq(r.hist, r'.hist) && CallerMemory(r.mem, r'.mem)
    ensures forall v <- fn.ret :: EvalV(v, r.env).Some? ==>
      EvalV(v, r'.env) == Some(Move(L, EvalV(v, r.env).value)) &&
      forall t <- Tensors(EvalV(v, r.env).value) :: ContentLeq(Read(r.mem, t), Read(r'.mem, MoveT(L, t)))
  {
    hide LayoutOk, EnvCovered, EnvRel, ContentLeq, LocatedT, LiveT;
    var i := |OpsNodes(fn.body)|;
    forall v | v in fn.ret && EvalV(v, r.env).Some?
      ensures EvalV(v, r'.env) == Some(Move(L, EvalV(v, r.env).value))
      ensures forall t <- Tensors(EvalV(v, r.env).value) :: ContentLeq(Read(r.mem, t), Read(r'.mem, MoveT(L, t)))
    {
      EvalMoved(L, i, r.turn, r.env, r'.env, v);
      forall t | t in Tensors(EvalV(v, r.env).value) ensures ContentLeq(Read(r.mem, t), Read(r'.mem, MoveT(L, t))) {
        assert v in Refs(L.nodes[i]);
        OperandLive(L, i, r.turn, r.env, v, t);
        ReadRel(L, i, r.turn, r.mem, r'.mem, t);
      }
    }
  }
}

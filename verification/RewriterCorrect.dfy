/** What the rewriter returns is the transformed program with renamed results: the map in use at
    every point agrees with the final one, which has one new result for each old one. */
module RewriterCorrect {
  import opened Bytecode
  import opened IRValues
  import opened TensorIR
  import opened Rewriter
  import opened Renaming

  // ---------------------------------------------------------------- identities

  /** All results in a stretch of code, nested ones included. */
  function IdsIn(nodes: seq<Node>): set<nat> {
    if nodes == [] then {} else Rewriter.Ids(ResultsAt(nodes[0])) + IdsIn(nodes[1..])
  }

  lemma {:induction false} IdsInAppend(a: seq<Node>, b: seq<Node>)
    ensures IdsIn(a + b) == IdsIn(a) + IdsIn(b)
  {
    if a == [] {
      assert a + b == b;
    } else {
      assert (a + b)[1..] == a[1..] + b;
      IdsInAppend(a[1..], b);
    }
  }

  lemma {:induction false} InIdsIn(nodes: seq<Node>, id: nat)
    ensures id in IdsIn(nodes) <==> exists k :: 0 <= k < |nodes| && id in ResultsAt(nodes[k])
  {
    if nodes != [] {
      InIdsIn(nodes[1..], id);
      if id in IdsIn(nodes[1..]) {
        var k :| 0 <= k < |nodes[1..]| && id in ResultsAt(nodes[1..][k]);
        assert nodes[1..][k] == nodes[k + 1];
      }
      if k :| 0 <= k < |nodes| && id in ResultsAt(nodes[k]) {
        if k > 0 { assert nodes[1..][k - 1] == nodes[k]; }
      }
    }
  }

  lemma {:induction false} UniqueSplit(a: seq<Node>, b: seq<Node>)
    requires UniqueResults(a + b)
    ensures UniqueResults(a) && UniqueResults(b) && IdsIn(a) !! IdsIn(b)
  {
    var c := a + b;
    assert forall i :: 0 <= i < |a| ==> a[i] == c[i];
    assert forall i :: 0 <= i < |b| ==> b[i] == c[|a| + i];
    forall i, j, id | 0 <= i < j < |a| && id in ResultsAt(a[i])
      ensures id !in ResultsAt(a[j]) { assert id in ResultsAt(c[i]) && c[j] == a[j]; }
    forall i, j, id | 0 <= i < j < |b| && id in ResultsAt(b[i]) ensures id !in ResultsAt(b[j]) {
      assert id in ResultsAt(c[|a| + i]) && c[|a| + j] == b[j];
    }
    forall i | 0 <= i < |b| ensures NoRepeat(ResultsAt(b[i])) { assert NoRepeat(ResultsAt(c[|a| + i])); }
    forall id | id in IdsIn(a) ensures id !in IdsIn(b) {
      InIdsIn(a, id);
      InIdsIn(b, id);
      var i :| 0 <= i < |a| && id in ResultsAt(a[i]);
      assert id in ResultsAt(c[i]);
      forall j | 0 <= j < |b| ensures id !in ResultsAt(b[j]) { assert c[|a| + j] == b[j]; }
    }
  }

  /** Results of an op with regions, and of the regions. */
  lemma {:induction false} IfIds(op: Op)
    requires op.IfOp?
    ensures IdsIn(OpNodes(op)) == Rewriter.Ids(op.results) + IdsIn(OpsNodes(op.thn.ops)) +
            (if op.els.Some? then IdsIn(OpsNodes(op.els.value.ops)) else {})
    ensures UniqueResults(OpNodes(op)) ==>
      NoRepeat(op.results) && UniqueResults(OpsNodes(op.thn.ops)) &&
        Rewriter.Ids(op.results) !! IdsIn(OpsNodes(op.thn.ops))
    ensures UniqueResults(OpNodes(op)) && op.els.Some? ==>
      UniqueResults(OpsNodes(op.els.value.ops)) && Rewriter.Ids(op.results) !! IdsIn(OpsNodes(op.els.value.ops)) &&
      IdsIn(OpsNodes(op.thn.ops)) !! IdsIn(OpsNodes(op.els.value.ops))
  {
    hide UniqueResults;
    var t := RegionNodes(op.thn);
    var e := if op.els.Some? then RegionNodes(op.els.value) else [];
    assert OpNodes(op) == [OpNode(op)] + (t + e);
    HeadIds(op, t + e);
    IdsInAppend(t, e);
    RegionIds(op.thn);
    if op.els.Some? { RegionIds(op.els.value); }
    if UniqueResults(OpNodes(op)) {
      UniqueSplit([OpNode(op)], t + e);
      UniqueSplit(t, e);
    }
  }

  lemma {:induction false} ForIds(op: Op)
    requires op.ForOp?
    ensures IdsIn(OpNodes(op)) == Rewriter.Ids(op.results) + IdsIn(OpsNodes(op.body.ops))
    ensures UniqueResults(OpNodes(op)) ==>
      NoRepeat(op.results) && UniqueResults(OpsNodes(op.body.ops)) &&
        Rewriter.Ids(op.results) !! IdsIn(OpsNodes(op.body.ops))
  {
    hide UniqueResults;
    var b := RegionNodes(op.body);
    assert OpNodes(op) == [OpNode(op)] + b;
    HeadIds(op, b);
    RegionIds(op.body);
    if UniqueResults(OpNodes(op)) { UniqueSplit([OpNode(op)], b); }
  }

  lemma {:induction false} HeadIds(op: Op, rest: seq<Node>)
    ensures IdsIn([OpNode(op)] + rest) == Rewriter.Ids(Results(op)) + IdsIn(rest)
    ensures IdsIn([OpNode(op)]) == Rewriter.Ids(Results(op))
    ensures UniqueResults([OpNode(op)] + rest) ==> NoRepeat(Results(op))
  {
    var nodes := [OpNode(op)] + rest;
    assert nodes[1..] == rest && [OpNode(op)][1..] == [];
    assert ResultsAt(nodes[0]) == Results(op);
    assert IdsIn([OpNode(op)]) == Rewriter.Ids(Results(op)) + {};
  }

  lemma {:induction false} RegionIds(r: Region)
    ensures IdsIn(RegionNodes(r)) == IdsIn(OpsNodes(r.ops))
    ensures UniqueResults(RegionNodes(r)) ==> UniqueResults(OpsNodes(r.ops))
  {
    var y := [YieldNode(r.yielded)];
    IdsInAppend(OpsNodes(r.ops), y);
    assert y[1..] == [] && IdsIn(y) == {};
    if UniqueResults(RegionNodes(r)) { UniqueSplit(OpsNodes(r.ops), y); }
  }

  // ---------------------------------------------------------------- the map only grows

  ghost predicate Grows(sub: Sub, sub': Sub, ids: set<nat>) {
    sub'.Keys == sub.Keys + ids && forall id :: id in sub && id !in ids ==> sub'[id] == sub[id]
  }

  lemma GrowsBoth(sub: Sub, mid: Sub, sub': Sub, a: set<nat>, b: set<nat>)
    requires Grows(sub, mid, a) && Grows(mid, sub', b)
    ensures Grows(sub, sub', a + b)
  {
  }

  lemma GrowsByNone(sub: Sub)
    ensures Grows(sub, sub, {})
  {
  }

  lemma GrownKeys(sub: Sub, sub': Sub, ids: set<nat>, part: set<nat>, defs: set<nat>)
    requires Grows(sub, sub', ids) && part <= ids && defs <= sub.Keys
    ensures defs + part <= sub'.Keys
  {
  }

  lemma {:induction false} OpsGrow(P: Pass, ops: seq<Op>, sub: Sub, next: nat)
    requires UniqueResults(OpsNodes(ops))
    ensures Grows(sub, RwOps(P, ops, sub, next).sub, IdsIn(OpsNodes(ops)))
    decreases ops, 0
  {
    hide UniqueResults, RwOp, OpNodes, Grows;
    if ops == [] {
      GrowsByNone(sub);
    } else {
      var first := RwOp(P, ops[0], sub, next);
      UniqueSplit(OpNodes(ops[0]), OpsNodes(ops[1..]));
      IdsInAppend(OpNodes(ops[0]), OpsNodes(ops[1..]));
      OpGrows(P, ops[0], sub, next);
      OpsGrow(P, ops[1..], first.sub, first.next);
      GrowsBoth(sub, first.sub, RwOps(P, ops, sub, next).sub, IdsIn(OpNodes(ops[0])), IdsIn(OpsNodes(ops[1..])));
    }
  }

  lemma CloseGrows(op: Op, sub: Sub, next: nat)
    requires !IsLeaf(op) && NoRepeat(op.results)
    ensures Grows(sub, Close(op, sub, next).sub, Rewriter.Ids(op.results))
  {
    RegisterIs(sub, op.results, Fresh(|op.results|, next));
  }

  lemma {:induction false} LeafGrows(P: Pass, op: Op, sub: Sub, next: nat)
    requires IsLeaf(op)
    ensures Grows(sub, RwLeaf(P, op, sub, next).sub, IdsIn(OpNodes(op)))
  {
    assert OpNodes(op) == [OpNode(op)] + [];
    HeadIds(op, []);
    if Results(op) == [] {
      assert sub.Keys + {} == sub.Keys;
    } else {
      assert Results(op) == [Results(op)[0]];
    }
  }

  lemma {:induction false} OpGrows(P: Pass, op: Op, sub: Sub, next: nat)
    requires UniqueResults(OpNodes(op))
    ensures Grows(sub, RwOp(P, op, sub, next).sub, IdsIn(OpNodes(op)))
    decreases op, 1
  {
    hide UniqueResults, RwOps, Grows, OpNodes, Close, RwLeaf, NoRepeat;
    if op.IfOp? {
      IfIds(op);
      var t := RwRegion(P, op.thn, sub, next);
      OpsGrow(P, op.thn.ops, sub, next);
      if op.els.Some? {
        var e := RwRegion(P, op.els.value, t.sub, t.next);
        OpsGrow(P, op.els.value.ops, t.sub, t.next);
        GrowsBoth(sub, t.sub, e.sub, IdsIn(OpsNodes(op.thn.ops)), IdsIn(OpsNodes(op.els.value.ops)));
        var op' := IfOp(op.results, Sv(sub, op.cond), t.region, Some(e.region));
        CloseGrows(op', e.sub, e.next);
        GrowsBoth(sub, e.sub, Close(op', e.sub, e.next).sub, IdsIn(OpsNodes(op.thn.ops)) +
                  IdsIn(OpsNodes(op.els.value.ops)), Rewriter.Ids(op.results));
        assert IdsIn(OpsNodes(op.thn.ops)) + IdsIn(OpsNodes(op.els.value.ops)) +
          Rewriter.Ids(op.results) == IdsIn(OpNodes(op));
      } else {
        var op' := IfOp(op.results, Sv(sub, op.cond), t.region, None);
        CloseGrows(op', t.sub, t.next);
        GrowsBoth(sub, t.sub, Close(op', t.sub, t.next).sub, IdsIn(OpsNodes(op.thn.ops)), Rewriter.Ids(op.results));
        assert IdsIn(OpsNodes(op.thn.ops)) + Rewriter.Ids(op.results) == IdsIn(OpNodes(op));
      }
    } else if op.ForOp? {
      ForIds(op);
      var b := RwRegion(P, op.body, sub, next);
      OpsGrow(P, op.body.ops, sub, next);
      var op' := ForOp(op.results, op.loopVar, Svs(sub, op.bounds), SubstIters(sub, op.iters), b.region);
      CloseGrows(op', b.sub, b.next);
      GrowsBoth(sub, b.sub, Close(op', b.sub, b.next).sub, IdsIn(OpsNodes(op.body.ops)), Rewriter.Ids(op.results));
      assert IdsIn(OpsNodes(op.body.ops)) + Rewriter.Ids(op.results) == IdsIn(OpNodes(op));
    } else {
      LeafGrows(P, op, sub, next);
    }
  }

  // ---------------------------------------------------------------- the final map

  /** m says what sub says. */
  ghost predicate Final(sub: Sub, m: Sub) {
    forall id <- sub :: id in m && m[id] == sub[id]
  }

  lemma FinalBefore(sub: Sub, sub': Sub, m: Sub, ids: set<nat>)
    requires Grows(sub, sub', ids) && Final(sub', m) && sub.Keys !! ids
    ensures Final(sub, m)
  {
  }

  lemma SvsFinal(sub: Sub, m: Sub, vs: seq<Value>, defs: set<nat>, vars: set<nat>)
    requires Known(vs, defs, vars) && Final(sub, m) && defs <= sub.Keys
    ensures Svs(sub, vs) == Svs(m, vs)
  {
    forall k | 0 <= k < |vs| ensures Sv(sub, vs[k]) == Sv(m, vs[k]) { assert vs[k] in vs; }
  }

  /** Storages that tensors are placed into are not results of the code. */
  predicate StoragesApart(P: Pass, m: Sub) {
    P.Placing? ==> forall id <- P.home :: P.home[id] !in m
  }

  lemma CallSame(op: Op, sub: Sub, m: Sub, res: nat, defs: set<nat>, vars: set<nat>)
    requires op.CallOp? && Known(Refs(OpNode(op)), defs, vars) && Final(sub, m) && defs <= sub.Keys
    ensures Leaf(Default, op, sub, res) == Leaf(Default, op, m, res)
  {
    hide Final, EffectOf, Known, Sv;
    var e := EffectOf(op);
    var refs := op.inputs + op.outputs + e.reading + e.writing;
    KnownPart(refs, op.inputs, defs, vars);
    KnownPart(refs, op.outputs, defs, vars);
    KnownPart(refs, e.reading, defs, vars);
    KnownPart(refs, e.writing, defs, vars);
    SvsFinal(sub, m, op.inputs, defs, vars);
    SvsFinal(sub, m, op.outputs, defs, vars);
    SvsFinal(sub, m, e.reading, defs, vars);
    SvsFinal(sub, m, e.writing, defs, vars);
  }

  lemma CheckRefs(op: Op)
    requires op.CheckOp?
    ensures |Refs(OpNode(op))| > 0 && Refs(OpNode(op))[0] == op.tensor
  {
  }

  lemma ComputeRefs(op: Op)
    requires op.ComputeOp?
    ensures Refs(OpNode(op)) == op.args
  {
  }

  lemma LeafSame(P: Pass, op: Op, sub: Sub, m: Sub, res: nat, defs: set<nat>, vars: set<nat>)
    requires IsLeaf(op) && !Placed(P, op) && Known(Refs(OpNode(op)), defs, vars) && Final(sub, m) && defs <= sub.Keys
    ensures Leaf(P, op, sub, res) == Leaf(Default, op, m, res)
  {
    hide Final, EffectOf, Known, Sv, Svs;
    var refs := Refs(OpNode(op));
    SvsFinal(sub, m, refs, defs, vars);
    forall k | 0 <= k < |refs| ensures Sv(sub, refs[k]) == Sv(m, refs[k]) {
      assert Svs(sub, refs)[k] == Sv(sub, refs[k]) && Svs(m, refs)[k] == Sv(m, refs[k]);
    }
    if op.CallOp? {
      CallSame(op, sub, m, res, defs, vars);
    } else if op.ViewOp? {
      assert refs[0] == op.base && refs[1] == op.byteOffset;
    } else if op.CheckOp? {
      CheckRefs(op);
    } else {
      OtherSame(op, sub, m, defs, vars);
      if op.PlaceOp? {
        assert Operands(op)[0] == op.storage;
      } else if op.ItemOp? {
        assert Operands(op)[0] == op.tup;
      } else if op.CreateOp? {
        assert op.like.Some? ==> Operands(op)[0] == op.like.value;
      }
    }
  }

  lemma OtherSame(op: Op, sub: Sub, m: Sub, defs: set<nat>, vars: set<nat>)
    requires IsLeaf(op) && !op.CallOp? && !op.ViewOp? && !op.CheckOp? && Known(Refs(OpNode(op)), defs, vars)
    requires Final(sub, m) && defs <= sub.Keys
    ensures Refs(OpNode(op)) == Operands(op) && Svs(sub, Operands(op)) == Svs(m, Operands(op))
    ensures forall k :: 0 <= k < |Operands(op)| ==> Sv(sub, Operands(op)[k]) == Sv(m, Operands(op)[k])
  {
    hide Final, Known, Sv;
    assert Refs(OpNode(op)) == Operands(op);
    SvsFinal(sub, m, Operands(op), defs, vars);
    forall k | 0 <= k < |Operands(op)| ensures Sv(sub, Operands(op)[k]) == Sv(m, Operands(op)[k]) {
      assert Svs(sub, Operands(op))[k] == Svs(m, Operands(op))[k];
    }
  }

  lemma KnownPart(vs: seq<Value>, part: seq<Value>, defs: set<nat>, vars: set<nat>)
    requires Known(vs, defs, vars) && forall v <- part :: v in vs
    ensures Known(part, defs, vars)
  {
  }

  /** An op that keeps its shape. */
  lemma {:induction false} KeptRenamed(P: Pass, op: Op, sub: Sub, next: nat, m: Sub, defs: set<nat>, vars: set<nat>)
    requires IsLeaf(op) && !Selected(P, op) && !Placed(P, op)
    requires Known(Refs(OpNode(op)), defs, vars) && defs <= sub.Keys && Final(sub, m)
    requires Final(RwLeaf(P, op, sub, next).sub, m)
    ensures RwLeaf(P, op, sub, next).ops == [RenameOp(m, op)]
  {
    hide Known, Refs;
    if !op.StorageOp? {
      LeafSame(P, op, sub, m, if Results(op) == [] then 0 else next, defs, vars);
      if Results(op) != [] { assert m[Results(op)[0]] == next; }
    }
  }

  lemma {:induction false} SelectedRenamed(P: Pass, op: Op, sub: Sub, next: nat, m: Sub, defs: set<nat>, vars: set<nat>)
    requires Selected(P, op) && Known(op.args, defs, vars) && defs <= sub.Keys && op.res !in sub
    requires Final(RwLeaf(P, op, sub, next).sub, m)
    ensures RwLeaf(P, op, sub, next).ops == RenameOps(m, Target(P, op))
  {
    hide Known;
    var sub' := sub[op.res := next];
    SvsFinal(sub', m, op.args, defs, vars);
    var k := P.kernelOf(op).value;
    var create, call := CreateOp(op.res, op.name, Empty, op.spec, None), WriteCall(k, op.args, Res(op.res));
    WriteCallRefs(k, op.args, Res(op.res));
    assert Sv(m, Res(op.res)) == Res(next) by { assert op.res in sub'; }
    assert Svs(m, [Res(op.res)]) == [Res(next)] && Svs(m, []) == [];
    RenameOne(m, create);
    RenameOne(m, call);
    RenameAppend(m, [create], [call]);
    assert Target(P, op) == [create] + [call];
  }

  lemma {:induction false} PlacedRenamed(P: Pass, op: Op, sub: Sub, next: nat, m: Sub)
    requires Placed(P, op) && Final(RwLeaf(P, op, sub, next).sub, m) && StoragesApart(P, m)
    ensures |Target(P, op)| == 1 && RwLeaf(P, op, sub, next).ops == [RenameOp(m, Target(P, op)[0])]
  {
  }

  lemma {:induction false} LeafRenamed(P: Pass, op: Op, sub: Sub, next: nat, m: Sub, defs: set<nat>, vars: set<nat>)
    requires IsLeaf(op) && Verified(op, defs, vars) && defs <= sub.Keys && IdsIn(OpNodes(op)) !! sub.Keys
    requires Final(RwOp(P, op, sub, next).sub, m) && StoragesApart(P, m)
    ensures RwOp(P, op, sub, next).ops == RenameOps(m, Target(P, op))
  {
    hide Known, Refs, Grows, Final;
    LeafGrows(P, op, sub, next);
    FinalBefore(sub, RwLeaf(P, op, sub, next).sub, m, IdsIn(OpNodes(op)));
    if Selected(P, op) {
      ComputeRefs(op);
      assert op.res !in sub by { SingleId(op); }
      SelectedRenamed(P, op, sub, next, m, defs, vars);
    } else {
      RenameOne(m, Target(P, op)[0]);
      if Placed(P, op) {
        PlacedRenamed(P, op, sub, next, m);
      } else {
        KeptRenamed(P, op, sub, next, m, defs, vars);
      }
    }
  }

  lemma {:induction false} SingleId(op: Op)
    requires IsLeaf(op) && Results(op) != []
    ensures Results(op)[0] in IdsIn(OpNodes(op))
  {
    HeadIds(op, []);
    assert OpNodes(op) == [OpNode(op)] + [];
  }

  // ---------------------------------------------------------------- regions

  /** The results of an op with regions. */
  lemma CloseRenamed(op: Op, sub: Sub, next: nat, m: Sub)
    requires !IsLeaf(op) && NoRepeat(op.results) && Final(Close(op, sub, next).sub, m)
    ensures Close(op, sub, next).ops == [op.(results := RnIds(m, op.results))]
  {
    var news := Fresh(|op.results|, next);
    RegisterIs(sub, op.results, news);
    forall k | 0 <= k < |op.results| ensures Rn(m, op.results[k]) == news[k] {
      assert op.results[k] in Register(sub, op.results, news);
    }
    assert RnIds(m, op.results) == news;
  }

  lemma {:induction false} RegionRenamed(P: Pass, r: Region, sub: Sub, next: nat, m: Sub, defs: set<nat>,
                                         vars: set<nat>)
    requires VerifiedRegion(r, defs, vars) && defs <= sub.Keys
    requires UniqueResults(OpsNodes(r.ops)) && IdsIn(OpsNodes(r.ops)) !! sub.Keys
    requires Final(RwRegion(P, r, sub, next).sub, m) && StoragesApart(P, m)
    ensures RwRegion(P, r, sub, next).region == RenameRegion(m, TargetRegion(P, r))
    decreases r, 0
  {
    hide UniqueResults, Known, VerifiedOps, RwOps, RenameOps, TargetOps, Final, Grows;
    OpsRenamed(P, r.ops, sub, next, m, defs, vars);
    var inner := RwOps(P, r.ops, sub, next);
    OpsGrow(P, r.ops, sub, next);
    DefsAreIds(r.ops);
    GrownKeys(sub, inner.sub, IdsIn(OpsNodes(r.ops)), DefsOf(r.ops), defs);
    SvsFinal(inner.sub, m, r.yielded, defs + DefsOf(r.ops), vars);
  }

  lemma {:induction false} DefsAreIds(ops: seq<Op>)
    ensures DefsOf(ops) <= IdsIn(OpsNodes(ops))
  {
    if ops != [] {
      DefsAreIds(ops[1..]);
      IdsInAppend(OpNodes(ops[0]), OpsNodes(ops[1..]));
      assert OpNodes(ops[0]) == [OpNode(ops[0])] + OpNodes(ops[0])[1..];
      HeadIds(ops[0], OpNodes(ops[0])[1..]);
    }
  }

  lemma {:induction false} IfRenamed(P: Pass, op: Op, sub: Sub, next: nat, m: Sub, defs: set<nat>, vars: set<nat>)
    requires op.IfOp? && Verified(op, defs, vars) && defs <= sub.Keys && UniqueResults(OpNodes(op))
    requires IdsIn(OpNodes(op)) !! sub.Keys
    requires Final(RwOp(P, op, sub, next).sub, m) && StoragesApart(P, m)
    ensures RwOp(P, op, sub, next).ops == RenameOps(m, Target(P, op))
    decreases op, 0
  {
    hide UniqueResults, Known, VerifiedRegion, RwRegion, RenameRegion, TargetRegion, Final, Grows, OpNodes, Close,
         NoRepeat;
    IfIds(op);
    OpGrows(P, op, sub, next);
    FinalBefore(sub, RwOp(P, op, sub, next).sub, m, IdsIn(OpNodes(op)));
    SvsFinal(sub, m, [op.cond], defs, vars);
    assert Svs(sub, [op.cond])[0] == Sv(sub, op.cond) && Svs(m, [op.cond])[0] == Sv(m, op.cond);
    var t := RwRegion(P, op.thn, sub, next);
    var ti := IdsIn(OpsNodes(op.thn.ops));
    RegionGrows(P, op.thn, sub, next);
    if op.els.Some? {
      var e := RwRegion(P, op.els.value, t.sub, t.next);
      var ei := IdsIn(OpsNodes(op.els.value.ops));
      RegionGrows(P, op.els.value, t.sub, t.next);
      var op' := IfOp(op.results, Sv(sub, op.cond), t.region, Some(e.region));
      CloseGrows(op', e.sub, e.next);
      KeysOf(sub, t.sub, ti);
      KeysOf(t.sub, e.sub, ei);
      FinalBefore(e.sub, Close(op', e.sub, e.next).sub, m, Rewriter.Ids(op.results));
      FinalBefore(t.sub, e.sub, m, ei);
      RegionRenamed(P, op.thn, sub, next, m, defs, vars);
      RegionRenamed(P, op.els.value, t.sub, t.next, m, defs, vars);
      CloseRenamed(op', e.sub, e.next, m);
    } else {
      var op' := IfOp(op.results, Sv(sub, op.cond), t.region, None);
      CloseGrows(op', t.sub, t.next);
      KeysOf(sub, t.sub, ti);
      FinalBefore(t.sub, Close(op', t.sub, t.next).sub, m, Rewriter.Ids(op.results));
      RegionRenamed(P, op.thn, sub, next, m, defs, vars);
      CloseRenamed(op', t.sub, t.next, m);
    }
    RenameOne(m, Target(P, op)[0]);
  }

  lemma KeysOf(sub: Sub, sub': Sub, ids: set<nat>)
    requires Grows(sub, sub', ids)
    ensures sub'.Keys == sub.Keys + ids
  {
  }

  lemma {:induction false} RegionGrows(P: Pass, r: Region, sub: Sub, next: nat)
    requires UniqueResults(OpsNodes(r.ops))
    ensures Grows(sub, RwRegion(P, r, sub, next).sub, IdsIn(OpsNodes(r.ops)))
  {
    hide UniqueResults, Grows;
    OpsGrow(P, r.ops, sub, next);
  }

  lemma {:induction false} ForRenamed(P: Pass, op: Op, sub: Sub, next: nat, m: Sub, defs: set<nat>, vars: set<nat>)
    requires op.ForOp? && Verified(op, defs, vars) && defs <= sub.Keys && UniqueResults(OpNodes(op))
    requires IdsIn(OpNodes(op)) !! sub.Keys
    requires Final(RwOp(P, op, sub, next).sub, m) && StoragesApart(P, m)
    ensures RwOp(P, op, sub, next).ops == RenameOps(m, Target(P, op))
    decreases op, 0
  {
    hide UniqueResults, Known, VerifiedRegion, RwRegion, RenameRegion, TargetRegion, Final, Grows, OpNodes, Close,
         NoRepeat;
    ForIds(op);
    OpGrows(P, op, sub, next);
    FinalBefore(sub, RwOp(P, op, sub, next).sub, m, IdsIn(OpNodes(op)));
    KnownPart(op.bounds + Inits(op.iters), op.bounds, defs, vars);
    KnownPart(op.bounds + Inits(op.iters), Inits(op.iters), defs, vars);
    SvsFinal(sub, m, op.bounds, defs, vars);
    SvsFinal(sub, m, Inits(op.iters), defs, vars);
    ItersSame(sub, m, op.iters);
    var b := RwRegion(P, op.body, sub, next);
    RegionGrows(P, op.body, sub, next);
    var op' := ForOp(op.results, op.loopVar, Svs(sub, op.bounds), SubstIters(sub, op.iters), b.region);
    CloseGrows(op', b.sub, b.next);
    KeysOf(sub, b.sub, IdsIn(OpsNodes(op.body.ops)));
    FinalBefore(b.sub, Close(op', b.sub, b.next).sub, m, Rewriter.Ids(op.results));
    RegionRenamed(P, op.body, sub, next, m, defs, vars + LoopVars(op));
    CloseRenamed(op', b.sub, b.next, m);
    RenameOne(m, Target(P, op)[0]);
  }

  lemma ItersSame(sub: Sub, m: Sub, iters: seq<Carried>)
    requires Svs(sub, Inits(iters)) == Svs(m, Inits(iters))
    ensures SubstIters(sub, iters) == SubstIters(m, iters)
  {
    forall k | 0 <= k < |iters| ensures Sv(sub, iters[k].init) == Sv(m, iters[k].init) {
      assert Svs(sub, Inits(iters))[k] == Svs(m, Inits(iters))[k];
    }
  }

  lemma {:induction false} OpRenamed(P: Pass, op: Op, sub: Sub, next: nat, m: Sub, defs: set<nat>, vars: set<nat>)
    requires Verified(op, defs, vars) && defs <= sub.Keys && UniqueResults(OpNodes(op))
    requires IdsIn(OpNodes(op)) !! sub.Keys
    requires Final(RwOp(P, op, sub, next).sub, m) && StoragesApart(P, m)
    ensures RwOp(P, op, sub, next).ops == RenameOps(m, Target(P, op))
    decreases op, 1
  {
    hide UniqueResults, Verified, RwOp, RenameOps, Target, Final, StoragesApart, OpNodes;
    if op.IfOp? {
      IfRenamed(P, op, sub, next, m, defs, vars);
    } else if op.ForOp? {
      ForRenamed(P, op, sub, next, m, defs, vars);
    } else {
      LeafRenamed(P, op, sub, next, m, defs, vars);
    }
  }

  /** With one result per op, every lookup made on the way finds what the final map says: the
      output is the transformed code, renamed by that one map. */
  lemma {:induction false} OpsRenamed(P: Pass, ops: seq<Op>, sub: Sub, next: nat, m: Sub, defs: set<nat>,
                                      vars: set<nat>)
    requires VerifiedOps(ops, defs, vars) && defs <= sub.Keys && UniqueResults(OpsNodes(ops))
    requires IdsIn(OpsNodes(ops)) !! sub.Keys
    requires Final(RwOps(P, ops, sub, next).sub, m) && StoragesApart(P, m)
    ensures RwOps(P, ops, sub, next).ops == RenameOps(m, TargetOps(P, ops))
    decreases ops, 0
  {
    hide UniqueResults, Verified, RwOp, RenameOp, Target, Final, StoragesApart, OpNodes, Grows;
    if ops != [] {
      var first := RwOp(P, ops[0], sub, next);
      var rest := RwOps(P, ops[1..], first.sub, first.next);
      UniqueSplit(OpNodes(ops[0]), OpsNodes(ops[1..]));
      IdsInAppend(OpNodes(ops[0]), OpsNodes(ops[1..]));
      OpGrows(P, ops[0], sub, next);
      OpsGrow(P, ops[1..], first.sub, first.next);
      KeysOf(sub, first.sub, IdsIn(OpNodes(ops[0])));
      FinalBefore(first.sub, rest.sub, m, IdsIn(OpsNodes(ops[1..])));
      OpRenamed(P, ops[0], sub, next, m, defs, vars);
      HeadDefs(ops[0]);
      OpsRenamed(P, ops[1..], first.sub, first.next, m, defs + Rewriter.Ids(Results(ops[0])), vars);
      RenameAppend(m, Target(P, ops[0]), TargetOps(P, ops[1..]));
    }
  }

  lemma {:induction false} HeadDefs(op: Op)
    ensures Rewriter.Ids(Results(op)) <= IdsIn(OpNodes(op))
  {
    assert OpNodes(op) == [OpNode(op)] + OpNodes(op)[1..];
    HeadIds(op, OpNodes(op)[1..]);
  }

  // ---------------------------------------------------------------- the final names

  /** Every result got a new identity of its own, or has kept its own. */
  ghost predicate Injective(sub: Sub, bound: nat, next: nat) {
    && bound <= next
    && (forall i <- sub :: i < bound && (sub[i] == i || bound <= sub[i] < next))
    && (forall i, j :: i in sub && j in sub && sub[i] == sub[j] ==> i == j)
  }

  lemma InjectiveApart(m: Sub, bound: nat, next: nat)
    requires Injective(m, bound, next)
    ensures Apart(m, bound)
  {
  }

  lemma OneMoreInjective(sub: Sub, bound: nat, next: nat, id: nat)
    requires Injective(sub, bound, next) && id < bound
    ensures Injective(sub[id := next], bound, next + 1)
  {
  }

  lemma {:induction false} RegisterInjective(sub: Sub, bound: nat, next: nat, olds: seq<nat>, news: seq<nat>)
    requires Injective(sub, bound, next) && |olds| == |news| && forall id <- olds :: id < bound
    requires forall k :: 0 <= k < |news| ==> news[k] == next + k
    ensures Injective(Register(sub, olds, news), bound, next + |olds|)
    decreases |olds|
  {
    hide Injective;
    if olds != [] {
      assert olds[0] in olds && forall id <- olds[1..] :: id in olds;
      OneMoreInjective(sub, bound, next, olds[0]);
      RegisterInjective(sub[olds[0] := news[0]], bound, next + 1, olds[1..], news[1..]);
    }
  }

  lemma CloseInjective(op: Op, sub: Sub, bound: nat, next: nat)
    requires !IsLeaf(op) && Injective(sub, bound, next) && forall id <- op.results :: id < bound
    ensures var r := Close(op, sub, next); Injective(r.sub, bound, r.next)
  {
    hide Injective;
    RegisterInjective(sub, bound, next, op.results, Fresh(|op.results|, next));
  }

  lemma {:induction false} LeafInjective(P: Pass, op: Op, sub: Sub, bound: nat, next: nat)
    requires IsLeaf(op) && Old(op, bound) && Injective(sub, bound, next)
    ensures var r := RwLeaf(P, op, sub, next); Injective(r.sub, bound, r.next)
  {
    if Results(op) != [] { assert Results(op)[0] in Results(op); }
  }

  lemma {:induction false} OpInjective(P: Pass, op: Op, sub: Sub, bound: nat, next: nat)
    requires Old(op, bound) && Injective(sub, bound, next)
    ensures var r := RwOp(P, op, sub, next); Injective(r.sub, bound, r.next)
    decreases op, 0
  {
    hide Injective, RwOps, RwLeaf, Close;
    if !IsLeaf(op) { assert forall id <- op.results :: id in Results(op); }
    if op.IfOp? {
      OpsInjective(P, op.thn.ops, sub, bound, next);
      var t := RwRegion(P, op.thn, sub, next);
      if op.els.Some? {
        OpsInjective(P, op.els.value.ops, t.sub, bound, t.next);
        var e := RwRegion(P, op.els.value, t.sub, t.next);
        CloseInjective(IfOp(op.results, Sv(sub, op.cond), t.region, Some(e.region)), e.sub, bound, e.next);
      } else {
        CloseInjective(IfOp(op.results, Sv(sub, op.cond), t.region, None), t.sub, bound, t.next);
      }
    } else if op.ForOp? {
      OpsInjective(P, op.body.ops, sub, bound, next);
      var b := RwRegion(P, op.body, sub, next);
      CloseInjective(ForOp(op.results, op.loopVar, Svs(sub, op.bounds), SubstIters(sub, op.iters), b.region), b.sub,
                     bound, b.next);
    } else {
      LeafInjective(P, op, sub, bound, next);
    }
  }

  lemma {:induction false} OpsInjective(P: Pass, ops: seq<Op>, sub: Sub, bound: nat, next: nat)
    requires OldOps(ops, bound) && Injective(sub, bound, next)
    ensures var r := RwOps(P, ops, sub, next); Injective(r.sub, bound, r.next)
    decreases ops, 0
  {
    hide Injective, RwOp, Old;
    if ops != [] {
      OpInjective(P, ops[0], sub, bound, next);
      var first := RwOp(P, ops[0], sub, next);
      OpsInjective(P, ops[1..], first.sub, bound, first.next);
    }
  }

  /** Loop variables are objects of their own, and there are no storages yet. */
  predicate LoopsApart(op: Op, results: set<nat>, bound: nat)
    decreases op, 1
  {
    match op
    case IfOp(_, _, thn, els) => AllLoopsApart(thn.ops, results, bound) &&
      (els.Some? ==> AllLoopsApart(els.value.ops, results, bound))
    case ForOp(_, _, _, _, body) => (forall id <- LoopVars(op) :: id !in results && id < bound) &&
      AllLoopsApart(body.ops, results, bound)
    case _ => !op.StorageOp?
  }

  predicate AllLoopsApart(ops: seq<Op>, results: set<nat>, bound: nat)
    decreases ops, 0
  {
    ops == [] || (LoopsApart(ops[0], results, bound) && AllLoopsApart(ops[1..], results, bound))
  }

  lemma KnownStays(vs: seq<Value>, defs: set<nat>, vars: set<nat>, m: Sub)
    requires Known(vs, defs, vars) && vars !! m.Keys
    ensures Stay(m, vs)
  {
  }

  lemma {:induction false} OpFits(P: Pass, m: Sub, bound: nat, op: Op, defs: set<nat>, vars: set<nat>)
    requires Verified(op, defs, vars) && Old(op, bound) && LoopsApart(op, m.Keys, bound)
    requires vars !! m.Keys && IdsIn(OpNodes(op)) <= m.Keys
    ensures FitsOp(P, m, bound, op)
    decreases op, 1
  {
    hide FitsRegion, VerifiedRegion, OldOps, AllLoopsApart, OpNodes, Known, Stay;
    if op.IfOp? {
      IfIds(op);
      KnownStays([op.cond], defs, vars, m);
      RegionFits(P, m, bound, op.thn, defs, vars);
      if op.els.Some? { RegionFits(P, m, bound, op.els.value, defs, vars); }
    } else if op.ForOp? {
      ForIds(op);
      KnownStays(op.bounds + Inits(op.iters), defs, vars, m);
      assert forall id <- Vars(op.iters) :: id in LoopVars(op);
      assert vars + LoopVars(op) !! m.Keys;
      RegionFits(P, m, bound, op.body, defs, vars + LoopVars(op));
    } else {
      KnownStays(Refs(OpNode(op)), defs, vars, m);
      if Selected(P, op) {
        assert Refs(OpNode(op)) == op.args;
        SingleId(op);
        assert op.res !in defs by { assert Results(op)[0] in Results(op); }
        KnownNotOwn(op, defs, vars, m.Keys);
      }
    }
  }

  lemma KnownNotOwn(op: Op, defs: set<nat>, vars: set<nat>, keys: set<nat>)
    requires op.ComputeOp? && Known(op.args, defs, vars) && op.res !in defs && op.res in keys && vars !! keys
    ensures NotOwn(op)
  {
  }

  lemma {:induction false} RegionFits(P: Pass, m: Sub, bound: nat, r: Region, defs: set<nat>, vars: set<nat>)
    requires VerifiedRegion(r, defs, vars) && OldOps(r.ops, bound) && AllLoopsApart(r.ops, m.Keys, bound)
    requires vars !! m.Keys && IdsIn(OpsNodes(r.ops)) <= m.Keys
    ensures FitsRegion(P, m, bound, r)
    decreases r, 0
  {
    hide VerifiedOps, Known, Stay;
    OpsFit(P, m, bound, r.ops, defs, vars);
    KnownStays(r.yielded, defs + DefsOf(r.ops), vars, m);
  }

  lemma {:induction false} OpsFit(P: Pass, m: Sub, bound: nat, ops: seq<Op>, defs: set<nat>, vars: set<nat>)
    requires VerifiedOps(ops, defs, vars) && OldOps(ops, bound) && AllLoopsApart(ops, m.Keys, bound)
    requires vars !! m.Keys && IdsIn(OpsNodes(ops)) <= m.Keys
    ensures FitsOps(P, m, bound, ops)
    decreases ops, 0
  {
    hide Verified, Old, LoopsApart, FitsOp, OpNodes;
    if ops != [] {
      IdsInAppend(OpNodes(ops[0]), OpsNodes(ops[1..]));
      OpFits(P, m, bound, ops[0], defs, vars);
      OpsFit(P, m, bound, ops[1..], defs + Rewriter.Ids(Results(ops[0])), vars);
    }
  }

  /** What the verifier guarantees, and that the IR is a tree of distinct objects. */
  ghost predicate Sane(fn: Func, bound: nat) {
    var results := IdsIn(OpsNodes(fn.body));
    && VerifiedFunc(fn) && UniqueResults(OpsNodes(fn.body)) && OldOps(fn.body, bound)
    && AllLoopsApart(fn.body, results, bound) && forall id <- fn.params :: id < bound && id !in results
  }

  /** The map the rewriter ends with. */
  function FinalMap(P: Pass, fn: Func, next: nat): Sub {
    RwOps(P, fn.body, map[], next).sub
  }

  lemma {:induction false} FinalMapIs(P: Pass, fn: Func, bound: nat, next: nat)
    requires Sane(fn, bound) && bound <= next
    ensures var m := FinalMap(P, fn, next);
      m.Keys == IdsIn(OpsNodes(fn.body)) && Apart(m, bound) && FitsOps(P, m, bound, fn.body) && Stay(m, fn.ret)
  {
    hide UniqueResults, VerifiedOps, OldOps, AllLoopsApart, RwOps, Known, Stay;
    var r := RwOps(P, fn.body, map[], next);
    OpsGrow(P, fn.body, map[], next);
    assert r.sub.Keys == IdsIn(OpsNodes(fn.body));
    OpsInjective(P, fn.body, map[], bound, next);
    InjectiveApart(r.sub, bound, r.next);
    OpsFit(P, r.sub, bound, fn.body, {}, Rewriter.Ids(fn.params));
    KnownStays(fn.ret, DefsOf(fn.body), Rewriter.Ids(fn.params), r.sub);
  }

  /** The output of the pass is the transformed body, renamed by the final map. */
  lemma {:induction false} OutputIs(P: Pass, fn: Func, bound: nat, next: nat)
    requires Sane(fn, bound) && bound <= next
    requires P.Placing? ==> forall id <- P.home :: P.home[id] !in IdsIn(OpsNodes(fn.body))
    ensures var m, fn' := FinalMap(P, fn, next), RwFunc(P, fn, next);
      fn'.body == RenameOps(m, TargetOps(P, fn.body)) && fn'.ret == Svs(m, fn.ret) && fn'.params == fn.params
  {
    hide UniqueResults, VerifiedOps, RwOps, RenameOps, TargetOps;
    var m := FinalMap(P, fn, next);
    FinalMapIs(P, fn, bound, next);
    OpsRenamed(P, fn.body, map[], next, m, {}, Rewriter.Ids(fn.params));
  }
}

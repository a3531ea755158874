/** Destination-passing lowering leaves no functional call that has a kernel
    (python/devproc2/compiler/passes/dps_lowering.py). */
module ReplacedCalls {
  import opened Bytecode
  import opened IRValues
  import opened TensorIR
  import opened Rewriter

  /** Every functional call among the nodes has a destination-passing function. */
  predicate Served(P: Pass, nodes: seq<Node>)
    requires P.Dps?
  {
    forall n <- nodes :: n.OpNode? && n.op.ComputeOp? ==> P.kernelOf(n.op).Some?
  }

  predicate NoCalls(nodes: seq<Node>) {
    forall n <- nodes :: n.OpNode? ==> !n.op.ComputeOp?
  }

  lemma ServedParts(P: Pass, a: seq<Node>, b: seq<Node>)
    requires P.Dps? && Served(P, a + b)
    ensures Served(P, a) && Served(P, b)
  {
    assert forall n <- a :: n in a + b;
    assert forall n <- b :: n in a + b;
  }

  lemma OneOp(op: Op)
    ensures OpsNodes([op]) == OpNodes(op)
  {
    assert OpsNodes([op]) == OpNodes(op) + OpsNodes([]);
  }

  lemma {:induction false} RegionIsReplaced(P: Pass, r: Region, sub: Sub, next: nat)
    requires P.Dps? && Served(P, RegionNodes(r))
    ensures NoCalls(RegionNodes(RwRegion(P, r, sub, next).region))
    decreases r, 0
  {
    ServedParts(P, OpsNodes(r.ops), [YieldNode(r.yielded)]);
    OpsAreReplaced(P, r.ops, sub, next);
  }

  lemma {:induction false} OpIsReplaced(P: Pass, op: Op, sub: Sub, next: nat)
    requires P.Dps? && Served(P, OpNodes(op))
    ensures NoCalls(OpsNodes(RwOp(P, op, sub, next).ops))
    decreases op, 1
  {
    match op
    case IfOp(results, cond, thn, els) =>
      hide RwRegion, Register, RegionNodes;
      ServedParts(P, [OpNode(op)], RegionNodes(thn) + if els.Some? then RegionNodes(els.value) else []);
      ServedParts(P, RegionNodes(thn), if els.Some? then RegionNodes(els.value) else []);
      RegionIsReplaced(P, thn, sub, next);
      var t := RwRegion(P, thn, sub, next);
      if els.Some? { RegionIsReplaced(P, els.value, t.sub, t.next); }
      OneOp(RwOp(P, op, sub, next).ops[0]);
    case ForOp(results, loopVar, bounds, iters, body) =>
      hide RwRegion, Register, RegionNodes;
      ServedParts(P, [OpNode(op)], RegionNodes(body));
      RegionIsReplaced(P, body, sub, next);
      OneOp(RwOp(P, op, sub, next).ops[0]);
    case _ => LeafIsReplaced(P, op, sub, next);
  }

  lemma LeafIsReplaced(P: Pass, op: Op, sub: Sub, next: nat)
    requires P.Dps? && IsLeaf(op) && Served(P, OpNodes(op))
    ensures NoCalls(OpsNodes(RwLeaf(P, op, sub, next).ops))
  {
    hide Svs, Sv, SubstEffect;
    assert OpNode(op) in OpNodes(op);
    var ops := RwLeaf(P, op, sub, next).ops;
    OneOp(ops[0]);
    if Selected(P, op) {
      assert ops == [ops[0]] + [ops[1]];
      OneOp(ops[1]);
      OpsNodesAppend([ops[0]], [ops[1]]);
    }
  }

  lemma {:induction false} OpsAreReplaced(P: Pass, ops: seq<Op>, sub: Sub, next: nat)
    requires P.Dps? && Served(P, OpsNodes(ops))
    ensures NoCalls(OpsNodes(RwOps(P, ops, sub, next).ops))
    decreases ops, 0
  {
    hide RwOp, OpNodes;
    if ops != [] {
      var first := RwOp(P, ops[0], sub, next);
      ServedParts(P, OpNodes(ops[0]), OpsNodes(ops[1..]));
      OpIsReplaced(P, ops[0], sub, next);
      OpsAreReplaced(P, ops[1..], first.sub, first.next);
      OpsNodesAppend(first.ops, RwOps(P, ops[1..], first.sub, first.next).ops);
    }
  }

  /** If each functional call of a function has a kernel, none is left in its lowered form, in no region. */
  lemma CallsAreReplaced(P: Pass, fn: Func, next: nat)
    requires P.Dps? && Served(P, FuncNodes(fn))
    ensures NoCalls(FuncNodes(RwFunc(P, fn, next)))
  {
    ServedParts(P, OpsNodes(fn.body), [ReturnNode(fn.ret)]);
    OpsAreReplaced(P, fn.body, map[], next);
  }

  // ---------------------------------------------------------------- opaque calls

  predicate IsOpaque(n: Node) {
    n.OpNode? && n.op.CallOp? && n.op.effect.isOpaque
  }

  /** The targets of the opaque calls, in order. */
  function Opaques(nodes: seq<Node>): seq<string> {
    if nodes == [] then [] else (if IsOpaque(nodes[0]) then [nodes[0].op.target] else []) + Opaques(nodes[1..])
  }

  lemma {:induction false} OpaquesAppend(a: seq<Node>, b: seq<Node>)
    ensures Opaques(a + b) == Opaques(a) + Opaques(b)
    decreases |a|
  {
    if a == [] {
      assert a + b == b && [] + Opaques(b) == Opaques(b);
    } else {
      assert (a + b)[0] == a[0] && (a + b)[1..] == a[1..] + b;
      OpaquesAppend(a[1..], b);
      var first := if IsOpaque(a[0]) then [a[0].op.target] else [];
      assert first + (Opaques(a[1..]) + Opaques(b)) == first + Opaques(a[1..]) + Opaques(b);
    }
  }

  lemma {:induction false} OneNode(n: Node)
    ensures Opaques([n]) == if IsOpaque(n) then [n.op.target] else []
  {
    assert [n][0] == n && [n][1..] == [];
    assert Opaques([]) == [];
  }

  lemma {:induction false} RegionStaysOpaque(P: Pass, r: Region, sub: Sub, next: nat)
    ensures Opaques(RegionNodes(RwRegion(P, r, sub, next).region)) == Opaques(RegionNodes(r))
    decreases r, 0
  {
    var q := RwRegion(P, r, sub, next).region;
    OpsStayOpaque(P, r.ops, sub, next);
    OneNode(YieldNode(r.yielded));
    OneNode(YieldNode(q.yielded));
    OpaquesAppend(OpsNodes(r.ops), [YieldNode(r.yielded)]);
    OpaquesAppend(OpsNodes(q.ops), [YieldNode(q.yielded)]);
  }

  lemma {:induction false} OpStaysOpaque(P: Pass, op: Op, sub: Sub, next: nat)
    ensures Opaques(OpsNodes(RwOp(P, op, sub, next).ops)) == Opaques(OpNodes(op))
    decreases op, 1
  {
    match op
    case IfOp(results, cond, thn, els) =>
      hide RwRegion, Register, RegionNodes, Opaques;
      var op' := RwOp(P, op, sub, next).ops[0];
      RegionStaysOpaque(P, thn, sub, next);
      var t := RwRegion(P, thn, sub, next);
      if els.Some? { RegionStaysOpaque(P, els.value, t.sub, t.next); }
      OneOp(op');
      IfOpaques(op);
      IfOpaques(op');
    case ForOp(results, loopVar, bounds, iters, body) =>
      hide RwRegion, Register, RegionNodes, Opaques;
      var op' := RwOp(P, op, sub, next).ops[0];
      RegionStaysOpaque(P, body, sub, next);
      OneOp(op');
      OneNode(OpNode(op));
      OneNode(OpNode(op'));
      OpaquesAppend([OpNode(op)], RegionNodes(body));
      OpaquesAppend([OpNode(op')], RegionNodes(op'.body));
    case _ => LeafStaysOpaque(P, op, sub, next);
  }

  lemma IfOpaques(op: Op)
    requires op.IfOp?
    ensures Opaques(OpNodes(op)) ==
      Opaques(RegionNodes(op.thn)) + if op.els.Some? then Opaques(RegionNodes(op.els.value)) else []
  {
    hide RegionNodes;
    var rest := if op.els.Some? then RegionNodes(op.els.value) else [];
    OneNode(OpNode(op));
    OpaquesAppend([OpNode(op)], RegionNodes(op.thn) + rest);
    OpaquesAppend(RegionNodes(op.thn), rest);
  }

  lemma CallIsNotOpaque(P: Pass, op: Op, sub: Sub, next: nat)
    requires Selected(P, op)
    ensures Opaques(OpsNodes(RwLeaf(P, op, sub, next).ops)) == []
  {
    hide Svs, Sv;
    var ops := RwLeaf(P, op, sub, next).ops;
    assert ops == [ops[0]] + [ops[1]];
    OneOp(ops[0]);
    OneOp(ops[1]);
    OpsNodesAppend([ops[0]], [ops[1]]);
    assert OpsNodes(ops) == [OpNode(ops[0])] + [OpNode(ops[1])];
    OneNode(OpNode(ops[0]));
    OneNode(OpNode(ops[1]));
    OpaquesAppend([OpNode(ops[0])], [OpNode(ops[1])]);
  }

  lemma LeafStaysOpaque(P: Pass, op: Op, sub: Sub, next: nat)
    requires IsLeaf(op)
    ensures Opaques(OpsNodes(RwLeaf(P, op, sub, next).ops)) == Opaques(OpNodes(op))
  {
    hide Svs, Sv, Opaques;
    assert OpNodes(op) == [OpNode(op)];
    OneNode(OpNode(op));
    if Selected(P, op) {
      CallIsNotOpaque(P, op, sub, next);
    } else {
      var op' := RwLeaf(P, op, sub, next).ops[0];
      OneOp(op');
      assert OpNodes(op') == [OpNode(op')];
      OneNode(OpNode(op'));
    }
  }

  lemma {:induction false} OpsStayOpaque(P: Pass, ops: seq<Op>, sub: Sub, next: nat)
    ensures Opaques(OpsNodes(RwOps(P, ops, sub, next).ops)) == Opaques(OpsNodes(ops))
    decreases ops, 0
  {
    hide RwOp, OpNodes;
    if ops != [] {
      var first := RwOp(P, ops[0], sub, next);
      var rest := RwOps(P, ops[1..], first.sub, first.next);
      OpStaysOpaque(P, ops[0], sub, next);
      OpsStayOpaque(P, ops[1..], first.sub, first.next);
      OpsNodesAppend(first.ops, rest.ops);
      OpaquesAppend(OpsNodes(first.ops), OpsNodes(rest.ops));
      OpaquesAppend(OpNodes(ops[0]), OpsNodes(ops[1..]));
    }
  }

  /** Whatever the pass, the opaque calls of a function stay opaque, in the same order, and none is added. */
  lemma OpaqueCallsStay(P: Pass, fn: Func, next: nat)
    ensures Opaques(FuncNodes(RwFunc(P, fn, next))) == Opaques(FuncNodes(fn))
  {
    var fn' := RwFunc(P, fn, next);
    OpsStayOpaque(P, fn.body, map[], next);
    OneNode(ReturnNode(fn.ret));
    OneNode(ReturnNode(fn'.ret));
    OpaquesAppend(OpsNodes(fn.body), [ReturnNode(fn.ret)]);
    OpaquesAppend(OpsNodes(fn'.body), [ReturnNode(fn'.ret)]);
  }
}

/** Every buffer that the lowering of functional calls creates is filled at once
    (python/devproc2/compiler/passes/dps_lowering.py): on every run, its creation is followed by the
    call that writes it, which does not take it as an input. */
module FilledBuffers {
  import opened Bytecode
  import opened IRValues
  import opened TensorIR
  import opened TensorSemantics
  import opened Rewriter
  import opened Renaming
  import opened RewriterCorrect

  // ---------------------------------------------------------------- what a run executes

  /** The ops in the order of execution; an op with regions comes before what it executes of them. */
  function TraceOps(C: Context, ops: seq<Op>, st: TState): seq<Op>
    decreases ops, 0, 0
  {
    if ops == [] then []
    else
      TraceOp(C, ops[0], st) +
      match Exec(C, ops[0], st)
      case Some(next) => TraceOps(C, ops[1..], next)
      case None => []
  }

  function TraceOp(C: Context, op: Op, st: TState): seq<Op>
    decreases op, 1, 0
  {
    [op] +
    if op.IfOp? then
      var v := EvalV(op.cond, st.env);
      if v.None? || !v.value.TScalar? || !v.value.c.Bool? then []
      else if v.value.c.b then TraceOps(C, op.thn.ops, st)
      else if op.els.Some? then TraceOps(C, op.els.value.ops, st)
      else []
    else if op.ForOp? then
      var range, inits := LoopRange(op.bounds, st.env), EvalVs(Inits(op.iters), st.env);
      if range.None? || inits.None? then [] else TraceLoop(C, op, range.value, inits.value, 0, st)
    else []
  }

  function TraceLoop(C: Context, op: Op, range: Range, vals: seq<TVal>, k: nat, st: TState): seq<Op>
    requires op.ForOp?
    decreases op, 0, if range.end >= range.start then range.end - range.start else 0
  {
    if range.start >= range.end || range.step <= 0 || |vals| != |op.iters| then []
    else
      var enter := EnterBody(op, range.start, vals, k, st);
      TraceOps(C, op.body.ops, enter) +
      var inner := ExecOps(C, op.body.ops, enter);
      var next := if inner.Some? then EvalVs(op.body.yielded, inner.value.env) else None;
      if next.None? then []
      else TraceLoop(C, op, range.(start := range.start + range.step), next.value, k + 1,
                     inner.value.(env := st.env, turn := st.turn))
  }

  lemma {:induction false} TraceAppend(C: Context, a: seq<Op>, b: seq<Op>, st: TState)
    requires ExecOps(C, a, st).Some?
    ensures TraceOps(C, a + b, st) == TraceOps(C, a, st) + TraceOps(C, b, ExecOps(C, a, st).value)
  {
    hide TraceOp, Exec;
    if a == [] {
      assert a + b == b && [] + TraceOps(C, b, st) == TraceOps(C, b, st);
    } else {
      assert (a + b)[1..] == a[1..] + b;
      TraceAppend(C, a[1..], b, Exec(C, a[0], st).value);
    }
  }

  // ---------------------------------------------------------------- the trace is what happened

  /** The calls among the ops, by target. */
  function CallsIn(tr: seq<Op>): seq<string> {
    if tr == [] then [] else CallsIn(tr[..|tr| - 1]) + if tr[|tr| - 1].CallOp? then [tr[|tr| - 1].target] else []
  }

  function Targets(h: History): (ts: seq<string>)
    ensures |ts| == |h| && forall k :: 0 <= k < |h| ==> ts[k] == h[k].target
  {
    seq(|h|, k requires 0 <= k < |h| => h[k].target)
  }

  lemma {:induction false} CallsAppend(a: seq<Op>, b: seq<Op>)
    ensures CallsIn(a + b) == CallsIn(a) + CallsIn(b)
    decreases |b|
  {
    if b == [] {
      assert a + b == a && CallsIn(a) + [] == CallsIn(a);
    } else {
      var last := b[|b| - 1];
      assert (a + b)[..|a + b| - 1] == a + b[..|b| - 1] && (a + b)[|a + b| - 1] == last;
      CallsAppend(a, b[..|b| - 1]);
      var one := if last.CallOp? then [last.target] else [];
      assert CallsIn(a) + (CallsIn(b[..|b| - 1]) + one) == CallsIn(a) + CallsIn(b[..|b| - 1]) + one;
    }
  }

  lemma {:induction false} NoCall(op: Op)
    ensures CallsIn([op]) == if op.CallOp? then [op.target] else []
  {
    assert [op][..0] == [] && [op][0] == op;
    assert CallsIn([]) == [];
  }

  /** Between the two histories, the calls of the trace were made. */
  predicate Made(before: History, after: History, tr: seq<Op>) {
    Targets(after) == Targets(before) + CallsIn(tr)
  }

  lemma MadeBoth(h: History, h1: History, h2: History, a: seq<Op>, b: seq<Op>)
    requires Made(h, h1, a) && Made(h1, h2, b)
    ensures Made(h, h2, a + b)
  {
    CallsAppend(a, b);
    assert Targets(h) + CallsIn(a) + CallsIn(b) == Targets(h) + (CallsIn(a) + CallsIn(b));
  }

  lemma NothingMade(h: History)
    ensures Made(h, h, [])
  {
    assert Targets(h) + [] == Targets(h);
  }

  lemma LeafMakes(C: Context, op: Op, st: TState)
    requires IsLeaf(op) && Exec(C, op, st).Some?
    ensures Made(st.hist, Exec(C, op, st).value.hist, [op])
  {
    hide EvalVs, WriteAll, Filled, EvalV, EffectOf;
    NoCall(op);
    if op.CallOp? {
      assert Targets(Exec(C, op, st).value.hist) == Targets(st.hist) + [op.target];
    } else {
      assert Exec(C, op, st).value.hist == st.hist;
      assert Targets(st.hist) + [] == Targets(st.hist);
    }
  }

  lemma {:induction false} OpMakes(C: Context, op: Op, st: TState)
    requires Exec(C, op, st).Some?
    ensures Made(st.hist, Exec(C, op, st).value.hist, TraceOp(C, op, st))
    decreases op, 2, 0
  {
    hide ExecOps, ExecLoop, TraceOps, TraceLoop, CallsIn, Made, BindVals;
    var tr, r := TraceOp(C, op, st), Exec(C, op, st).value;
    if IsLeaf(op) {
      LeafMakes(C, op, st);
      assert tr == [op];
    } else {
      assert Made(st.hist, st.hist, [op]) by { RegionMakesNothing(op, st.hist); }
      if op.IfOp? {
        var c := EvalV(op.cond, st.env).value.c.b;
        if c {
          TraceIsHistory(C, op.thn.ops, st);
          MadeBoth(st.hist, st.hist, r.hist, [op], TraceOps(C, op.thn.ops, st));
        } else if op.els.Some? {
          TraceIsHistory(C, op.els.value.ops, st);
          MadeBoth(st.hist, st.hist, r.hist, [op], TraceOps(C, op.els.value.ops, st));
        } else {
          assert tr == [op];
        }
      } else {
        var range, inits := LoopRange(op.bounds, st.env).value, EvalVs(Inits(op.iters), st.env).value;
        LoopMakes(C, op, range, inits, 0, st);
        MadeBoth(st.hist, st.hist, r.hist, [op], TraceLoop(C, op, range, inits, 0, st));
      }
    }
  }

  lemma RegionMakesNothing(op: Op, h: History)
    requires !op.CallOp?
    ensures Made(h, h, [op])
  {
    NoCall(op);
    assert Targets(h) + [] == Targets(h);
  }

  lemma {:induction false} LoopMakes(C: Context, op: Op, range: Range, vals: seq<TVal>, k: nat, st: TState)
    requires op.ForOp? && ExecLoop(C, op, range, vals, k, st).Some?
    ensures Made(st.hist, ExecLoop(C, op, range, vals, k, st).value.1.hist, TraceLoop(C, op, range, vals, k, st))
    decreases op, 0, if range.end >= range.start then range.end - range.start else 0
  {
    hide ExecOps, TraceOps, CallsIn, Made, BindVals;
    if range.start < range.end {
      var enter := EnterBody(op, range.start, vals, k, st);
      var inner := ExecOps(C, op.body.ops, enter).value;
      var next, st' := EvalVs(op.body.yielded, inner.env).value, inner.(env := st.env, turn := st.turn);
      TraceIsHistory(C, op.body.ops, enter);
      LoopMakes(C, op, range.(start := range.start + range.step), next, k + 1, st');
      MadeBoth(st.hist, inner.hist, ExecLoop(C, op, range, vals, k, st).value.1.hist, TraceOps(C, op.body.ops, enter),
               TraceLoop(C, op, range.(start := range.start + range.step), next, k + 1, st'));
    } else {
      NothingMade(st.hist);
    }
  }

  /** A run makes exactly the calls of its trace, in order. */
  lemma {:induction false} TraceIsHistory(C: Context, ops: seq<Op>, st: TState)
    requires ExecOps(C, ops, st).Some?
    ensures Made(st.hist, ExecOps(C, ops, st).value.hist, TraceOps(C, ops, st))
    decreases ops, 0, 0
  {
    hide Exec, TraceOp, Made;
    if ops == [] {
      NothingMade(st.hist);
    } else {
      var next := Exec(C, ops[0], st).value;
      OpMakes(C, ops[0], st);
      TraceIsHistory(C, ops[1..], next);
      MadeBoth(st.hist, next.hist, ExecOps(C, ops, st).value.hist, TraceOp(C, ops[0], st), TraceOps(C, ops[1..], next));
    }
  }

  // ---------------------------------------------------------------- filled at once

  /** The call writes the buffer, and reads nothing of it. */
  predicate Fills(op: Op, id: nat) {
    op.CallOp? && op.outputs == [Res(id)] && EffectOf(op).writing == [Res(id)] && EffectOf(op).reading == [] &&
      Res(id) !in op.inputs
  }

  predicate FilledNext(ids: set<nat>, tr: seq<Op>) {
    forall i :: 0 <= i < |tr| && tr[i].CreateOp? && tr[i].res in ids ==> FilledAt(tr, i)
  }

  predicate FilledAt(tr: seq<Op>, i: nat)
    requires i < |tr| && tr[i].CreateOp?
  {
    i + 1 < |tr| && Fills(tr[i + 1], tr[i].res)
  }

  lemma FilledAppend(ids: set<nat>, a: seq<Op>, b: seq<Op>)
    requires FilledNext(ids, a) && FilledNext(ids, b)
    ensures FilledNext(ids, a + b)
  {
    hide Fills;
    var tr := a + b;
    forall i | 0 <= i < |tr| && tr[i].CreateOp? && tr[i].res in ids ensures FilledAt(tr, i) {
      if i < |a| {
        assert FilledAt(a, i) && tr[i + 1] == a[i + 1];
      } else {
        assert b[i - |a|] == tr[i] && FilledAt(b, i - |a|) && tr[i + 1] == b[i - |a| + 1];
      }
    }
  }

  // ---------------------------------------------------------------- the lowered program

  /** The buffers that the lowering creates, by the functional calls they are for. */
  function Inserted(P: Pass, nodes: seq<Node>): set<nat> {
    set n <- nodes | n.OpNode? && Selected(P, n.op) :: n.op.res
  }

  function Renamed(m: Sub, ids: set<nat>): set<nat> {
    set id <- ids :: Rn(m, id)
  }

  /** No creation of the old program is one of them. */
  predicate OldCreations(nodes: seq<Node>, ids: set<nat>) {
    forall n <- nodes :: n.OpNode? && n.op.CreateOp? ==> n.op.res !in ids
  }

  predicate OneToOne(m: Sub) {
    forall i, j :: i in m && j in m && m[i] == m[j] ==> i == j
  }

  function Lowered(P: Pass, m: Sub, ops: seq<Op>): seq<Op> {
    RenameOps(m, TargetOps(P, ops))
  }

  /** The two ops that a functional call becomes. */
  lemma {:induction false} PairIsFilled(P: Pass, m: Sub, op: Op, defs: set<nat>, vars: set<nat>)
    requires Selected(P, op) && Verified(op, defs, vars) && defs <= m.Keys && op.res in m && OneToOne(m)
    ensures var ops := RenameOps(m, Target(P, op));
      (|ops| == 2 && IsLeaf(ops[0]) && ops[0].CreateOp? && ops[0].res == Rn(m, op.res) && Fills(ops[1], Rn(m, op.res)))
  {
    var create, call := Target(P, op)[0], Target(P, op)[1];
    assert Target(P, op) == [create] + [call];
    RenameAppend(m, [create], [call]);
    RenameOne(m, create);
    RenameOne(m, call);
    ComputeRefs(op);
    assert op.res in Results(op);
    WriteCallRefs(P.kernelOf(op).value, op.args, Res(op.res));
    var id, call' := Rn(m, op.res), RenameOp(m, call);
    assert Svs(m, [Res(op.res)]) == [Res(id)] && Svs(m, []) == [];
    assert Missing([Res(id)], [Res(id)]) == [];
    forall v | v in call'.inputs ensures v != Res(id) {
      var k :| 0 <= k < |op.args| && v == Sv(m, op.args[k]);
      assert op.args[k] in op.args;
    }
  }

  lemma {:induction false} LeafIsOne(P: Pass, m: Sub, op: Op)
    requires IsLeaf(op) && !Selected(P, op) && !P.Placing?
    ensures RenameOps(m, Target(P, op)) == [RenameOp(m, op)]
    ensures RenameOp(m, op).CreateOp? ==> op.CreateOp? && RenameOp(m, op).res == Rn(m, op.res)
    ensures IsLeaf(RenameOp(m, op))
  {
    RenameOne(m, op);
  }

  lemma OldIsNotNew(m: Sub, ids: set<nat>, id: nat)
    requires OneToOne(m) && ids <= m.Keys && id in m && id !in ids
    ensures Rn(m, id) !in Renamed(m, ids)
  {
  }

  lemma {:induction false} TraceLeaf(C: Context, op: Op, st: TState)
    requires IsLeaf(op)
    ensures TraceOp(C, op, st) == [op] && TraceOps(C, [op], st) == [op]
  {
    assert [op][1..] == [] && [op] + [] == [op];
    if Exec(C, op, st).Some? { assert TraceOps(C, [], Exec(C, op, st).value) == []; }
  }

  /** An op alone. */
  lemma {:induction false} TraceOne(C: Context, op: Op, st: TState)
    requires Exec(C, op, st).Some?
    ensures TraceOps(C, [op], st) == TraceOp(C, op, st)
  {
    hide TraceOp, Exec;
    assert [op][1..] == [];
    assert TraceOps(C, [], Exec(C, op, st).value) == [];
    assert TraceOp(C, op, st) + [] == TraceOp(C, op, st);
  }

  // ---------------------------------------------------------------- every run

  ghost predicate Ready(P: Pass, m: Sub, ids: set<nat>, nodes: seq<Node>, defs: set<nat>) {
    !P.Placing? && OneToOne(m) && defs <= m.Keys && IdsIn(nodes) <= m.Keys && ids <= m.Keys && OldCreations(nodes, ids)
  }

  lemma ReadyParts(P: Pass, m: Sub, ids: set<nat>, a: seq<Node>, b: seq<Node>, defs: set<nat>, more: set<nat>)
    requires Ready(P, m, ids, a + b, defs) && more <= m.Keys
    ensures Ready(P, m, ids, a, defs) && Ready(P, m, ids, b, defs + more)
  {
    IdsInAppend(a, b);
    assert forall n <- a :: n in a + b;
    assert forall n <- b :: n in a + b;
  }

  lemma {:induction false} ReadyInside(P: Pass, m: Sub, ids: set<nat>, nodes: seq<Node>, part: seq<Node>,
                                       defs: set<nat>)
    requires Ready(P, m, ids, nodes, defs) && IdsIn(part) <= IdsIn(nodes) && forall n <- part :: n in nodes
    ensures Ready(P, m, ids, part, defs)
  {
  }

  lemma {:induction false} OpsFilled(C: Context, P: Pass, m: Sub, ids: set<nat>, ops: seq<Op>, defs: set<nat>,
                                     vars: set<nat>, st: TState)
    requires Ready(P, m, ids, OpsNodes(ops), defs) && VerifiedOps(ops, defs, vars)
    requires ExecOps(C, Lowered(P, m, ops), st).Some?
    ensures FilledNext(Renamed(m, ids), TraceOps(C, Lowered(P, m, ops), st))
    decreases ops, 0, 0
  {
    hide Ready, Verified, Target, RenameOp, FilledNext, Exec, OpNodes;
    if ops == [] {
      NothingFilled(Renamed(m, ids));
    } else {
      var a, b := RenameOps(m, Target(P, ops[0])), Lowered(P, m, ops[1..]);
      RenameAppend(m, Target(P, ops[0]), TargetOps(P, ops[1..]));
      ExecAppend(C, a, b, st);
      ResultsReady(P, m, ids, ops[0], OpsNodes(ops[1..]), defs);
      OpFilled(C, P, m, ids, ops[0], defs, vars, st);
      OpsFilled(C, P, m, ids, ops[1..], defs + Rewriter.Ids(Results(ops[0])), vars, ExecOps(C, a, st).value);
      TraceAppend(C, a, b, st);
      FilledAppend(Renamed(m, ids), TraceOps(C, a, st), TraceOps(C, b, ExecOps(C, a, st).value));
    }
  }

  lemma NothingFilled(ids: set<nat>)
    ensures FilledNext(ids, [])
  {
  }

  lemma {:induction false} ResultsReady(P: Pass, m: Sub, ids: set<nat>, op: Op, rest: seq<Node>, defs: set<nat>)
    requires Ready(P, m, ids, OpNodes(op) + rest, defs)
    ensures Ready(P, m, ids, OpNodes(op), defs) && Ready(P, m, ids, rest, defs + Rewriter.Ids(Results(op)))
  {
    hide OpNodes, OldCreations, OneToOne;
    IdsInAppend(OpNodes(op), rest);
    assert Rewriter.Ids(ResultsAt(OpNodes(op)[0])) <= IdsIn(OpNodes(op));
    ReadyParts(P, m, ids, OpNodes(op), rest, defs, Rewriter.Ids(Results(op)));
  }

  lemma {:induction false} OpFilled(C: Context, P: Pass, m: Sub, ids: set<nat>, op: Op, defs: set<nat>, vars: set<nat>,
                                    st: TState)
    requires Ready(P, m, ids, OpNodes(op), defs) && Verified(op, defs, vars)
    requires ExecOps(C, RenameOps(m, Target(P, op)), st).Some?
    ensures FilledNext(Renamed(m, ids), TraceOps(C, RenameOps(m, Target(P, op)), st))
    decreases op, 1, 1
  {
    hide Ready, Verified, Target, RenameOp, FilledNext, Exec, OpNodes, TraceOps;
    if op.IfOp? {
      IfFilled(C, P, m, ids, op, defs, vars, st);
    } else if op.ForOp? {
      ForFilled(C, P, m, ids, op, defs, vars, st);
    } else {
      LeafFilled(C, P, m, ids, op, defs, vars, st);
    }
  }

  lemma {:induction false} LeafFilled(C: Context, P: Pass, m: Sub, ids: set<nat>, op: Op, defs: set<nat>,
                                      vars: set<nat>, st: TState)
    requires IsLeaf(op) && Ready(P, m, ids, OpNodes(op), defs) && Verified(op, defs, vars)
    requires ExecOps(C, RenameOps(m, Target(P, op)), st).Some?
    ensures FilledNext(Renamed(m, ids), TraceOps(C, RenameOps(m, Target(P, op)), st))
  {
    hide Verified, Target, RenameOp, Exec, OneToOne, Fills, TraceOps;
    if Results(op) != [] { SingleId(op); }
    if Selected(P, op) {
      assert op.res == Results(op)[0];
      PairIsFilled(P, m, op, defs, vars);
      PairTrace(C, RenameOps(m, Target(P, op)), Renamed(m, ids), st);
    } else {
      LeafIsOne(P, m, op);
      var op' := RenameOp(m, op);
      TraceLeaf(C, op', st);
      if op'.CreateOp? {
        assert OpNode(op) in OpNodes(op) && op.res == Results(op)[0];
        OldIsNotNew(m, ids, op.res);
      }
    }
  }

  lemma {:induction false} PairTrace(C: Context, ops: seq<Op>, ids: set<nat>, st: TState)
    requires |ops| == 2 && IsLeaf(ops[0]) && ops[0].CreateOp? && Fills(ops[1], ops[0].res) && ExecOps(C, ops, st).Some?
    ensures FilledNext(ids, TraceOps(C, ops, st))
  {
    hide Exec, TraceOp;
    var mid := Exec(C, ops[0], st).value;
    assert ops[1..][0] == ops[1] && ops[1..] == [ops[1]];
    TraceLeaf(C, ops[0], st);
    TraceLeaf(C, ops[1], mid);
    assert TraceOps(C, ops, st) == [ops[0], ops[1]];
  }

  lemma HeadFilled(ids: set<nat>, op: Op, rest: seq<Op>)
    requires !op.CreateOp? && FilledNext(ids, rest)
    ensures FilledNext(ids, [op] + rest)
  {
    assert FilledNext(ids, [op]);
    FilledAppend(ids, [op], rest);
  }

  lemma {:induction false} IfNodes(op: Op)
    requires op.IfOp?
    ensures IdsIn(OpsNodes(op.thn.ops)) <= IdsIn(OpNodes(op)) && forall n <- OpsNodes(op.thn.ops) :: n in OpNodes(op)
    ensures op.els.Some? ==>
      IdsIn(OpsNodes(op.els.value.ops)) <= IdsIn(OpNodes(op)) && forall n <- OpsNodes(op.els.value.ops) ::
        n in OpNodes(op)
  {
    IfIds(op);
  }

  lemma {:induction false} IfFilled(C: Context, P: Pass, m: Sub, ids: set<nat>, op: Op, defs: set<nat>, vars: set<nat>,
                                    st: TState)
    requires op.IfOp? && Ready(P, m, ids, OpNodes(op), defs) && Verified(op, defs, vars)
    requires ExecOps(C, RenameOps(m, Target(P, op)), st).Some?
    ensures FilledNext(Renamed(m, ids), TraceOps(C, RenameOps(m, Target(P, op)), st))
    decreases op, 1, 0
  {
    hide Ready, VerifiedOps, RenameOps, TargetOps, FilledNext, ExecOps, OpNodes, OpsNodes, TraceOps;
    var op' := RenameOp(m, Target(P, op)[0]);
    RenameOne(m, Target(P, op)[0]);
    RunOne(C, op', st);
    IfNodes(op);
    RegionsVerified(op, defs, vars);
    NothingFilled(Renamed(m, ids));
    TraceOne(C, op', st);
    var b := EvalV(op'.cond, st.env).value.c.b;
    if b {
      ReadyInside(P, m, ids, OpNodes(op), OpsNodes(op.thn.ops), defs);
      OpsFilled(C, P, m, ids, op.thn.ops, defs, vars, st);
      HeadFilled(Renamed(m, ids), op', TraceOps(C, op'.thn.ops, st));
    } else if op.els.Some? {
      ReadyInside(P, m, ids, OpNodes(op), OpsNodes(op.els.value.ops), defs);
      OpsFilled(C, P, m, ids, op.els.value.ops, defs, vars, st);
      HeadFilled(Renamed(m, ids), op', TraceOps(C, op'.els.value.ops, st));
    } else {
      HeadFilled(Renamed(m, ids), op', []);
    }
  }

  lemma {:induction false} RegionsVerified(op: Op, defs: set<nat>, vars: set<nat>)
    requires Verified(op, defs, vars)
    ensures op.IfOp? ==> VerifiedOps(op.thn.ops, defs, vars) && (op.els.Some? ==>
      VerifiedOps(op.els.value.ops, defs, vars))
    ensures op.ForOp? ==> VerifiedOps(op.body.ops, defs, vars + LoopVars(op))
  {
    hide VerifiedOps, Known, NewResults;
    match op
    case IfOp(_, _, thn, els) =>
      assert VerifiedRegion(thn, defs, vars);
      if els.Some? { assert VerifiedRegion(els.value, defs, vars); }
    case ForOp(_, _, _, _, body) => assert VerifiedRegion(body, defs, vars + LoopVars(op));
    case _ =>
  }

  lemma {:induction false} ForNodes(op: Op)
    requires op.ForOp?
    ensures IdsIn(OpsNodes(op.body.ops)) <= IdsIn(OpNodes(op)) && forall n <- OpsNodes(op.body.ops) :: n in OpNodes(op)
  {
    ForIds(op);
  }

  lemma {:induction false} ForFilled(C: Context, P: Pass, m: Sub, ids: set<nat>, op: Op, defs: set<nat>, vars: set<nat>,
                                     st: TState)
    requires op.ForOp? && Ready(P, m, ids, OpNodes(op), defs) && Verified(op, defs, vars)
    requires ExecOps(C, RenameOps(m, Target(P, op)), st).Some?
    ensures FilledNext(Renamed(m, ids), TraceOps(C, RenameOps(m, Target(P, op)), st))
    decreases op, 1, 0
  {
    hide Ready, VerifiedOps, RenameOps, TargetOps, FilledNext, ExecOps, OpNodes, OpsNodes, TraceOps, LoopRange,
         ExecLoop, TraceLoop;
    var op' := RenameOp(m, Target(P, op)[0]);
    RenameOne(m, Target(P, op)[0]);
    RunOne(C, op', st);
    ForNodes(op);
    RegionsVerified(op, defs, vars);
    ReadyInside(P, m, ids, OpNodes(op), OpsNodes(op.body.ops), defs);
    TraceOne(C, op', st);
    var range, inits := LoopRange(op'.bounds, st.env).value, EvalVs(Inits(op'.iters), st.env).value;
    LoopFilled(C, P, m, ids, op, op', defs, vars + LoopVars(op), range, inits, 0, st);
    HeadFilled(Renamed(m, ids), op', TraceLoop(C, op', range, inits, 0, st));
  }

  lemma {:induction false} LoopFilled(C: Context, P: Pass, m: Sub, ids: set<nat>, op: Op, op': Op, defs: set<nat>,
                                      vars: set<nat>, range: Range, vals: seq<TVal>, k: nat, st: TState)
    requires op.ForOp? && op'.ForOp? && op'.body.ops == Lowered(P, m, op.body.ops)
    requires Ready(P, m, ids, OpsNodes(op.body.ops), defs) && VerifiedOps(op.body.ops, defs, vars)
    requires ExecLoop(C, op', range, vals, k, st).Some?
    ensures FilledNext(Renamed(m, ids), TraceLoop(C, op', range, vals, k, st))
    decreases op, 0, if range.end >= range.start then range.end - range.start else 0
  {
    hide Ready, VerifiedOps, Lowered, FilledNext, ExecOps, OpsNodes, TraceOps, EnterBody;
    if range.start >= range.end {
      NothingFilled(Renamed(m, ids));
    } else {
      var enter := EnterBody(op', range.start, vals, k, st);
      OpsFilled(C, P, m, ids, op.body.ops, defs, vars, enter);
      var inner := ExecOps(C, op'.body.ops, enter).value;
      var next := EvalVs(op'.body.yielded, inner.env).value;
      var range', st' := range.(start := range.start + range.step), inner.(env := st.env, turn := st.turn);
      LoopFilled(C, P, m, ids, op, op', defs, vars, range', next, k + 1, st');
      FilledAppend(Renamed(m, ids), TraceOps(C, op'.body.ops, enter), TraceLoop(C, op', range', next, k + 1, st'));
    }
  }

  // ---------------------------------------------------------------- the pass

  lemma CreationsAreOld(P: Pass, nodes: seq<Node>)
    requires UniqueResults(nodes)
    ensures OldCreations(nodes, Inserted(P, nodes))
  {
    forall n, c | n in nodes && n.OpNode? && n.op.CreateOp? && c in nodes && c.OpNode? && Selected(P, c.op)
      ensures n.op.res != c.op.res {
      var i :| 0 <= i < |nodes| && nodes[i] == n;
      var j :| 0 <= j < |nodes| && nodes[j] == c;
      assert n.op.res in ResultsAt(nodes[i]) && c.op.res in ResultsAt(nodes[j]);
    }
  }

  lemma {:induction false} InsertedAreResults(P: Pass, nodes: seq<Node>)
    ensures Inserted(P, nodes) <= IdsIn(nodes)
  {
    forall id | id in Inserted(P, nodes) ensures id in IdsIn(nodes) {
      var n :| n in nodes && n.OpNode? && Selected(P, n.op) && n.op.res == id;
      var k :| 0 <= k < |nodes| && nodes[k] == n;
      assert id in ResultsAt(nodes[k]);
      InIdsIn(nodes, id);
    }
  }

  /** On every run of the lowered function, whatever branches and iterations it takes, each creation
      of a buffer for a functional call is followed at once by the call that writes the buffer; that
      call does not read it, and nothing comes between. */
  lemma {:induction false} BuffersAreFilledFirst(C: Context, P: Pass, fn: Func, bound: nat, next: nat, st: TState)
    requires Sane(fn, bound) && bound <= next && !P.Placing? && ExecOps(C, RwFunc(P, fn, next).body, st).Some?
    ensures var buffers := Renamed(FinalMap(P, fn, next), Inserted(P, OpsNodes(fn.body)));
      FilledNext(buffers, TraceOps(C, RwFunc(P, fn, next).body, st))
  {
    hide UniqueResults, VerifiedOps, OldOps, AllLoopsApart, RwOps, RenameOps, TargetOps, FilledNext, ExecOps,
         TraceOps, OldCreations, Inserted;
    var m, nodes := FinalMap(P, fn, next), OpsNodes(fn.body);
    FinalMapIs(P, fn, bound, next);
    OutputIs(P, fn, bound, next);
    CreationsAreOld(P, nodes);
    InsertedAreResults(P, nodes);
    FinalMapIsOneToOne(P, fn, bound, next);
    OpsFilled(C, P, m, Inserted(P, nodes), fn.body, {}, Rewriter.Ids(fn.params), st);
  }

  lemma FinalMapIsOneToOne(P: Pass, fn: Func, bound: nat, next: nat)
    requires Sane(fn, bound) && bound <= next
    ensures OneToOne(FinalMap(P, fn, next))
  {
    hide UniqueResults, VerifiedFunc, OldOps, AllLoopsApart, RwOps;
    OpsInjective(P, fn.body, map[], bound, next);
  }
}

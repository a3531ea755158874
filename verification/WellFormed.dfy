/** The programs code generation is meant for, and what it does to its own state on them. */
module WellFormed {
  import opened Bytecode
  import opened Runtime
  import opened Builtins
  import opened IRValues
  import opened MemoryIR
  import opened CodegenSpec
  import opened CodegenState

  // ---------------------------------------------------------------- well-formed programs

  /** Loop values are copied one after another.  A value yielded at position j may be the
      variable carried at an earlier position i only if that variable keeps its value. */
  predicate CopySafe(yielded: seq<Value>, vars: seq<nat>) {
    forall i, j :: 0 <= i < j < |yielded| && i < |vars| && !yielded[j].Imm? && yielded[j].id == vars[i] ==>
      !yielded[i].Imm? && yielded[i].id == vars[i]
  }

  predicate OkValue(v: Value, scope: set<nat>, kinds: Kinds) {
    BoundValue(v, scope) && PlainValue(v, kinds)
  }

  predicate OkValues(vs: seq<Value>, scope: set<nat>, kinds: Kinds) {
    forall k :: 0 <= k < |vs| ==> OkValue(vs[k], scope, kinds)
  }

  lemma OkValuesPlain(vs: seq<Value>, scope: set<nat>, kinds: Kinds)
    requires OkValues(vs, scope, kinds)
    ensures PlainValues(vs, kinds)
  {
  }

  /** The ids an op makes visible to the ops after it. */
  function Defines(op: Op): set<nat> {
    match op
    case AllocStorageOp(res, _, _, _, _) => {res}
    case AllocTensorOp(res, _, _, _, _) => {res}
    case TensorViewOp(res, _, _, _, _, _) => {res}
    case CallDPSOp(_, _, _, _, _) => {}
    case ShapeAssertOp(_, _, _) => {}
    case TupleOp(res, _) => {res}
    case TupleGetItemOp(res, _, _) => {res}
    case IfOp(results, _, _, _) => Ids(results)
    case ForOp(results, _, _, _, _, _, _, _) => Ids(results)
  }

  function DefinesOps(ops: seq<Op>): set<nat> {
    if ops == [] then {} else Defines(ops[0]) + DefinesOps(ops[1..])
  }

  /** Operands come from `scope`; what is defined is new with respect to `taken`. */
  ghost predicate WfOp(op: Op, scope: set<nat>, taken: set<nat>, kinds: Kinds)
    decreases op, 1
  {
    Defines(op) !! taken &&
    match op
    case AllocStorageOp(_, size, _, _, _) => BoundPrim(size, scope)
    case AllocTensorOp(_, storage, _, shape, _) => OkValue(storage, scope, kinds) && BoundPrims(shape, scope)
    case TensorViewOp(_, base, byteOffset, shape, _, _) =>
      OkValue(base, scope, kinds) && OkValue(byteOffset, scope, kinds) && BoundPrims(shape, scope)
    case CallDPSOp(kind, name, inputs, outputs, launch) =>
      kind != VMFunc && kinds.of(name) == kind &&
      OkValues(inputs, scope, kinds) && OkValues(outputs, scope, kinds) && BoundPrims(launch, scope)
    case ShapeAssertOp(tensor, _, _) => OkValue(tensor, scope, kinds)
    case TupleOp(_, elems) => OkValues(elems, scope, kinds)
    case TupleGetItemOp(_, tup, _) => OkValue(tup, scope, kinds)
    case IfOp(results, cond, thn, els) =>
      Distinct(results) && OkValue(cond, scope, kinds) &&
      WfBlock(thn, |results|, scope, taken + Ids(results), kinds) &&
      (els.Some? ==> WfBlock(els.value, |results|, scope, taken + Ids(results), kinds)) &&
      (els.None? ==> results == [])
    case ForOp(results, loopVar, _, start, end, step, iters, body) =>
      OkValue(start, scope, kinds) && OkValue(end, scope, kinds) && OkValue(step, scope, kinds) &&
      IntegralBound(start) && IntegralBound(end) && IntegralBound(step) &&
      OkValues(IterInits(iters), scope, kinds) &&
      Distinct(results) && (results == [] || |results| == |iters|) &&
      Distinct([loopVar] + IterVars(iters)) && Ids([loopVar] + IterVars(iters)) !! taken &&
      WfBlock(body, |iters|, scope + Ids([loopVar] + IterVars(iters)), taken + Ids([loopVar] + IterVars(iters)),
              kinds) &&
      CopySafe(body.yielded, IterVars(iters)) &&
      Ids(results) !! Ids([loopVar] + IterVars(iters))
  }

  ghost predicate WfBlock(b: Block, n: nat, scope: set<nat>, taken: set<nat>, kinds: Kinds)
    decreases b, 0
  {
    WfOps(b.ops, scope, taken, kinds) && |b.yielded| == n && OkValues(b.yielded, scope + DefinesOps(b.ops), kinds)
  }

  ghost predicate WfOps(ops: seq<Op>, scope: set<nat>, taken: set<nat>, kinds: Kinds)
    decreases ops, 0
  {
    ops == [] ||
    (WfOp(ops[0], scope, taken, kinds) &&
     WfOps(ops[1..], scope + Defines(ops[0]), taken + Defines(ops[0]), kinds))
  }

  // ---------------------------------------------------------------- bindings are fresh

  /** A well-formed op rebinds nothing that is already taken, not even inside its regions. */
  lemma {:induction false} BindsFresh(op: Op, scope: set<nat>, taken: set<nat>, kinds: Kinds)
    requires WfOp(op, scope, taken, kinds)
    ensures Binds(op) !! taken && Defines(op) <= Binds(op)
    decreases op, 1
  {
    match op
    case IfOp(results, _, thn, els) =>
      BindsOpsFresh(thn.ops, scope, taken + Ids(results), kinds);
      if els.Some? { BindsOpsFresh(els.value.ops, scope, taken + Ids(results), kinds); }
    case ForOp(results, loopVar, _, _, _, _, iters, body) =>
      assert [loopVar] + IterVars(iters) == [loopVar] + IterVars(iters);
      assert loopVar == ([loopVar] + IterVars(iters))[0];
      assert forall id <- IterVars(iters) :: id in [loopVar] + IterVars(iters);
      BindsOpsFresh(body.ops, scope + Ids([loopVar] + IterVars(iters)), taken + Ids([loopVar] + IterVars(iters)),
                    kinds);
    case _ =>
  }

  lemma {:induction false} BindsOpsFresh(ops: seq<Op>, scope: set<nat>, taken: set<nat>, kinds: Kinds)
    requires WfOps(ops, scope, taken, kinds)
    ensures BindsOps(ops) !! taken && DefinesOps(ops) <= BindsOps(ops)
    decreases ops, 0
  {
    if ops != [] {
      BindsFresh(ops[0], scope, taken, kinds);
      BindsOpsFresh(ops[1..], scope + Defines(ops[0]), taken + Defines(ops[0]), kinds);
    }
  }

  // ---------------------------------------------------------------- straight-line ops

  predicate OkArg(a: Arg, scope: set<nat>, kinds: Kinds) {
    match a
    case AVal(v) => OkValue(v, scope, kinds)
    case AConst(c) => Plain(c, kinds)
    case AShape(shape) => BoundPrims(shape, scope)
    case AExpr(e) => BoundPrim(e, scope)
    case AOffset(v, _, _) => OkValue(v, scope, kinds)
  }

  lemma {:induction false} CallOfOk(op: Op, scope: set<nat>, taken: set<nat>, kinds: Kinds)
    requires WfOp(op, scope, taken, kinds) && !op.IfOp? && !op.ForOp? && BuiltinKinds(kinds)
    ensures var c := CallOf(op);
      kinds.of(c.name) == c.kind && c.kind != VMFunc && Ids1(c.res) == Binds(op) == Defines(op) &&
      (forall a <- c.args :: OkArg(a, scope, kinds) && PlainArg(a, kinds)) &&
        (forall a <- c.launch :: OkArg(a, scope, kinds) && PlainArg(a, kinds))
  {
  }

  lemma {:induction false} GenSimpleOk(op: Op, s: State, scope: set<nat>, taken: set<nat>, kinds: Kinds)
    requires Good(s, kinds) && BuiltinKinds(kinds) && WfOp(op, scope, taken, kinds) && !op.IfOp? && !op.ForOp?
    ensures Advances(s, GenSimple(op, s).s, Binds(op), kinds)
  {
    CallOfOk(op, scope, taken, kinds);
    GenCallOk(CallOf(op), s, kinds);
  }

  // ---------------------------------------------------------------- control flow

  lemma IdsCons(id: nat, ids: seq<nat>)
    ensures Ids([id] + ids) == {id} + Ids(ids)
  {
  }

  lemma {:induction false} AllocBindAllOk(ids: seq<nat>, s: State, kinds: Kinds)
    requires Good(s, kinds)
    ensures var s' := AllocBindAll(ids, s);
      Advances(s, s', Ids(ids), kinds) && s'.next == s.next + |ids| && s'.inits == s.inits
    decreases |ids|
  {
    if ids != [] {
      var s1 := AllocBind(s, ids[0]);
      AllocBindOk(s, ids[0], kinds);
      AllocBindAllOk(ids[1..], s1, kinds);
      AdvancesTrans(s, s1, AllocBindAll(ids, s), {ids[0]}, Ids(ids[1..]), kinds);
      IdsCons(ids[0], ids[1..]);
      assert ids == [ids[0]] + ids[1..];
    }
  }

  lemma {:induction false} AllocBindAllRegs(ids: seq<nat>, s: State, k: nat)
    requires Distinct(ids) && k < |ids|
    ensures ids[k] in AllocBindAll(ids, s).env && AllocBindAll(ids, s).env[ids[k]] == s.next + k
    decreases |ids|
  {
    var s1 := AllocBind(s, ids[0]);
    if k > 0 {
      AllocBindAllRegs(ids[1..], s1, k - 1);
    } else {
      AllocBindAllKeeps(ids[1..], s1, ids[0]);
    }
  }

  lemma {:induction false} AllocBindAllKeeps(ids: seq<nat>, s: State, id: nat)
    requires id !in ids && id in s.env
    ensures id in AllocBindAll(ids, s).env && AllocBindAll(ids, s).env[id] == s.env[id]
    decreases |ids|
  {
    if ids != [] { AllocBindAllKeeps(ids[1..], AllocBind(s, ids[0]), id); }
  }

  lemma {:induction false} GenCopiesOk(dsts: seq<nat>, vals: seq<Value>, s: State, kinds: Kinds)
    requires Good(s, kinds) && BuiltinKinds(kinds) && PlainValues(vals, kinds)
    ensures Advances(s, GenCopies(dsts, vals, s).s, {}, kinds) && GenCopies(dsts, vals, s).s.env == s.env
    decreases |vals|
  {
    if dsts != [] && vals != [] {
      var (r, s1) := RegOf(vals[0], s);
      var c := EmitBuiltin(dsts[0], Identity, [r], s1);
      RegOfOk(vals[0], s, kinds);
      EmitCallOk(dsts[0], Builtin, Core(Identity), [r], [], s1, kinds);
      GenCopiesOk(dsts[1..], vals[1..], c.s, kinds);
      AdvancesTrans(s, s1, c.s, {}, {}, kinds);
      AdvancesTrans(s, c.s, GenCopies(dsts, vals, s).s, {}, {}, kinds);
    }
  }

  lemma ItersCons(iters: seq<IterArg>)
    requires iters != []
    ensures IterVars(iters) == [iters[0].v] + IterVars(iters[1..])
    ensures IterInits(iters) == [iters[0].init] + IterInits(iters[1..])
    ensures Ids(IterVars(iters)) == {iters[0].v} + Ids(IterVars(iters[1..]))
  {
    hide Ids;
    assert IterVars(iters) == [iters[0].v] + IterVars(iters[1..]);
    assert IterInits(iters) == [iters[0].init] + IterInits(iters[1..]);
    IdsCons(iters[0].v, IterVars(iters[1..]));
  }

  /** The first carried variable: its register, its initial value, its copy. */
  lemma GenIterOk(it: IterArg, s: State, kinds: Kinds)
    requires Good(s, kinds) && BuiltinKinds(kinds) && PlainValue(it.init, kinds)
    ensures var (r, s1) := RegOf(it.init, AllocBind(s, it.v));
      Advances(s, EmitBuiltin(s.next, Identity, [r], s1).s, {it.v}, kinds)
  {
    var s0 := AllocBind(s, it.v);
    var (r, s1) := RegOf(it.init, s0);
    var c := EmitBuiltin(s.next, Identity, [r], s1);
    AllocBindOk(s, it.v, kinds);
    RegOfOk(it.init, s0, kinds);
    EmitCallOk(s.next, Builtin, Core(Identity), [r], [], s1, kinds);
    AdvancesTrans(s, s0, s1, {it.v}, {}, kinds);
    AdvancesTrans(s, s1, c.s, {it.v}, {}, kinds);
  }

  lemma {:induction false} GenItersOk(iters: seq<IterArg>, s: State, kinds: Kinds)
    requires Good(s, kinds) && BuiltinKinds(kinds) && PlainValues(IterInits(iters), kinds)
    ensures var g := GenIters(iters, s);
      |g.regs| == |iters| && Advances(s, g.s, Ids(IterVars(iters)), kinds)
    decreases |iters|
  {
    if iters != [] {
      var (r, s1) := RegOf(iters[0].init, AllocBind(s, iters[0].v));
      var c := EmitBuiltin(s.next, Identity, [r], s1);
      ItersCons(iters);
      assert PlainValue(IterInits(iters)[0], kinds);
      GenIterOk(iters[0], s, kinds);
      assert PlainValues(IterInits(iters[1..]), kinds) by {
        forall k | 0 <= k < |iters| - 1 ensures PlainValue(IterInits(iters[1..])[k], kinds) {
          assert PlainValue(IterInits(iters)[k + 1], kinds);
        }
      }
      GenItersOk(iters[1..], c.s, kinds);
      AdvancesTrans(s, c.s, GenIters(iters, s).s, {iters[0].v}, Ids(IterVars(iters[1..])), kinds);
    }
  }

  lemma DefineIs(id: nat, b: CoreBuiltin, args: seq<nat>, s: State)
    ensures EmitDefine(id, b, args, s) == EmitResult(Some(id), Builtin, Core(b), args, [], s)
  {
  }

  lemma {:induction false} GenLoopResultsOk(results: seq<nat>, regs: seq<nat>, s: State, kinds: Kinds)
    requires Good(s, kinds) && BuiltinKinds(kinds) && |results| <= |regs|
    ensures Advances(s, GenLoopResults(results, regs, s).s, Ids(results), kinds)
    decreases |results|
  {
    hide Good, Extends, EmitDefine, Advances;
    AdvancesNone(s, kinds);
    assert Ids([]) == {};
    if results != [] {
      DefineIs(results[0], Identity, [regs[0]], s);
      var c := EmitDefine(results[0], Identity, [regs[0]], s);
      EmitResultOk(Some(results[0]), Builtin, Core(Identity), [regs[0]], [], s, kinds);
      AdvancesGood(s, c.s, {results[0]}, kinds);
      GenLoopResultsOk(results[1..], regs[1..], c.s, kinds);
      AdvancesTrans(s, c.s, GenLoopResults(results, regs, s).s, {results[0]}, Ids(results[1..]), kinds);
      assert results == [results[0]] + results[1..];
      IdsCons(results[0], results[1..]);
    }
  }

  lemma GenLoopEntryOk(op: Op, s: State, kinds: Kinds)
    requires op.ForOp? && Good(s, kinds) && BuiltinKinds(kinds)
    requires PlainValue(op.start, kinds) && PlainValue(op.end, kinds) && PlainValue(op.step, kinds)
    requires PlainValues(IterInits(op.iters), kinds)
    ensures var h := GenLoopEntry(op, s);
      |h.iters| == |op.iters| && Advances(s, h.s, Ids([op.loopVar] + IterVars(op.iters)), kinds)
  {
    hide Good, Extends, PlainValue, PlainValues, BoundReg, GenIters;
    var (first, s1) := BoundReg(op.start, s);
    var (last, s2) := BoundReg(op.end, s1);
    var (inc, s3) := BoundReg(op.step, s2);
    var s4 := AllocBind(s3, op.loopVar);
    var c := EmitBuiltin(s3.next, Identity, [first], s4);
    BoundRegOk(op.start, s, kinds);
    BoundRegOk(op.end, s1, kinds);
    BoundRegOk(op.step, s2, kinds);
    AllocBindOk(s3, op.loopVar, kinds);
    EmitCallOk(s3.next, Builtin, Core(Identity), [first], [], s4, kinds);
    GenItersOk(op.iters, c.s, kinds);
    AdvancesTrans(s, s1, s2, {}, {}, kinds);
    AdvancesTrans(s, s2, s3, {}, {}, kinds);
    AdvancesTrans(s, s3, s4, {}, {op.loopVar}, kinds);
    AdvancesTrans(s, s4, c.s, {op.loopVar}, {}, kinds);
    AdvancesTrans(s, c.s, GenLoopEntry(op, s).s, {op.loopVar}, Ids(IterVars(op.iters)), kinds);
    assert Ids([op.loopVar] + IterVars(op.iters)) == {op.loopVar} + Ids(IterVars(op.iters));
  }

  lemma {:induction false} GenBranchOk(b: Block, n: nat, dsts: seq<nat>, s: State, scope: set<nat>, taken: set<nat>,
                                       kinds: Kinds)
    requires Good(s, kinds) && BuiltinKinds(kinds) && WfBlock(b, n, scope, taken, kinds)
    ensures Advances(s, GenBranch(b, dsts, s).s, BindsOps(b.ops), kinds)
    decreases b, 0
  {
    var body := GenOps(b.ops, s);
    GenOpsOk(b.ops, s, scope, taken, kinds);
    WithIdentityOk(body.s, kinds);
    GenCopiesOk(dsts, b.yielded, WithIdentity(body.s), kinds);
    AdvancesTrans(s, body.s, WithIdentity(body.s), BindsOps(b.ops), {}, kinds);
    AdvancesTrans(s, WithIdentity(body.s), GenBranch(b, dsts, s).s, BindsOps(b.ops), {}, kinds);
  }

  lemma {:induction false} GenIfOk(op: Op, s: State, scope: set<nat>, taken: set<nat>, kinds: Kinds)
    requires op.IfOp? && Good(s, kinds) && BuiltinKinds(kinds) && WfOp(op, scope, taken, kinds)
    ensures Advances(s, GenIf(op, s).s, Binds(op), kinds)
    decreases op, 0
  {
    hide Good, Extends, Advances, GenBranch, AllocBindAll, RegOf, WfBlock, BindsOps;
    var (c, s1) := RegOf(op.cond, s);
    var dsts := RegRange(s1.next, |op.results|);
    var s2 := AllocBindAll(op.results, s1);
    var thn := GenBranch(op.thn, dsts, s2);
    RegOfOk(op.cond, s, kinds);
    AdvancesGood(s, s1, {}, kinds);
    AllocBindAllOk(op.results, s1, kinds);
    AdvancesGood(s1, s2, Ids(op.results), kinds);
    GenBranchOk(op.thn, |op.results|, dsts, s2, scope, taken + Ids(op.results), kinds);
    AdvancesGood(s2, thn.s, BindsOps(op.thn.ops), kinds);
    AdvancesTrans(s, s1, s2, {}, Ids(op.results), kinds);
    AdvancesTrans(s, s2, thn.s, Ids(op.results), BindsOps(op.thn.ops), kinds);
    if op.els.Some? {
      GenBranchOk(op.els.value, |op.results|, dsts, thn.s, scope, taken + Ids(op.results), kinds);
      AdvancesTrans(s, thn.s, GenIf(op, s).s, Ids(op.results) + BindsOps(op.thn.ops), BindsOps(op.els.value.ops),
                    kinds);
      assert Ids(op.results) + BindsOps(op.thn.ops) + BindsOps(op.els.value.ops) == Binds(op);
    } else {
      assert Ids(op.results) + BindsOps(op.thn.ops) == Binds(op);
    }
  }

  lemma {:induction false} GenLoopCycleOk(op: Op, h: LoopHead, scope: set<nat>, taken: set<nat>, kinds: Kinds)
    requires op.ForOp? && Good(h.s, kinds) && BuiltinKinds(kinds) && WfOp(op, scope, taken, kinds)
    ensures Advances(h.s, GenLoopCycle(op, h).s, BindsOps(op.body.ops), kinds)
    decreases op, 0
  {
    var inner := Ids([op.loopVar] + IterVars(op.iters));
    var test := EmitFresh(LtI64, [h.index, h.last], h.s);
    var body := GenBranch(op.body, h.iters, test.s);
    EmitFreshOk(LtI64, [h.index, h.last], h.s, kinds);
    GenBranchOk(op.body, |op.iters|, h.iters, test.s, scope + inner, taken + inner, kinds);
    EmitCallOk(h.index, Builtin, Core(AddI64), [h.index, h.inc], [], body.s, kinds);
    AdvancesTrans(h.s, test.s, body.s, {}, BindsOps(op.body.ops), kinds);
    AdvancesTrans(h.s, body.s, GenLoopCycle(op, h).s, BindsOps(op.body.ops), {}, kinds);
  }

  lemma {:induction false} GenForOk(op: Op, s: State, scope: set<nat>, taken: set<nat>, kinds: Kinds)
    requires op.ForOp? && Good(s, kinds) && BuiltinKinds(kinds) && WfOp(op, scope, taken, kinds)
    ensures Advances(s, GenFor(op, s).s, Binds(op), kinds)
    decreases op, 1
  {
    hide Good, Extends, Advances, GenLoopEntry, GenLoopCycle, GenLoopResults, WfBlock, BindsOps;
    var inner := Ids([op.loopVar] + IterVars(op.iters));
    var head := GenLoopEntry(op, s);
    var cycle := GenLoopCycle(op, head);
    GenLoopEntryOk(op, s, kinds);
    AdvancesGood(s, head.s, inner, kinds);
    GenLoopCycleOk(op, head, scope, taken, kinds);
    AdvancesGood(head.s, cycle.s, BindsOps(op.body.ops), kinds);
    GenLoopResultsOk(op.results, head.iters, cycle.s, kinds);
    AdvancesTrans(s, head.s, cycle.s, inner, BindsOps(op.body.ops), kinds);
    AdvancesTrans(s, cycle.s, GenFor(op, s).s, inner + BindsOps(op.body.ops), Ids(op.results), kinds);
    IdsCons(op.loopVar, IterVars(op.iters));
    assert inner + BindsOps(op.body.ops) + Ids(op.results) == Binds(op);
  }

  lemma {:induction false} GenOpOk(op: Op, s: State, scope: set<nat>, taken: set<nat>, kinds: Kinds)
    requires Good(s, kinds) && BuiltinKinds(kinds) && WfOp(op, scope, taken, kinds)
    ensures Advances(s, GenOp(op, s).s, Binds(op), kinds)
    decreases op, 2
  {
    match op
    case IfOp(_, _, _, _) => GenIfOk(op, s, scope, taken, kinds);
    case ForOp(_, _, _, _, _, _, _, _) => GenForOk(op, s, scope, taken, kinds);
    case _ => GenSimpleOk(op, s, scope, taken, kinds);
  }

  lemma {:induction false} GenOpsOk(ops: seq<Op>, s: State, scope: set<nat>, taken: set<nat>, kinds: Kinds)
    requires Good(s, kinds) && BuiltinKinds(kinds) && WfOps(ops, scope, taken, kinds)
    ensures Advances(s, GenOps(ops, s).s, BindsOps(ops), kinds)
    decreases ops, 0
  {
    if ops != [] {
      var g := GenOp(ops[0], s);
      GenOpOk(ops[0], s, scope, taken, kinds);
      GenOpsOk(ops[1..], g.s, scope + Defines(ops[0]), taken + Defines(ops[0]), kinds);
      AdvancesTrans(s, g.s, GenOps(ops, s).s, Binds(ops[0]), BindsOps(ops[1..]), kinds);
    }
  }
}

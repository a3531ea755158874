/** What being verified says about variables, which the verifier knows by name only
    (python/devproc2/ir/verifier.py). */
module VerifierNames {
  import opened Bytecode
  import opened PrimExprs
  import opened IRValues
  import opened MemoryIR
  import opened CodegenSpec
  import opened CodegenState
  import opened WellFormed
  import opened ModuleForm
  import opened Codegen
  import opened Verifier

  // ---------------------------------------------------------------- scopes of names

  /** Every variable among the operands has the name of a parameter or of an enclosing loop, and what a loop carries
      has names of its own. */
  predicate InScope(op: Op, names: set<string>)
    decreases op, 1
  {
    (forall v <- Verifier.Operands(op) :: v.Var? ==> v.name in names) &&
    match op
    case IfOp(_, _, thn, els) => BlockInScope(thn, names) && (els.Some? ==> BlockInScope(els.value, names))
    case ForOp(_, _, loopName, _, _, _, iters, body) =>
      (forall i :: 0 <= i < |iters| ==> iters[i].name !in names && iters[i].name != loopName) &&
      (forall i, j :: 0 <= i < j < |iters| ==> iters[i].name != iters[j].name) &&
      BlockInScope(body, names + {loopName} + set it <- iters :: it.name)
    case _ => true
  }

  predicate BlockInScope(b: Block, names: set<string>)
    decreases b, 0
  {
    (forall op <- b.ops :: InScope(op, names)) && (forall v <- b.yielded :: v.Var? ==> v.name in names) &&
    DefinedOnce(b.ops)
  }

  /** No result belongs to two ops of a block. */
  predicate DefinedOnce(ops: seq<Op>) {
    (forall i :: 0 <= i < |ops| ==> Distinct(ResultsOf(ops[i]))) &&
    forall i, j :: 0 <= i < j < |ops| ==> Ids(ResultsOf(ops[i])) !! Ids(ResultsOf(ops[j]))
  }

  lemma {:induction false} NewNamesAre(iters: seq<IterArg>, names: set<string>)
    requires NewNames(iters, names)
    ensures forall i :: 0 <= i < |iters| ==> iters[i].name !in names
    ensures forall i, j :: 0 <= i < j < |iters| ==> iters[i].name != iters[j].name
    decreases |iters|
  {
    if iters != [] {
      NewNamesAre(iters[1..], names + {iters[0].name});
      assert forall i :: 1 <= i < |iters| ==> iters[i] == iters[1..][i - 1];
    }
  }

  lemma {:induction false} VerifiedScopes(op: Op, names: set<string>, results: set<nat>)
    requires Verified(op, names, results)
    ensures InScope(op, names)
    decreases op, 1
  {
    forall v | v in Verifier.Operands(op) && v.Var? ensures v.name in names {
      var k :| 0 <= k < |Verifier.Operands(op)| && Verifier.Operands(op)[k] == v;
      assert Known(Verifier.Operands(op)[k], names, results);
    }
    match op
    case IfOp(_, _, thn, els) =>
      VerifiedBlockScopes(thn, names, results);
      if els.Some? { VerifiedBlockScopes(els.value, names, results); }
    case ForOp(_, _, loopName, _, _, _, iters, body) =>
      NewNamesAre(iters, names + {loopName});
      VerifiedBlockScopes(body, names + {loopName} + IterNames(iters), results);
    case _ =>
  }

  lemma {:induction false} VerifiedBlockScopes(b: Block, names: set<string>, results: set<nat>)
    requires VerifiedBlock(b, names, results)
    ensures BlockInScope(b, names)
    decreases b, 0
  {
    VerifiedOpsScopes(b.ops, names, results);
    VerifiedDefinesOnce(b.ops, names, results);
    forall v | v in b.yielded && v.Var? ensures v.name in names {
      var k :| 0 <= k < |b.yielded| && b.yielded[k] == v;
      assert Known(b.yielded[k], names, results + DefinesOps(b.ops));
    }
  }

  lemma {:induction false} VerifiedOpsScopes(ops: seq<Op>, names: set<string>, results: set<nat>)
    requires VerifiedOps(ops, names, results)
    ensures forall op <- ops :: InScope(op, names)
    decreases ops, 0
  {
    if ops != [] {
      VerifiedScopes(ops[0], names, results);
      VerifiedOpsScopes(ops[1..], names, results + Defines(ops[0]));
    }
  }

  lemma {:induction false} VerifiedDefinesOnce(ops: seq<Op>, names: set<string>, results: set<nat>)
    requires VerifiedOps(ops, names, results)
    ensures DefinedOnce(ops) && forall i :: 0 <= i < |ops| ==> Ids(ResultsOf(ops[i])) !! results
    decreases |ops|
  {
    hide Verified;
    if ops != [] {
      DefinesAre(ops[0]);
      VerifiedDefinesOnce(ops[1..], names, results + Defines(ops[0]));
      assert forall i :: 1 <= i < |ops| ==> ops[i] == ops[1..][i - 1];
    }
  }

  /** A verified function mentions only parameters and variables of enclosing loops, by name, and every block defines
      each of its results once. */
  lemma VerifiedNames(fn: Function)
    requires VerifiedFunction(fn)
    ensures BlockInScope(Block(fn.body, fn.ret), set p <- fn.params :: p.name)
    ensures forall i, j :: 0 <= i < j < |fn.params| ==> fn.params[i].name != fn.params[j].name
  {
    hide InScope;
    VerifiedOpsScopes(fn.body, NamesOf(fn.params), {});
    VerifiedDefinesOnce(fn.body, NamesOf(fn.params), {});
    forall v | v in fn.ret && v.Var? ensures v.name in NamesOf(fn.params) {
      var k :| 0 <= k < |fn.ret| && fn.ret[k] == v;
      assert Known(fn.ret[k], NamesOf(fn.params), DefinesOps(fn.body));
    }
  }

  // ---------------------------------------------------------------- names and objects

  datatype Sort = Variable | Result | Dimension

  /** What every id stands for. */
  datatype Objects = Objects(sort: nat -> Sort, name: nat -> string)

  predicate ValueIs(O: Objects, v: Value) {
    match v
    case Var(id, name) => O.sort(id) == Variable && O.name(id) == name
    case Res(id) => O.sort(id) == Result
    case Imm(_) => true
  }

  predicate ValuesAre(O: Objects, vs: seq<Value>) {
    forall k :: 0 <= k < |vs| ==> ValueIs(O, vs[k])
  }

  predicate VariableIs(O: Objects, id: nat, name: string) {
    O.sort(id) == Variable && O.name(id) == name
  }

  /** The op mentions objects for what they are. */
  predicate OpIs(O: Objects, op: Op)
    decreases op, 1
  {
    ValuesAre(O, Verifier.Operands(op)) && (forall id <- ResultsOf(op) :: O.sort(id) == Result) &&
    match op
    case IfOp(_, _, thn, els) => BlockIs(O, thn) && (els.Some? ==> BlockIs(O, els.value))
    case ForOp(_, loopVar, loopName, _, _, _, iters, body) =>
      VariableIs(O, loopVar, loopName) && (forall k :: 0 <= k < |iters| ==> VariableIs(O, iters[k].v, iters[k].name)) &&
      BlockIs(O, body)
    case _ => true
  }

  predicate BlockIs(O: Objects, b: Block)
    decreases b, 0
  {
    OpsAre(O, b.ops) && ValuesAre(O, b.yielded)
  }

  predicate OpsAre(O: Objects, ops: seq<Op>)
    decreases ops, 0
  {
    ops == [] || (OpIs(O, ops[0]) && OpsAre(O, ops[1..]))
  }

  /** One name stands for one variable. */
  ghost predicate OneName(O: Objects) {
    forall a: nat, b: nat :: O.sort(a) == Variable && O.sort(b) == Variable && O.name(a) == O.name(b) ==> a == b
  }

  ghost predicate FunctionIs(O: Objects, fn: Function) {
    OneName(O) && OpsAre(O, fn.body) && ValuesAre(O, fn.ret) &&
    (forall p <- fn.params :: VariableIs(O, p.id, p.name)) &&
    forall id <- ShapeIds(fn.params) :: O.sort(id) == Dimension
  }

  // ---------------------------------------------------------------- verified variables are bound

  /** Whatever has a known name is bound. */
  ghost predicate NamesBound(O: Objects, names: set<string>, bound: set<nat>) {
    forall id: nat :: O.sort(id) == Variable && O.name(id) in names ==> id in bound
  }

  lemma VarsPass(O: Objects, vs: seq<Value>, names: set<string>, results: set<nat>, bound: set<nat>)
    requires AllKnown(vs, names, results) && ValuesAre(O, vs) && NamesBound(O, names, bound)
    ensures ValuesPass(Vars, vs, bound)
  {
    forall k | 0 <= k < |vs| ensures ValuePasses(Vars, vs[k], bound) {
      assert Known(vs[k], names, results) && ValueIs(O, vs[k]);
    }
  }

  lemma {:induction false} InitVarsPass(O: Objects, iters: seq<IterArg>, names: set<string>, results: set<nat>,
                                        bound: set<nat>)
    requires AllKnown(IterInits(iters), names, results) && ValuesAre(O, IterInits(iters)) && NamesBound(O, names, bound)
    ensures InitsPass(Vars, iters, bound)
    decreases |iters|
  {
    if iters != [] {
      VarsPass(O, IterInits(iters), names, results, bound + {iters[0].v});
      assert ValuePasses(Vars, IterInits(iters)[0], bound + {iters[0].v});
      forall k | 0 <= k < |iters| - 1
        ensures Known(IterInits(iters[1..])[k], names, results) && ValueIs(O, IterInits(iters[1..])[k])
      {
        assert Known(IterInits(iters)[k + 1], names, results) && ValueIs(O, IterInits(iters)[k + 1]);
      }
      InitVarsPass(O, iters[1..], names, results, bound + {iters[0].v});
    }
  }

  /** The variables of a loop are bound in its body. */
  lemma LoopNamesBound(O: Objects, op: Op, names: set<string>, bound: set<nat>)
    requires op.ForOp? && OpIs(O, op) && OneName(O) && NamesBound(O, names, bound)
    ensures NamesBound(O, names + {op.loopName} + IterNames(op.iters), bound + {op.loopVar} + Ids(IterVars(op.iters)))
  {
    forall id: nat
      | O.sort(id) == Variable && O.name(id) in names + {op.loopName} + IterNames(op.iters) && id !in bound
      ensures id == op.loopVar || id in Ids(IterVars(op.iters))
    {
      if O.name(id) != op.loopName {
        var it :| it in op.iters && it.name == O.name(id);
        var k :| 0 <= k < |op.iters| && op.iters[k] == it;
        assert VariableIs(O, op.iters[k].v, op.iters[k].name) && IterVars(op.iters)[k] == id;
      }
    }
  }

  lemma NamesBoundMore(O: Objects, names: set<string>, bound: set<nat>, more: set<nat>)
    requires NamesBound(O, names, bound) && bound <= more
    ensures NamesBound(O, names, more)
  {
  }

  lemma {:induction false} VerifiedVars(O: Objects, op: Op, names: set<string>, results: set<nat>, bound: set<nat>)
    requires Verified(op, names, results) && OpIs(O, op) && OneName(O) && NamesBound(O, names, bound)
    ensures Passes(Vars, op, bound)
    decreases op, 1
  {
    hide OneName, NamesBound, BlockPasses, VerifiedBlock, BlockIs;
    var vs := Verifier.Operands(op);
    VarsPass(O, vs, names, results, bound);
    match op
    case AllocTensorOp(_, storage, _, _, _) => assert ValuePasses(Vars, vs[0], bound);
    case TensorViewOp(_, base, byteOffset, _, _, _) =>
      assert ValuePasses(Vars, vs[0], bound) && ValuePasses(Vars, vs[1], bound);
    case CallDPSOp(_, _, inputs, outputs, _) =>
      forall k | 0 <= k < |inputs| ensures ValuePasses(Vars, inputs[k], bound) { assert vs[k] == inputs[k]; }
      forall k | 0 <= k < |outputs|
        ensures ValuePasses(Vars, outputs[k], bound) { assert vs[|inputs| + k] == outputs[k]; }
    case ShapeAssertOp(tensor, _, _) => assert ValuePasses(Vars, vs[0], bound);
    case TupleGetItemOp(_, tup, _) => assert ValuePasses(Vars, vs[0], bound);
    case IfOp(res, cond, thn, els) =>
      assert ValuePasses(Vars, vs[0], bound);
      NamesBoundMore(O, names, bound, bound + Ids(res));
      VerifiedBlockVars(O, thn, |res|, names, results, bound + Ids(res));
      if els.Some? {
        NamesBoundMore(O, names, bound, bound + Ids(res) + BindsOps(thn.ops));
        VerifiedBlockVars(O, els.value, |res|, names, results, bound + Ids(res) + BindsOps(thn.ops));
      }
    case ForOp(res, loopVar, loopName, start, end, step, iters, body) =>
      assert ValuePasses(Vars, vs[0], bound) && ValuePasses(Vars, vs[1], bound) && ValuePasses(Vars, vs[2], bound);
      forall k | 0 <= k < |iters|
        ensures Known(IterInits(iters)[k], names, results) && ValueIs(O, IterInits(iters)[k])
      {
        assert vs[3 + k] == IterInits(iters)[k];
      }
      NamesBoundMore(O, names, bound, bound + {loopVar});
      InitVarsPass(O, iters, names, results, bound + {loopVar});
      LoopNamesBound(O, op, names, bound);
      VerifiedBlockVars(O, body, |iters|, names + {loopName} + IterNames(iters), results,
                        bound + {loopVar} + Ids(IterVars(iters)));
    case _ =>
  }

  lemma {:induction false} VerifiedBlockVars(O: Objects, b: Block, n: nat, names: set<string>, results: set<nat>,
                                             bound: set<nat>)
    requires VerifiedBlock(b, names, results) && BlockIs(O, b) && OneName(O) && NamesBound(O, names, bound)
    requires |b.yielded| == n
    ensures BlockPasses(Vars, b, n, bound)
    decreases b, 0
  {
    hide OneName, NamesBound, OpsPass, VerifiedOps, OpsAre;
    VerifiedOpsVars(O, b.ops, names, results, bound);
    NamesBoundMore(O, names, bound, bound + BindsOps(b.ops));
    VarsPass(O, b.yielded, names, results + DefinesOps(b.ops), bound + BindsOps(b.ops));
  }

  lemma {:induction false} VerifiedOpsVars(O: Objects, ops: seq<Op>, names: set<string>, results: set<nat>,
                                           bound: set<nat>)
    requires VerifiedOps(ops, names, results) && OpsAre(O, ops) && OneName(O) && NamesBound(O, names, bound)
    ensures OpsPass(Vars, ops, bound)
    decreases ops, 0
  {
    hide OneName, NamesBound, Passes, Verified, OpIs;
    if ops != [] {
      VerifiedVars(O, ops[0], names, results, bound);
      NamesBoundMore(O, names, bound, bound + Binds(ops[0]));
      VerifiedOpsVars(O, ops[1..], names, results + Defines(ops[0]), bound + Binds(ops[0]));
    }
  }

  /** Where one name stands for one variable, a verified function uses no variable that is not bound; it then compiles
      exactly when its dimensions and loop bounds are right and it returns at most one value. */
  lemma VerifiedVariablesAreBound(O: Objects, fn: Function)
    requires VerifiedFunction(fn) && FunctionIs(O, fn)
    ensures OpsPass(Vars, fn.body, EntryScope(fn)) && ValuesPass(Vars, fn.ret, EntryScope(fn) + BindsOps(fn.body))
    ensures CompilesFunction(fn) <==>
      OpsPass(Dims, fn.body, EntryScope(fn)) && OpsPass(Bounds, fn.body, EntryScope(fn)) && |fn.ret| <= 1
  {
    hide OpsPass, ValuesPass, VerifiedOps, OpsAre, CompilesFunction;
    var bound := EntryScope(fn);
    forall id: nat | O.sort(id) == Variable && O.name(id) in NamesOf(fn.params) ensures id in bound {
      var p :| p in fn.params && p.name == O.name(id);
      var k :| 0 <= k < |fn.params| && fn.params[k] == p;
      assert ParamIds(fn.params)[k] == id;
    }
    VerifiedOpsVars(O, fn.body, NamesOf(fn.params), {}, bound);
    NamesBoundMore(O, NamesOf(fn.params), bound, bound + BindsOps(fn.body));
    VarsPass(O, fn.ret, NamesOf(fn.params), DefinesOps(fn.body), bound + BindsOps(fn.body));
    VerifiedCompiles(fn);
  }

  // ---------------------------------------------------------------- well-formed functions are verified

  /** The visible objects are known: variables by their names, which no other name stands for, and results. */
  ghost predicate Agrees(O: Objects, scope: set<nat>, taken: set<nat>, names: set<string>, results: set<nat>) {
    (forall id <- scope :: O.sort(id) == Variable ==> O.name(id) in names) &&
    (forall id <- scope :: O.sort(id) == Result ==> id in results) &&
    results <= taken && forall n <- names :: exists id :: id in taken && VariableIs(O, id, n)
  }

  lemma OkIsKnown(O: Objects, vs: seq<Value>, scope: set<nat>, taken: set<nat>, names: set<string>, results: set<nat>,
                  kinds: Kinds)
    requires Agrees(O, scope, taken, names, results) && OkValues(vs, scope, kinds) && ValuesAre(O, vs)
    ensures AllKnown(vs, names, results)
  {
    forall k | 0 <= k < |vs| ensures Known(vs[k], names, results) {
      assert OkValue(vs[k], scope, kinds) && ValueIs(O, vs[k]);
    }
  }

  /** Results of an op come into sight. */
  lemma AgreesMore(O: Objects, scope: set<nat>, taken: set<nat>, names: set<string>, results: set<nat>, more: set<nat>)
    requires Agrees(O, scope, taken, names, results) && forall id <- more :: O.sort(id) == Result
    ensures Agrees(O, scope + more, taken + more, names, results + more)
    ensures Agrees(O, scope, taken + more, names, results)
  {
    forall n | n in names ensures exists id :: id in taken + more && VariableIs(O, id, n) {
      var id :| id in taken && VariableIs(O, id, n);
      assert id in taken + more;
    }
  }

  lemma FreshTail(id: nat, ids: seq<nat>, taken: set<nat>)
    requires Distinct([id] + ids) && Ids([id] + ids) !! taken
    ensures id !in taken && Distinct(ids) && Ids(ids) !! taken + {id}
    ensures forall s: set<nat> :: s + Ids([id] + ids) == s + {id} + Ids(ids)
  {
    IdsCons(id, ids);
    assert ([id] + ids)[0] == id && forall k :: 0 <= k < |ids| ==> ([id] + ids)[k + 1] == ids[k];
    assert id in Ids([id] + ids);
    forall s: set<nat> ensures s + Ids([id] + ids) == s + {id} + Ids(ids) {
      assert s + ({id} + Ids(ids)) == s + {id} + Ids(ids);
    }
  }

  /** Names of variables not taken are new. */
  lemma {:induction false} CarriedNamesAreNew(O: Objects, iters: seq<IterArg>, scope: set<nat>, taken: set<nat>,
                                              names: set<string>, results: set<nat>)
    requires Agrees(O, scope, taken, names, results) && OneName(O)
    requires forall k :: 0 <= k < |iters| ==> VariableIs(O, iters[k].v, iters[k].name)
    requires Distinct(IterVars(iters)) && Ids(IterVars(iters)) !! taken
    ensures NewNames(iters, names)
    ensures Agrees(O, scope + Ids(IterVars(iters)), taken + Ids(IterVars(iters)), names + IterNames(iters), results)
    decreases |iters|
  {
    hide OneName, Agrees, Distinct;
    if iters == [] {
      assert scope + Ids(IterVars(iters)) == scope && taken + Ids(IterVars(iters)) == taken;
      assert names + IterNames(iters) == names;
    } else {
      var it, rest := iters[0], iters[1..];
      var scope', taken', names' := scope + {it.v}, taken + {it.v}, names + {it.name};
      ItersCons(iters);
      FreshTail(it.v, IterVars(rest), taken);
      VariableComes(O, it.v, it.name, scope, taken, names, results);
      CarriedNamesAreNew(O, rest, scope', taken', names', results);
      IterNamesCons(iters);
      assert names + ({it.name} + IterNames(rest)) == names' + IterNames(rest);
    }
  }

  lemma IterNamesCons(iters: seq<IterArg>)
    requires iters != []
    ensures IterNames(iters) == {iters[0].name} + IterNames(iters[1..])
  {
    assert iters == [iters[0]] + iters[1..];
  }

  /** A variable that is not taken comes into sight, with a new name. */
  lemma VariableComes(O: Objects, id: nat, name: string, scope: set<nat>, taken: set<nat>, names: set<string>,
                      results: set<nat>)
    requires Agrees(O, scope, taken, names, results) && OneName(O) && VariableIs(O, id, name) && id !in taken
    ensures name !in names && Agrees(O, scope + {id}, taken + {id}, names + {name}, results)
  {
    forall n | n in names + {name} ensures exists i :: i in taken + {id} && VariableIs(O, i, n) {
      if n in names {
        var i :| i in taken && VariableIs(O, i, n);
        assert i in taken + {id};
      } else {
        assert id in taken + {id};
      }
    }
  }

  lemma {:induction false} DefinesResults(O: Objects, ops: seq<Op>)
    requires OpsAre(O, ops)
    ensures forall id <- DefinesOps(ops) :: O.sort(id) == Result
    decreases |ops|
  {
    if ops != [] {
      DefinesAre(ops[0]);
      DefinesResults(O, ops[1..]);
    }
  }

  lemma {:induction false} WfIsVerified(O: Objects, op: Op, scope: set<nat>, taken: set<nat>, names: set<string>,
                                        results: set<nat>, kinds: Kinds)
    requires WfOp(op, scope, taken, kinds) && OpIs(O, op) && OneName(O) && Agrees(O, scope, taken, names, results)
    ensures Verified(op, names, results) && NewResults(ResultsOf(op), results)
    decreases op, 1
  {
    hide OneName, WfBlock, BlockIs, VerifiedBlock;
    DefinesAre(op);
    assert OkValues(Verifier.Operands(op), scope, kinds);
    OkIsKnown(O, Verifier.Operands(op), scope, taken, names, results, kinds);
    hide Agrees;
    match op
    case IfOp(res, _, thn, els) =>
      AgreesMore(O, scope, taken, names, results, Ids(res));
      WfBlockIsVerified(O, thn, |res|, scope, taken + Ids(res), names, results, kinds);
      if els.Some? { WfBlockIsVerified(O, els.value, |res|, scope, taken + Ids(res), names, results, kinds); }
    case ForOp(res, loopVar, loopName, _, _, _, iters, body) =>
      var inner := Ids([loopVar] + IterVars(iters));
      LoopVariablesCome(O, op, scope, taken, names, results);
      WfBlockIsVerified(O, body, |iters|, scope + inner, taken + inner, names + {loopName} + IterNames(iters), results,
                        kinds);
    case _ =>
  }

  lemma LoopVariablesCome(O: Objects, op: Op, scope: set<nat>, taken: set<nat>, names: set<string>, results: set<nat>)
    requires op.ForOp? && OpIs(O, op) && OneName(O) && Agrees(O, scope, taken, names, results)
    requires Distinct([op.loopVar] + IterVars(op.iters)) && Ids([op.loopVar] + IterVars(op.iters)) !! taken
    ensures NewNames(op.iters, names + {op.loopName})
    ensures var inner := Ids([op.loopVar] + IterVars(op.iters));
      Agrees(O, scope + inner, taken + inner, names + {op.loopName} + IterNames(op.iters), results)
  {
    hide OneName, Agrees, BlockIs, Distinct, Ids;
    var id, vars := op.loopVar, IterVars(op.iters);
    FreshTail(id, vars, taken);
    VariableComes(O, id, op.loopName, scope, taken, names, results);
    CarriedNamesAreNew(O, op.iters, scope + {id}, taken + {id}, names + {op.loopName}, results);
  }

  lemma {:induction false} WfBlockIsVerified(O: Objects, b: Block, n: nat, scope: set<nat>, taken: set<nat>,
                                             names: set<string>, results: set<nat>, kinds: Kinds)
    requires WfBlock(b, n, scope, taken, kinds) && BlockIs(O, b) && OneName(O)
    requires Agrees(O, scope, taken, names, results)
    ensures VerifiedBlock(b, names, results) && |b.yielded| == n
    decreases b, 0
  {
    hide OneName, Agrees, WfOps, OpsAre, VerifiedOps;
    WfOpsAreVerified(O, b.ops, scope, taken, names, results, kinds);
    DefinesResults(O, b.ops);
    AgreesMore(O, scope, taken, names, results, DefinesOps(b.ops));
    OkIsKnown(O, b.yielded, scope + DefinesOps(b.ops), taken + DefinesOps(b.ops), names, results + DefinesOps(b.ops),
              kinds);
  }

  lemma {:induction false} WfOpsAreVerified(O: Objects, ops: seq<Op>, scope: set<nat>, taken: set<nat>,
                                            names: set<string>, results: set<nat>, kinds: Kinds)
    requires WfOps(ops, scope, taken, kinds) && OpsAre(O, ops) && OneName(O) && Agrees(O, scope, taken, names, results)
    ensures VerifiedOps(ops, names, results)
    decreases ops, 0
  {
    hide OneName, Agrees, WfOp, Verified, NewResults;
    if ops != [] {
      WfIsVerified(O, ops[0], scope, taken, names, results, kinds);
      DefinesAre(ops[0]);
      AgreesMore(O, scope, taken, names, results, Defines(ops[0]));
      WfOpsAreVerified(O, ops[1..], scope + Defines(ops[0]), taken + Defines(ops[0]), names, results + Defines(ops[0]),
                       kinds);
    }
  }

  /** Where one name stands for one variable, the verifier accepts every well-formed function. */
  lemma WfFunctionIsVerified(O: Objects, fn: Function, kinds: Kinds)
    requires WfFunction(fn, kinds) && FunctionIs(O, fn)
    ensures VerifiedFunction(fn)
  {
    hide OpsAre, WfOps, VerifiedOps;
    var scope, names := EntryScope(fn), NamesOf(fn.params);
    forall k | 0 <= k < |fn.params| ensures VariableIs(O, ParamIds(fn.params)[k], fn.params[k].name) {
      assert fn.params[k] in fn.params;
    }
    forall id | id in scope && O.sort(id) == Variable ensures O.name(id) in names {
      var k :| 0 <= k < |fn.params| && ParamIds(fn.params)[k] == id;
      assert fn.params[k] in fn.params;
    }
    forall n | n in names ensures exists id :: id in scope && VariableIs(O, id, n) {
      var p :| p in fn.params && p.name == n;
      var k :| 0 <= k < |fn.params| && fn.params[k] == p;
      assert ParamIds(fn.params)[k] in scope;
    }
    forall id | id in scope ensures O.sort(id) != Result {
      if id in Ids(ParamIds(fn.params)) {
        var k :| 0 <= k < |fn.params| && ParamIds(fn.params)[k] == id;
        assert VariableIs(O, ParamIds(fn.params)[k], fn.params[k].name);
      }
    }
    WfOpsAreVerified(O, fn.body, scope, scope, names, {}, kinds);
    DefinesResults(O, fn.body);
    AgreesMore(O, scope, scope, names, {}, DefinesOps(fn.body));
    OkIsKnown(O, fn.ret, scope + DefinesOps(fn.body), scope + DefinesOps(fn.body), names, {} + DefinesOps(fn.body),
              kinds);
    assert {} + DefinesOps(fn.body) == DefinesOps(fn.body);
  }
}

/** Rebuilding IR: every rebuilt op has new results, and one substitution map, shared by all nested
    regions, redirects operands to them (python/devproc2/compiler/passes/_rewriter.py).

    Three passes: the default, placing created tensors into storages
    (python/devproc2/compiler/passes/lower_tensor_create_to_alloc.py), and turning functional calls
    into creations and destination-passing calls (python/devproc2/compiler/passes/dps_lowering.py). */
module Rewriter {
  import opened Bytecode
  import opened IRValues
  import opened TensorIR

  datatype Pass =
    | Default
    | Placing(home: map<nat, nat>)                  // result of the storage op each created tensor goes to
    | Dps(kernelOf: Op -> Option<string>)          // the destination-passing function for a functional call

  type Sub = map<nat, nat>

  // ---------------------------------------------------------------- substitution

  function Sv(sub: Sub, v: Value): Value {
    if v.Res? && v.id in sub then Res(sub[v.id]) else v
  }

  function Svs(sub: Sub, vs: seq<Value>): (r: seq<Value>)
    ensures |r| == |vs| && forall k :: 0 <= k < |vs| ==> r[k] == Sv(sub, vs[k])
  {
    seq(|vs|, k requires 0 <= k < |vs| => Sv(sub, vs[k]))
  }

  function SubstEffect(sub: Sub, e: Effect): Effect {
    Effect(Svs(sub, e.reading), Svs(sub, e.writing), e.isOpaque)
  }

  function SubstLike(sub: Sub, like: Option<Value>): Option<Value> {
    match like
    case None => None
    case Some(v) => Some(Sv(sub, v))
  }

  function SubstIters(sub: Sub, iters: seq<Carried>): (r: seq<Carried>)
    ensures |r| == |iters| && forall k :: 0 <= k < |iters| ==> r[k] == Carried(iters[k].v, Sv(sub, iters[k].init))
  {
    seq(|iters|, k requires 0 <= k < |iters| => Carried(iters[k].v, Sv(sub, iters[k].init)))
  }

  // ---------------------------------------------------------------- rebuilding

  /** New ops, the map after them, and the next unused object identity. */
  datatype Rw = Rw(ops: seq<Op>, sub: Sub, next: nat)

  datatype RwRegionResult = RwRegionResult(region: Region, sub: Sub, next: nat)

  function Fresh(n: nat, next: nat): (ids: seq<nat>)
    ensures |ids| == n && forall k :: 0 <= k < n ==> ids[k] == next + k
  {
    seq(n, k requires 0 <= k < n => next + k)
  }

  function Register(sub: Sub, olds: seq<nat>, news: seq<nat>): Sub
    requires |olds| == |news|
    decreases |olds|
  {
    if olds == [] then sub else Register(sub[olds[0] := news[0]], olds[1..], news[1..])
  }

  predicate IsLeaf(op: Op) {
    !op.IfOp? && !op.ForOp?
  }

  predicate Selected(P: Pass, op: Op) {
    P.Dps? && op.ComputeOp? && P.kernelOf(op).Some?
  }

  predicate Placed(P: Pass, op: Op) {
    P.Placing? && op.CreateOp? && op.res in P.home
  }

  /** An op without regions after substitution, with result `res`. */
  function Leaf(P: Pass, op: Op, sub: Sub, res: nat): Op
    requires IsLeaf(op)
  {
    match op
    case ComputeOp(_, name, fn, args, spec) => ComputeOp(res, name, fn, Svs(sub, args), spec)
    case CreateOp(was, name, kind, spec, like) =>
      if Placed(P, op) then PlaceOp(res, Res(P.home[was]), spec.shape, spec.dtype)
      else CreateOp(res, name, kind, spec, SubstLike(sub, like))
    case StorageOp(_, _, _) => op
    case PlaceOp(_, storage, shape, dtype) => PlaceOp(res, Sv(sub, storage), shape, dtype)
    case ViewOp(_, base, byteOffset, shape, stride, offset) => ViewOp(res, Sv(sub, base), Sv(sub, byteOffset), shape,
      stride, offset)
    case CallOp(target, inputs, outputs, _) => CallOp(target, Svs(sub, inputs), Svs(sub, outputs),
                                                      SubstEffect(sub, EffectOf(op)))
    case CheckOp(tensor, dim, upper) => CheckOp(Sv(sub, tensor), dim, upper)
    case TupleOp(_, elems) => TupleOp(res, Svs(sub, elems))
    case ItemOp(_, tup, index) => ItemOp(res, Sv(sub, tup), index)
  }

  /** A destination-passing call that writes only its last argument. */
  function WriteCall(target: string, args: seq<Value>, out: Value): Op {
    CallOp(target, args, [out], Effect([], [out], false))
  }

  /** Ops without value operands are returned as they are, results included. */
  function RwLeaf(P: Pass, op: Op, sub: Sub, next: nat): Rw
    requires IsLeaf(op)
  {
    if Selected(P, op) then
      var sub' := sub[op.res := next];
      Rw([CreateOp(next, op.name, Empty, op.spec, None),
          WriteCall(P.kernelOf(op).value, Svs(sub', op.args), Res(next))], sub', next + 1)
    else if op.StorageOp? then Rw([op], sub[op.res := op.res], next)
    else if Results(op) == [] then Rw([Leaf(P, op, sub, next)], sub, next)
    else Rw([Leaf(P, op, sub, next)], sub[Results(op)[0] := next], next + 1)
  }

  function RwOp(P: Pass, op: Op, sub: Sub, next: nat): Rw
    decreases op, 1
  {
    match op
    case IfOp(results, cond, thn, els) =>
      var t := RwRegion(P, thn, sub, next);
      if els.None? then Close(IfOp(results, Sv(sub, cond), t.region, None), t.sub, t.next)
      else
        var e := RwRegion(P, els.value, t.sub, t.next);
        Close(IfOp(results, Sv(sub, cond), t.region, Some(e.region)), e.sub, e.next)
    case ForOp(results, loopVar, bounds, iters, body) =>
      var b := RwRegion(P, body, sub, next);
      Close(ForOp(results, loopVar, Svs(sub, bounds), SubstIters(sub, iters), b.region), b.sub, b.next)
    case _ => RwLeaf(P, op, sub, next)
  }

  /** The op's results are replaced after its regions are done. */
  function Close(op: Op, sub: Sub, next: nat): Rw
    requires !IsLeaf(op)
  {
    var news := Fresh(|op.results|, next);
    Rw([op.(results := news)], Register(sub, op.results, news), next + |op.results|)
  }

  function RwRegion(P: Pass, r: Region, sub: Sub, next: nat): RwRegionResult
    decreases r, 0
  {
    var inner := RwOps(P, r.ops, sub, next);
    RwRegionResult(Region(inner.ops, Svs(inner.sub, r.yielded)), inner.sub, inner.next)
  }

  function RwOps(P: Pass, ops: seq<Op>, sub: Sub, next: nat): Rw
    decreases ops, 0
  {
    if ops == [] then Rw([], sub, next)
    else
      var first := RwOp(P, ops[0], sub, next);
      var rest := RwOps(P, ops[1..], first.sub, first.next);
      Rw(first.ops + rest.ops, rest.sub, rest.next)
  }

  function RwFunc(P: Pass, fn: Func, next: nat): Func {
    var r := RwOps(P, fn.body, map[], next);
    Func(fn.params, r.ops, Svs(r.sub, fn.ret))
  }

  // ---------------------------------------------------------------- the transformation itself

  /** The pass applied to an op without giving anything a new identity. */
  function Target(P: Pass, op: Op): seq<Op>
    decreases op, 1
  {
    match op
    case IfOp(results, cond, thn, els) =>
      [IfOp(results, cond, TargetRegion(P, thn), if els.Some? then Some(TargetRegion(P, els.value)) else None)]
    case ForOp(results, loopVar, bounds, iters, body) => [ForOp(results, loopVar, bounds, iters, TargetRegion(P, body))]
    case _ =>
      if Selected(P, op) then
        [CreateOp(op.res, op.name, Empty, op.spec, None), WriteCall(P.kernelOf(op).value, op.args, Res(op.res))]
      else if Placed(P, op) then [PlaceOp(op.res, Res(P.home[op.res]), op.spec.shape, op.spec.dtype)]
      else [op]
  }

  function TargetRegion(P: Pass, r: Region): Region
    decreases r, 0
  {
    Region(TargetOps(P, r.ops), r.yielded)
  }

  function TargetOps(P: Pass, ops: seq<Op>): seq<Op>
    decreases ops, 0
  {
    if ops == [] then [] else Target(P, ops[0]) + TargetOps(P, ops[1..])
  }

  // ---------------------------------------------------------------- what the verifier demands

  /** Results are among `defs`, variables among `vars`. */
  predicate Known(vs: seq<Value>, defs: set<nat>, vars: set<nat>) {
    forall v <- vs :: (v.Res? ==> v.id in defs) && (v.Var? ==> v.id in vars)
  }

  function Ids(ids: seq<nat>): set<nat> {
    set id <- ids
  }

  predicate NewResults(op: Op, defs: set<nat>) {
    NoRepeat(Results(op)) && forall id <- Results(op) :: id !in defs
  }

  /** Values are used where they are defined. */
  predicate Verified(op: Op, defs: set<nat>, vars: set<nat>)
    decreases op, 2
  {
    NewResults(op, defs) && Inside(op, defs, vars)
  }

  /** Operands and regions; blocks yield what their op needs. */
  predicate Inside(op: Op, defs: set<nat>, vars: set<nat>)
    decreases op, 1
  {
    match op
    case IfOp(results, cond, thn, els) =>
      && Known([cond], defs, vars) && VerifiedRegion(thn, defs, vars) && |thn.yielded| == |results|
      && (results != [] ==> els.Some?)
      && (els.Some? ==> VerifiedRegion(els.value, defs, vars) && |els.value.yielded| == |results|)
    case ForOp(results, loopVar, bounds, iters, body) =>
      && Known(bounds + Inits(iters), defs, vars)
      && VerifiedRegion(body, defs, vars + LoopVars(op))
      && |body.yielded| == |iters| && (results != [] ==> |results| == |iters|)
    case _ => Known(Refs(OpNode(op)), defs, vars)
  }

  function LoopVars(op: Op): set<nat>
    requires op.ForOp?
  {
    {op.loopVar} + Ids(Vars(op.iters))
  }

  predicate VerifiedRegion(r: Region, defs: set<nat>, vars: set<nat>)
    decreases r, 0
  {
    VerifiedOps(r.ops, defs, vars) && Known(r.yielded, defs + DefsOf(r.ops), vars)
  }

  predicate VerifiedOps(ops: seq<Op>, defs: set<nat>, vars: set<nat>)
    decreases ops, 0
  {
    ops == [] || (Verified(ops[0], defs, vars) && VerifiedOps(ops[1..], defs + Ids(Results(ops[0])), vars))
  }

  /** What a list of ops defines for the ops after it. */
  function DefsOf(ops: seq<Op>): set<nat> {
    if ops == [] then {} else Ids(Results(ops[0])) + DefsOf(ops[1..])
  }

  predicate VerifiedFunc(fn: Func) {
    VerifiedOps(fn.body, {}, Ids(fn.params)) && Known(fn.ret, DefsOf(fn.body), Ids(fn.params))
  }

  // ---------------------------------------------------------------- rebuilt code is verified

  /** Identities of results that exist before the pass runs. */
  predicate Old(op: Op, bound: nat)
    decreases op, 1
  {
    (forall id <- Results(op) :: id < bound) &&
    match op
    case IfOp(_, _, thn, els) => OldOps(thn.ops, bound) && (els.Some? ==> OldOps(els.value.ops, bound))
    case ForOp(_, _, _, _, body) => OldOps(body.ops, bound)
    case _ => true
  }

  predicate OldOps(ops: seq<Op>, bound: nat)
    decreases ops, 0
  {
    ops == [] || (Old(ops[0], bound) && OldOps(ops[1..], bound))
  }

  /** `defs` is what is defined before a point of the old code, `defs'` before that point of the new
      code.  Whatever else the map holds, and it holds results of regions long left, it sends the
      former into the latter.  Only storages keep their identity. */
  ghost predicate Tracks(sub: Sub, defs: set<nat>, defs': set<nat>, bound: nat, next: nat) {
    && bound <= next
    && (forall id <- defs :: id in sub && sub[id] in defs')
    && (forall id <- defs' :: id < next && (id < bound ==> id in defs && sub[id] == id))
  }

  /** Storages are there before the code that places tensors into them. */
  predicate StoragesReady(P: Pass, defs': set<nat>) {
    P.Placing? ==> forall id <- P.home :: P.home[id] in defs'
  }

  lemma KnownSubst(sub: Sub, vs: seq<Value>, defs: set<nat>, defs': set<nat>, vars: set<nat>, bound: nat, next: nat)
    requires Tracks(sub, defs, defs', bound, next) && Known(vs, defs, vars)
    ensures Known(Svs(sub, vs), defs', vars)
  {
    forall v' | v' in Svs(sub, vs) ensures (v'.Res? ==> v'.id in defs') && (v'.Var? ==> v'.id in vars) {
      var k :| 0 <= k < |vs| && v' == Svs(sub, vs)[k];
      assert vs[k] in vs;
    }
  }

  lemma TracksNext(sub: Sub, defs: set<nat>, defs': set<nat>, bound: nat, next: nat, id: nat)
    requires Tracks(sub, defs, defs', bound, next) && id !in defs
    ensures Tracks(sub[id := next], defs + {id}, defs' + {next}, bound, next + 1)
  {
  }

  /** Entries for what is defined outside are not touched. */
  ghost predicate Keeps(sub: Sub, sub': Sub, defs: set<nat>) {
    forall id <- defs :: id in sub ==> id in sub' && sub'[id] == sub[id]
  }

  lemma KeepsSelf(sub: Sub, defs: set<nat>)
    ensures Keeps(sub, sub, defs)
  {
  }

  lemma {:induction false} RegisterIs(sub: Sub, olds: seq<nat>, news: seq<nat>)
    requires |olds| == |news| && NoRepeat(olds)
    ensures var s := Register(sub, olds, news);
      s.Keys == sub.Keys + Ids(olds) &&
      (forall k :: 0 <= k < |olds| ==> s[olds[k]] == news[k]) &&
      forall id :: id in sub && id !in olds ==> s[id] == sub[id]
    decreases |olds|
  {
    if olds != [] {
      RegisterIs(sub[olds[0] := news[0]], olds[1..], news[1..]);
      var s := Register(sub, olds, news);
      forall k | 0 <= k < |olds| ensures s[olds[k]] == news[k] {
        if k > 0 { assert olds[k] == olds[1..][k - 1]; }
      }
    }
  }

  lemma {:induction false} CloseIs(op: Op, sub: Sub, next: nat)
    requires !IsLeaf(op)
    ensures var r, news := Close(op, sub, next), Fresh(|op.results|, next);
      |r.ops| == 1 && !IsLeaf(r.ops[0]) && r.ops[0].results == Results(r.ops[0]) == news &&
      r.sub == Register(sub, op.results, news) && r.next == next + |op.results|
  {
    hide Register, Fresh;
  }

  lemma CloseTracks(sub: Sub, defs: set<nat>, defs': set<nat>, bound: nat, next: nat, op: Op)
    requires Tracks(sub, defs, defs', bound, next) && NewResults(op, defs) && !IsLeaf(op)
    ensures var r := Close(op, sub, next);
      Tracks(r.sub, defs + Ids(op.results), defs' + Ids(r.ops[0].results), bound, r.next) && Keeps(sub, r.sub, defs) &&
      NewResults(r.ops[0], defs')
  {
    hide Register, Fresh, Tracks, Keeps, Close;
    var olds, news := op.results, Fresh(|op.results|, next);
    CloseIs(op, sub, next);
    assert Results(op) == olds && forall id <- olds :: id !in defs;
    RegisterIs(sub, olds, news);
    RegisterTracks(sub, Register(sub, olds, news), defs, defs', bound, next, olds, news);
    NewIds(sub, defs, defs', bound, next, news);
  }

  lemma NewIds(sub: Sub, defs: set<nat>, defs': set<nat>, bound: nat, next: nat, news: seq<nat>)
    requires Tracks(sub, defs, defs', bound, next) && forall k :: 0 <= k < |news| ==> news[k] == next + k
    ensures NoRepeat(news) && forall id <- news :: id !in defs'
  {
  }

  /** Registering new results for old ones. */
  lemma RegisterTracks(sub: Sub, s: Sub, defs: set<nat>, defs': set<nat>, bound: nat, next: nat, olds: seq<nat>,
                       news: seq<nat>)
    requires Tracks(sub, defs, defs', bound, next) && |olds| == |news| && (forall id <- olds :: id !in defs)
    requires s.Keys == sub.Keys + Ids(olds) && (forall k :: 0 <= k < |olds| ==> s[olds[k]] == news[k])
    requires forall id :: id in sub && id !in olds ==> s[id] == sub[id]
    requires forall k :: 0 <= k < |news| ==> news[k] == next + k
    ensures Tracks(s, defs + Ids(olds), defs' + Ids(news), bound, next + |olds|) && Keeps(sub, s, defs)
  {
    forall id | id in defs + Ids(olds) ensures id in s && s[id] in defs' + Ids(news) {
      if id in olds {
        var k :| 0 <= k < |olds| && olds[k] == id;
        assert news[k] in news;
      }
    }
    forall id | id in defs' + Ids(news)
      ensures id < next + |olds| && (id < bound ==> id in defs + Ids(olds) && s[id] == id) {
      if id in news { var k :| 0 <= k < |news| && news[k] == id; }
    }
  }

  lemma SvsAppend(sub: Sub, a: seq<Value>, b: seq<Value>)
    ensures Svs(sub, a + b) == Svs(sub, a) + Svs(sub, b)
  {
  }

  lemma {:induction false} NoneMissing(outputs: seq<Value>, listed: seq<Value>)
    requires forall v <- outputs :: v in listed
    ensures Missing(outputs, listed) == []
  {
    if outputs != [] { NoneMissing(outputs[1..], listed); }
  }

  /** After substitution every output is still listed as written. */
  lemma {:induction false} CallEffect(sub: Sub, op: Op)
    requires op.CallOp?
    ensures var e := SubstEffect(sub, EffectOf(op));
      EffectOf(CallOp(op.target, Svs(sub, op.inputs), Svs(sub, op.outputs), e)) == e
  {
    var e := SubstEffect(sub, EffectOf(op));
    forall v' | v' in Svs(sub, op.outputs) ensures v' in e.writing {
      var k :| 0 <= k < |op.outputs| && v' == Svs(sub, op.outputs)[k];
      assert op.outputs[k] in op.outputs && op.outputs[k] in EffectOf(op).writing;
      var j :| 0 <= j < |EffectOf(op).writing| && EffectOf(op).writing[j] == op.outputs[k];
      assert e.writing[j] == v';
    }
    NoneMissing(Svs(sub, op.outputs), e.writing);
  }

  /** A rebuilt op refers to what the old one referred to. */
  lemma LeafRefs(P: Pass, op: Op, sub: Sub, res: nat)
    requires IsLeaf(op) && !Placed(P, op)
    ensures Refs(OpNode(Leaf(P, op, sub, res))) == Svs(sub, Refs(OpNode(op)))
  {
    if op.CallOp? {
      var e := EffectOf(op);
      CallEffect(sub, op);
      SvsAppend(sub, op.inputs, op.outputs);
      SvsAppend(sub, op.inputs + op.outputs, e.reading);
      SvsAppend(sub, op.inputs + op.outputs + e.reading, e.writing);
    }
  }

  /** Operands of a rebuilt op are known where it stands. */
  lemma LeafKnown(P: Pass, op: Op, sub: Sub, defs: set<nat>, defs': set<nat>, vars: set<nat>, bound: nat, next: nat,
                  res: nat)
    requires Tracks(sub, defs, defs', bound, next) && IsLeaf(op) && StoragesReady(P, defs')
    requires Known(Refs(OpNode(op)), defs, vars)
    ensures Known(Refs(OpNode(Leaf(P, op, sub, res))), defs', vars)
  {
    hide Tracks;
    if !Placed(P, op) {
      KnownSubst(sub, Refs(OpNode(op)), defs, defs', vars, bound, next);
      LeafRefs(P, op, sub, res);
    }
  }

  lemma {:induction false} OneVerified(op: Op, defs: set<nat>, vars: set<nat>)
    requires Verified(op, defs, vars)
    ensures VerifiedOps([op], defs, vars) && DefsOf([op]) == Ids(Results(op))
  {
    hide Verified;
    assert [op][1..] == [];
    assert DefsOf([op]) == Ids(Results(op)) + DefsOf([]);
  }

  lemma {:induction false} LeafVerified(P: Pass, op: Op, sub: Sub, defs: set<nat>, defs': set<nat>, vars: set<nat>,
                                        bound: nat, next: nat)
    requires IsLeaf(op) && Verified(op, defs, vars) && Old(op, bound)
    requires Tracks(sub, defs, defs', bound, next) && StoragesReady(P, defs')
    ensures var r := RwLeaf(P, op, sub, next);
      VerifiedOps(r.ops, defs', vars) &&
      Tracks(r.sub, defs + Ids(Results(op)), defs' + DefsOf(r.ops), bound, r.next) && Keeps(sub, r.sub, defs)
  {
    if Selected(P, op) {
      SelectedVerified(P, op, sub, defs, defs', vars, bound, next);
    } else {
      hide Tracks, Known, StoragesReady, VerifiedOps, Refs, Keeps, NewResults;
      var r := RwLeaf(P, op, sub, next);
      assert r.ops == [Leaf(P, op, sub, next)];
      LeafKnown(P, op, sub, defs, defs', vars, bound, next, next);
      LeafTracks(P, op, sub, defs, defs', bound, next);
      OneVerified(r.ops[0], defs', vars);
    }
  }

  lemma {:induction false} LeafTracks(P: Pass, op: Op, sub: Sub, defs: set<nat>, defs': set<nat>, bound: nat, next: nat)
    requires IsLeaf(op) && !Selected(P, op) && Tracks(sub, defs, defs', bound, next) && NewResults(op, defs)
    requires Old(op, bound)
    ensures var r := RwLeaf(P, op, sub, next);
      Tracks(r.sub, defs + Ids(Results(op)), defs' + Ids(Results(r.ops[0])), bound, r.next) &&
      NewResults(r.ops[0], defs') &&
      Keeps(sub, r.sub, defs)
  {
    if Results(op) == [] {
      assert defs + Ids([]) == defs && defs' + Ids([]) == defs';
    } else {
      assert Results(op) == [Results(op)[0]];
    }
  }

  /** Refs of the call that fills a new buffer. */
  lemma WriteCallRefs(target: string, args: seq<Value>, out: Value)
    ensures Refs(OpNode(WriteCall(target, args, out))) == args + [out, out]
    ensures EffectOf(WriteCall(target, args, out)) == Effect([], [out], false)
  {
    NoneMissing([out], [out]);
  }

  lemma KnownMore(vs: seq<Value>, out: nat, defs: set<nat>, vars: set<nat>)
    requires Known(vs, defs, vars) && out in defs
    ensures Known(vs + [Res(out), Res(out)], defs, vars)
  {
  }

  lemma {:induction false} SelectedVerified(P: Pass, op: Op, sub: Sub, defs: set<nat>, defs': set<nat>, vars: set<nat>,
                                            bound: nat, next: nat)
    requires Selected(P, op) && Verified(op, defs, vars) && Tracks(sub, defs, defs', bound, next)
    ensures var r := RwLeaf(P, op, sub, next);
      VerifiedOps(r.ops, defs', vars) && Tracks(r.sub, defs + Ids(Results(op)), defs' + DefsOf(r.ops), bound, r.next) &&
        Keeps(sub, r.sub, defs)
  {
    hide Tracks, Known, Refs, VerifiedOps, WriteCall, Svs, Sv;
    var sub' := sub[op.res := next];
    var create := CreateOp(next, op.name, Empty, op.spec, None);
    var args := Svs(sub', op.args);
    var call := WriteCall(P.kernelOf(op).value, args, Res(next));
    assert op.res !in defs by { assert Results(op)[0] == op.res; }
    TracksNext(sub, defs, defs', bound, next, op.res);
    assert Known(op.args, defs + {op.res}, vars) by { ArgsKnown(op, defs, vars); }
    KnownSubst(sub', op.args, defs + {op.res}, defs' + {next}, vars, bound, next + 1);
    KnownMore(args, next, defs' + {next}, vars);
    WriteCallRefs(P.kernelOf(op).value, args, Res(next));
    CallVerified(P.kernelOf(op).value, args, Res(next), defs' + {next}, vars);
    OneVerified(call, defs' + {next}, vars);
    CreateVerified(create, sub, defs, defs', vars, bound, next);
    OneVerified(create, defs', vars);
    VerifiedAppend([create], [call], defs', vars) by { assert Ids(Results(create)) == {next}; }
    assert Ids(Results(op)) == {op.res} && Ids(Results(create)) == {next} && Ids(Results(call)) == {};
    assert RwLeaf(P, op, sub, next).ops == [create] + [call];
    assert defs' + ({next} + {}) == defs' + {next};
  }

  lemma {:induction false} CreateVerified(op: Op, sub: Sub, defs: set<nat>, defs': set<nat>, vars: set<nat>, bound: nat,
                                          next: nat)
    requires op.CreateOp? && op.like.None? && op.res == next && Tracks(sub, defs, defs', bound, next)
    ensures Verified(op, defs', vars)
  {
  }

  lemma {:induction false} CallVerified(target: string, args: seq<Value>, out: Value, defs: set<nat>, vars: set<nat>)
    requires Known(args + [out, out], defs, vars)
    ensures Verified(WriteCall(target, args, out), defs, vars) && Results(WriteCall(target, args, out)) == []
  {
    hide Refs;
    WriteCallRefs(target, args, out);
  }

  lemma {:induction false} ArgsKnown(op: Op, defs: set<nat>, vars: set<nat>)
    requires op.ComputeOp? && Verified(op, defs, vars)
    ensures Known(op.args, defs + {op.res}, vars)
  {
    assert Refs(OpNode(op)) == op.args;
  }

  // ---------------------------------------------------------------- regions

  /** Outside the region, the map is as good as before. */
  lemma TracksOutside(sub: Sub, sub': Sub, defs: set<nat>, defs': set<nat>, bound: nat, next: nat, next': nat)
    requires Tracks(sub, defs, defs', bound, next) && Keeps(sub, sub', defs) && next <= next'
    ensures Tracks(sub', defs, defs', bound, next')
  {
  }

  lemma {:induction false} NextGrows(P: Pass, ops: seq<Op>, sub: Sub, next: nat)
    ensures next <= RwOps(P, ops, sub, next).next
    decreases ops, 0
  {
    if ops != [] {
      OpNextGrows(P, ops[0], sub, next);
      var first := RwOp(P, ops[0], sub, next);
      NextGrows(P, ops[1..], first.sub, first.next);
    }
  }

  lemma {:induction false} OpNextGrows(P: Pass, op: Op, sub: Sub, next: nat)
    ensures next <= RwOp(P, op, sub, next).next
    decreases op, 0
  {
    if op.IfOp? {
      NextGrows(P, op.thn.ops, sub, next);
      var t := RwRegion(P, op.thn, sub, next);
      if op.els.Some? { NextGrows(P, op.els.value.ops, t.sub, t.next); }
    } else if op.ForOp? {
      NextGrows(P, op.body.ops, sub, next);
    }
  }

  lemma {:induction false} RegionVerified(P: Pass, r: Region, sub: Sub, defs: set<nat>, defs': set<nat>, vars: set<nat>,
                                          bound: nat, next: nat)
    requires VerifiedRegion(r, defs, vars) && OldOps(r.ops, bound)
    requires Tracks(sub, defs, defs', bound, next) && StoragesReady(P, defs')
    ensures var q := RwRegion(P, r, sub, next);
      VerifiedRegion(q.region, defs', vars) && |q.region.yielded| == |r.yielded| &&
      Tracks(q.sub, defs, defs', bound, q.next) && Keeps(sub, q.sub, defs)
    decreases r, 0
  {
    hide VerifiedOps, Known, OldOps, RwOps, Keeps;
    OpsVerified(P, r.ops, sub, defs, defs', vars, bound, next);
    var inner := RwOps(P, r.ops, sub, next);
    KnownSubst(inner.sub, r.yielded, defs + DefsOf(r.ops), defs' + DefsOf(inner.ops), vars, bound, inner.next);
    TracksOutside(sub, inner.sub, defs, defs', bound, next, inner.next) by { NextGrows(P, r.ops, sub, next); }
  }

  lemma KeepsBoth(sub: Sub, mid: Sub, sub': Sub, defs: set<nat>)
    requires Keeps(sub, mid, defs) && Keeps(mid, sub', defs)
    ensures Keeps(sub, sub', defs)
  {
  }

  /** Replacing the results of an op whose regions are done. */
  lemma {:induction false} CloseVerified(op: Op, sub: Sub, defs: set<nat>, defs': set<nat>, vars: set<nat>, bound: nat,
                                         next: nat)
    requires !IsLeaf(op) && NewResults(op, defs) && Inside(op, defs', vars) && Tracks(sub, defs, defs', bound, next)
    ensures var r := Close(op, sub, next);
      VerifiedOps(r.ops, defs', vars) &&
      Tracks(r.sub, defs + Ids(op.results), defs' + DefsOf(r.ops), bound, r.next) && Keeps(sub, r.sub, defs)
  {
    hide VerifiedRegion, Known, Register, NewResults, Tracks, Keeps, VerifiedOps;
    var r := Close(op, sub, next);
    CloseTracks(sub, defs, defs', bound, next, op);
    if op.ForOp? { assert LoopVars(r.ops[0]) == LoopVars(op); }
    OneVerified(r.ops[0], defs', vars);
    assert r.ops == [r.ops[0]];
  }

  lemma {:induction false} OpVerified(P: Pass, op: Op, sub: Sub, defs: set<nat>, defs': set<nat>, vars: set<nat>,
                                      bound: nat, next: nat)
    requires Verified(op, defs, vars) && Old(op, bound)
    requires Tracks(sub, defs, defs', bound, next) && StoragesReady(P, defs')
    ensures var r := RwOp(P, op, sub, next);
      VerifiedOps(r.ops, defs', vars) &&
      Tracks(r.sub, defs + Ids(Results(op)), defs' + DefsOf(r.ops), bound, r.next) && Keeps(sub, r.sub, defs)
    decreases op, 1
  {
    hide Tracks, Keeps, VerifiedOps, StoragesReady, RwRegion, RwLeaf;
    if op.IfOp? {
      IfVerified(P, op, sub, defs, defs', vars, bound, next);
    } else if op.ForOp? {
      ForVerified(P, op, sub, defs, defs', vars, bound, next);
    } else {
      LeafVerified(P, op, sub, defs, defs', vars, bound, next);
    }
  }

  /** The map is shared: what the first branch registered is still in it during the second. */
  lemma {:induction false} IfVerified(P: Pass, op: Op, sub: Sub, defs: set<nat>, defs': set<nat>, vars: set<nat>,
                                      bound: nat, next: nat)
    requires op.IfOp? && Verified(op, defs, vars) && Old(op, bound)
    requires Tracks(sub, defs, defs', bound, next) && StoragesReady(P, defs')
    ensures var r := RwOp(P, op, sub, next);
      VerifiedOps(r.ops, defs', vars) &&
      Tracks(r.sub, defs + Ids(op.results), defs' + DefsOf(r.ops), bound, r.next) && Keeps(sub, r.sub, defs)
    decreases op, 0
  {
    hide VerifiedRegion, VerifiedOps, OldOps, RwRegion, Tracks, Keeps, NewResults, StoragesReady, Close, Known;
    var t := RwRegion(P, op.thn, sub, next);
    RegionVerified(P, op.thn, sub, defs, defs', vars, bound, next);
    KnownSubst(sub, [op.cond], defs, defs', vars, bound, next);
    assert Svs(sub, [op.cond]) == [Sv(sub, op.cond)];
    if op.els.Some? {
      RegionVerified(P, op.els.value, t.sub, defs, defs', vars, bound, t.next);
      var e := RwRegion(P, op.els.value, t.sub, t.next);
      var op' := IfOp(op.results, Sv(sub, op.cond), t.region, Some(e.region));
      CloseVerified(op', e.sub, defs, defs', vars, bound, e.next) by { SameResults(op, op', defs); }
      KeepsBoth(sub, t.sub, e.sub, defs);
      KeepsBoth(sub, e.sub, Close(op', e.sub, e.next).sub, defs);
    } else {
      var op' := IfOp(op.results, Sv(sub, op.cond), t.region, None);
      CloseVerified(op', t.sub, defs, defs', vars, bound, t.next) by { SameResults(op, op', defs); }
      KeepsBoth(sub, t.sub, Close(op', t.sub, t.next).sub, defs);
    }
  }

  lemma SameResults(op: Op, op': Op, defs: set<nat>)
    requires Results(op) == Results(op') && NewResults(op, defs)
    ensures NewResults(op', defs)
  {
  }

  lemma {:induction false} ForVerified(P: Pass, op: Op, sub: Sub, defs: set<nat>, defs': set<nat>, vars: set<nat>,
                                       bound: nat, next: nat)
    requires op.ForOp? && Verified(op, defs, vars) && Old(op, bound)
    requires Tracks(sub, defs, defs', bound, next) && StoragesReady(P, defs')
    ensures var r := RwOp(P, op, sub, next);
      VerifiedOps(r.ops, defs', vars) &&
      Tracks(r.sub, defs + Ids(op.results), defs' + DefsOf(r.ops), bound, r.next) && Keeps(sub, r.sub, defs)
    decreases op, 0
  {
    hide VerifiedRegion, VerifiedOps, OldOps, RwRegion, Tracks, Keeps, NewResults, StoragesReady, Close, Known;
    var b := RwRegion(P, op.body, sub, next);
    RegionVerified(P, op.body, sub, defs, defs', vars + LoopVars(op), bound, next);
    KnownSubst(sub, op.bounds + Inits(op.iters), defs, defs', vars, bound, next);
    var op' := ForOp(op.results, op.loopVar, Svs(sub, op.bounds), SubstIters(sub, op.iters), b.region);
    assert Svs(sub, op.bounds) + Inits(op'.iters) == Svs(sub, op.bounds + Inits(op.iters));
    assert Vars(op'.iters) == Vars(op.iters);
    CloseVerified(op', b.sub, defs, defs', vars, bound, b.next) by { SameResults(op, op', defs); }
    KeepsBoth(sub, b.sub, Close(op', b.sub, b.next).sub, defs);
  }

  /** Rebuilt ops are verified where the old ones were: no operand refers to an old result, or to a
      new one that is not defined there, although the map also holds results of other regions. */
  lemma {:induction false} OpsVerified(P: Pass, ops: seq<Op>, sub: Sub, defs: set<nat>, defs': set<nat>, vars: set<nat>,
                                       bound: nat, next: nat)
    requires VerifiedOps(ops, defs, vars) && OldOps(ops, bound)
    requires Tracks(sub, defs, defs', bound, next) && StoragesReady(P, defs')
    ensures var r := RwOps(P, ops, sub, next);
      VerifiedOps(r.ops, defs', vars) &&
      Tracks(r.sub, defs + DefsOf(ops), defs' + DefsOf(r.ops), bound, r.next) && Keeps(sub, r.sub, defs)
    decreases ops, 0
  {
    hide Tracks, Keeps, Verified, Old, RwOp;
    if ops == [] {
      assert defs + {} == defs && defs' + {} == defs';
      KeepsSelf(sub, defs);
    } else {
      var first := RwOp(P, ops[0], sub, next);
      OpVerified(P, ops[0], sub, defs, defs', vars, bound, next);
      var defs1, defs1' := defs + Ids(Results(ops[0])), defs' + DefsOf(first.ops);
      OpsVerified(P, ops[1..], first.sub, defs1, defs1', vars, bound, first.next);
      var rest := RwOps(P, ops[1..], first.sub, first.next);
      VerifiedAppend(first.ops, rest.ops, defs', vars);
      assert defs1 + DefsOf(ops[1..]) == defs + DefsOf(ops);
      assert defs1' + DefsOf(rest.ops) == defs' + DefsOf(first.ops + rest.ops);
      KeepsFewer(first.sub, rest.sub, defs1, defs);
      KeepsBoth(sub, first.sub, rest.sub, defs);
    }
  }

  lemma KeepsFewer(sub: Sub, sub': Sub, more: set<nat>, defs: set<nat>)
    requires Keeps(sub, sub', more) && defs <= more
    ensures Keeps(sub, sub', defs)
  {
  }

  lemma {:induction false} VerifiedAppend(a: seq<Op>, b: seq<Op>, defs: set<nat>, vars: set<nat>)
    requires VerifiedOps(a, defs, vars) && VerifiedOps(b, defs + DefsOf(a), vars)
    ensures VerifiedOps(a + b, defs, vars) && DefsOf(a + b) == DefsOf(a) + DefsOf(b)
  {
    hide Verified;
    if a == [] {
      assert a + b == b && defs + {} == defs;
    } else {
      assert (a + b)[1..] == a[1..] + b;
      assert defs + Ids(Results(a[0])) + DefsOf(a[1..]) == defs + DefsOf(a);
      VerifiedAppend(a[1..], b, defs + Ids(Results(a[0])), vars);
    }
  }

  /** A verified function is rebuilt to a verified one, after hoisted storages if it places tensors. */
  lemma {:induction false} FunctionVerified(P: Pass, fn: Func, bound: nat, next: nat, hoisted: set<nat>)
    requires VerifiedFunc(fn) && OldOps(fn.body, bound) && bound <= next
    requires forall id <- hoisted :: bound <= id < next
    requires P.Placing? ==> forall id <- P.home :: P.home[id] in hoisted
    ensures var fn' := RwFunc(P, fn, next);
      VerifiedOps(fn'.body, hoisted, Ids(fn'.params)) && Known(fn'.ret, hoisted + DefsOf(fn'.body), Ids(fn'.params))
  {
    var r := RwOps(P, fn.body, map[], next);
    OpsVerified(P, fn.body, map[], {}, hoisted, Ids(fn.params), bound, next);
    assert {} + DefsOf(fn.body) == DefsOf(fn.body);
    KnownSubst(r.sub, fn.ret, DefsOf(fn.body), hoisted + DefsOf(r.ops), Ids(fn.params), bound, r.next);
  }
}

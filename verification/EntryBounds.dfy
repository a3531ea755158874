/** The bound checks at function entry justify planning with upper bounds
    (python/devproc2/compiler/passes/shape_expr_lowering.py). */
module EntryBounds {
  import opened Bytecode
  import opened Runtime
  import opened Builtins
  import opened PrimExprs
  import opened MemoryIR
  import opened Structured
  import opened ShapeBounds

  /** d stands by itself in the shape of some parameter. */
  predicate IsDim(params: seq<Param>, d: PrimExpr) {
    d.PrimVar? && exists p <- params :: p.info.KnownShape? && d in p.info.shape
  }

  /** One id, one symbol. */
  ghost predicate OneObject(params: seq<Param>) {
    forall a, b :: IsDim(params, a) && IsDim(params, b) && a.id == b.id ==> a == b
  }

  predicate NaturalDims(v: Val) {
    v.VTensor? ==> forall d <- v.shape :: d >= 0
  }

  lemma ShapeDimNatural(h: Host, shape: seq<int>, k: nat)
    requires (forall d <- shape :: d >= 0) && CallBuiltin(h, GetShapeDim, [VShape(shape), VInt(k)]).Some?
    ensures var v := CallBuiltin(h, GetShapeDim, [VShape(shape), VInt(k)]).value; v.VInt? && v.i >= 0
  {
    var args := [VShape(shape), VInt(k)];
    assert args[0] == VShape(shape) && args[1] == VInt(k);
    var p := Position(h, k, |shape|).value;
    assert shape[p] in shape;
  }

  /** Reading and checking dimensions puts each within its bound and touches nothing else. */
  lemma {:induction false} DimsWithin(h: Host, dims: seq<(nat, PrimExpr)>, shape: seq<int>, E: Env)
    requires (forall d <- dims :: d.1.PrimVar?) && (forall n <- shape :: n >= 0)
    requires forall a, b :: a in dims && b in dims && a.1.id == b.1.id ==> a.1 == b.1
    requires EvalDims(h, dims, VShape(shape), E).Some?
    ensures var E' := EvalDims(h, dims, VShape(shape), E).value;
      (forall d <- dims :: Within(d.1, E')) &&
      forall id :: id in E && id !in DimIds(dims) ==> id in E' && E'[id] == E[id]
    decreases |dims|
  {
    if dims != [] {
      var d := dims[0];
      ShapeDimNatural(h, shape, d.0);
      EvalDimsCons(h, dims, VShape(shape), E);
      var E1 := EvalDim(h, d, VShape(shape), E).value;
      assert Within(d.1, E1);
      DimsWithin(h, dims[1..], shape, E1);
      DimIdsCons(dims);
      var E' := EvalDims(h, dims, VShape(shape), E).value;
      if d.1.id in DimIds(dims[1..]) {
        var b :| b in dims[1..] && b.1.id == d.1.id;
        assert b in dims && d in dims;
        assert Within(b.1, E');
      } else {
        assert E'[d.1.id] == E1[d.1.id];
      }
      assert dims == [dims[0]] + dims[1..];
    }
  }

  lemma {:induction false} UnseenAre(shape: seq<PrimExpr>, seen: set<nat>, k: nat)
    requires k <= |shape|
    ensures forall d <- UnseenDims(shape, seen, k) :: d.1 in shape && d.1.id !in seen
    decreases |shape| - k
  {
    if k < |shape| { UnseenAre(shape, seen, k + 1); }
  }

  /** The dimensions entry code reads from a parameter are its dimensions, one object per id. */
  lemma UnseenAreDims(params: seq<Param>, k: nat, seen: set<nat>)
    requires k < |params| && OneObject(params)
    ensures var dims := Unseen(params[k], seen);
      (forall d <- dims :: IsDim(params, d.1) && d.1.id !in seen) &&
      forall a, b :: a in dims && b in dims && a.1.id == b.1.id ==> a.1 == b.1
  {
    var dims := Unseen(params[k], seen);
    if params[k].info.KnownShape? {
      UnseenAre(params[k].info.shape, seen, 0);
      forall d | d in dims ensures IsDim(params, d.1) { assert params[k] in params; }
    }
  }

  /** What is known once the first k parameters are done. */
  ghost predicate Checked(params: seq<Param>, seen: set<nat>, E: Env) {
    forall d :: IsDim(params, d) && d.id in seen ==> Within(d, E)
  }

  /** Parameters are bound, tensors among them have natural dimensions, and no parameter is a dimension. */
  ghost predicate ParamsNatural(params: seq<Param>, E: Env) {
    forall p <- params :: p.id in E && NaturalDims(E[p.id]) && p.id !in ShapeIds(params)
  }

  lemma ParamBound(params: seq<Param>, k: nat, E: Env)
    requires k < |params| && ParamsNatural(params, E)
    ensures params[k].id in E
  {
    assert params[k] in params;
  }

  lemma {:induction false} SetupWithin(h: Host, params: seq<Param>, k: nat, seen: set<nat>, E: Env)
    requires k <= |params| && OneObject(params) && Checked(params, seen, E)
    requires ParamsNatural(params, E)
    requires EvalSetup(h, params[k..], seen, E).Some?
    ensures Checked(params, seen + ShapeIds(params[k..]), EvalSetup(h, params[k..], seen, E).value)
    decreases |params| - k
  {
    hide EvalSetup, CallBuiltin, EvalDims, Unseen, ShapeIds, Checked, OneObject, ParamsNatural;
    if k == |params| {
      EvalSetupNone(h, seen, E);
      NoShapeIds();
      assert params[k..] == [];
      assert seen + {} == seen;
    } else {
      ParamBound(params, k, E);
      var p := params[k];
      var rest := params[k..];
      assert rest[1..] == params[k + 1..] && rest[0] == p;
      var dims := Unseen(p, seen);
      EvalSetupCons(h, rest, seen, E);
      UnseenCovers(p, seen);
      ShapeIdsCons(rest);
      if dims == [] {
        SetupWithin(h, params, k + 1, seen, E);
        assert seen + ShapeIds(rest) == seen + ShapeIds(params[k + 1..]);
      } else {
        ShapeOfIs(h, E[p.id]);
        var E1 := ParamWithin(h, params, k, seen, E);
        SetupWithin(h, params, k + 1, seen + DimIds(dims), E1);
        assert seen + DimIds(dims) + ShapeIds(params[k + 1..]) == seen + ShapeIds(rest);
      }
    }
  }

  /** One parameter's dimensions. */
  lemma ParamWithin(h: Host, params: seq<Param>, k: nat, seen: set<nat>, E: Env) returns (E1: Env)
    requires k < |params| && OneObject(params) && Checked(params, seen, E)
    requires ParamsNatural(params, E)
    requires params[k].id in E && E[params[k].id].VTensor?
    requires EvalDims(h, Unseen(params[k], seen), VShape(E[params[k].id].shape), E).Some?
    ensures EvalDims(h, Unseen(params[k], seen), VShape(E[params[k].id].shape), E) == Some(E1)
    ensures Checked(params, seen + DimIds(Unseen(params[k], seen)), E1)
    ensures ParamsNatural(params, E1)
  {
    hide CallBuiltin, ShapeIds, Checked;
    var dims := Unseen(params[k], seen);
    var shape := E[params[k].id].shape;
    assert NaturalDims(E[params[k].id]) by { assert params[k] in params; }
    UnseenAreDims(params, k, seen);
    DimsWithin(h, dims, shape, E);
    E1 := EvalDims(h, dims, VShape(shape), E).value;
    CheckedMore(params, seen, dims, E, E1);
    DimsAreShapeIds(params, dims);
  }

  lemma ShapeOfIs(h: Host, v: Val)
    ensures CallBuiltin(h, ShapeOf, [v]) == if v.VTensor? then Some(VShape(v.shape)) else None
  {
  }

  lemma DimsAreShapeIds(params: seq<Param>, dims: seq<(nat, PrimExpr)>)
    requires forall d <- dims :: d.1.PrimVar? && IsDim(params, d.1)
    ensures DimIds(dims) <= ShapeIds(params)
  {
    forall id | id in DimIds(dims) ensures id in ShapeIds(params) {
      var d :| d in dims && d.1.id == id;
      var p :| p in params && p.info.KnownShape? && d.1 in p.info.shape;
      assert d.1 in (if p.info.KnownShape? then p.info.shape else []);
    }
  }

  lemma {:induction false} CheckedMore(params: seq<Param>, seen: set<nat>, dims: seq<(nat, PrimExpr)>, E: Env, E': Env)
    requires OneObject(params) && Checked(params, seen, E)
    requires forall d <- dims :: d.1.PrimVar? && IsDim(params, d.1) && d.1.id !in seen && Within(d.1, E')
    requires forall id :: id in E && id !in DimIds(dims) ==> id in E' && E'[id] == E[id]
    ensures Checked(params, seen + DimIds(dims), E')
  {
    forall d | IsDim(params, d) && d.id in seen + DimIds(dims) ensures Within(d, E') {
      if d.id in DimIds(dims) {
        var b :| b in dims && b.1.id == d.id;
        assert b.1 == d;
      } else {
        assert Within(d, E);
      }
    }
  }

  /** All variables of the expression are dimensions of parameters. */
  predicate OverDims(params: seq<Param>, e: PrimExpr) {
    match e
    case IntImm(_) => true
    case PrimVar(_, _, _) => IsDim(params, e)
    case Bin(_, l, r) => OverDims(params, l) && OverDims(params, r)
  }

  lemma {:induction false} OverDimsWithin(params: seq<Param>, e: PrimExpr, E: Env)
    requires OverDims(params, e) && Checked(params, ShapeIds(params), E)
    ensures Within(e, E)
  {
    if e.Bin? {
      OverDimsWithin(params, e.lhs, E);
      OverDimsWithin(params, e.rhs, E);
    } else if e.PrimVar? {
      var p :| p in params && p.info.KnownShape? && e in p.info.shape;
      assert e in (if p.info.KnownShape? then p.info.shape else []);
    }
  }

  /** If the entry assertions pass, a tensor whose shape is monotone in the parameters' dimensions
      fits into the storage planned from their upper bounds. */
  lemma {:induction false} CheckedTensorsFit(h: Host, fn: Function, E0: Env, E: Env, shape: seq<PrimExpr>, dtype: DType,
                                             itemsize: nat)
    requires OneObject(fn.params) && EvalSetup(h, fn.params, {}, E0) == Some(E)
    requires ParamsNatural(fn.params, E0)
    requires AllMonotone(shape) && (forall e <- shape :: OverDims(fn.params, e)) && SizeBytes(shape, itemsize).Some?
    requires dtype.bits == 8 * itemsize && dtype.lanes == 1
    ensures EvalShape(h, shape, E).Some?
    ensures 0 <= PayloadBytes(EvalShape(h, shape, E).value, dtype) <= SizeBytes(shape, itemsize).value
  {
    assert fn.params[0..] == fn.params;
    SetupWithin(h, fn.params, 0, {}, E0);
    assert {} + ShapeIds(fn.params) == ShapeIds(fn.params);
    forall e | e in shape ensures Within(e, E) { OverDimsWithin(fn.params, e, E); }
    PlannedBytesSuffice(h, shape, dtype, itemsize, E);
  }
}

/** What entry code gives each symbolic dimension, and when it refuses its arguments, in terms of the arguments alone
    (python/devproc2/compiler/passes/shape_expr_lowering.py, runtime/src/builtins.cc). */
module EntryReads {
  import opened Bytecode
  import opened Runtime
  import opened Builtins
  import opened PrimExprs
  import opened MemoryIR
  import opened Structured

  // ---------------------------------------------------------------- places

  /** The k-th dimension of the parameter is this symbol. */
  predicate SymbolAt(p: Param, k: nat, id: nat) {
    p.info.KnownShape? && k < |p.info.shape| && p.info.shape[k].PrimVar? && p.info.shape[k].id == id
  }

  ghost predicate Mentions(p: Param, id: nat) {
    exists k: nat :: SymbolAt(p, k, id)
  }

  /** Dimension k of parameter j is read: no parameter from s on before j has its symbol, and it is not yet seen. */
  ghost predicate ReadFrom(params: seq<Param>, s: nat, seen: set<nat>, j: nat, k: nat, id: nat) {
    s <= j < |params| && SymbolAt(params[j], k, id) && id !in seen &&
    forall i :: s <= i < j ==> !Mentions(params[i], id)
  }

  /** The last dimension of its parameter with that symbol. */
  ghost predicate LastIn(p: Param, k: nat, id: nat) {
    forall k': nat :: k < k' ==> !SymbolAt(p, k', id)
  }

  /** The argument has such a dimension, and it is within the symbol's bound. */
  predicate Fits(p: Param, k: nat, arg: Val)
    requires p.info.KnownShape? && k < |p.info.shape| && p.info.shape[k].PrimVar?
  {
    var upper := p.info.shape[k].upper;
    arg.VTensor? && k < |arg.shape| && (upper.Some? ==> arg.shape[k] <= upper.value)
  }

  // ---------------------------------------------------------------- one parameter

  /** The dimensions from k0 on that are read are there and within their bounds. */
  ghost predicate DimsFit(p: Param, s: seq<int>, seen: set<nat>, k0: nat) {
    forall k: nat, id :: k0 <= k && SymbolAt(p, k, id) && id !in seen ==> DimFits(p, s, k)
  }

  predicate DimFits(p: Param, s: seq<int>, k: nat)
    requires p.info.KnownShape? && k < |p.info.shape| && p.info.shape[k].PrimVar?
  {
    k < |s| && (p.info.shape[k].upper.Some? ==> s[k] <= p.info.shape[k].upper.value)
  }

  /** Their symbols have the last one's value. */
  ghost predicate DimsHold(p: Param, s: seq<int>, seen: set<nat>, k0: nat, F: Env) {
    forall k: nat, id :: k0 <= k && SymbolAt(p, k, id) && id !in seen && LastIn(p, k, id) ==>
      k < |s| && id in F && F[id] == VInt(s[k])
  }

  /** Nothing else changes. */
  ghost predicate OthersStay(p: Param, seen: set<nat>, k0: nat, E: Env, F: Env) {
    forall id :: id in E && Other(p, seen, k0, id) ==> id in F && F[id] == E[id]
  }

  ghost predicate Other(p: Param, seen: set<nat>, k0: nat, id: nat) {
    id in seen || forall k: nat :: k0 <= k ==> !SymbolAt(p, k, id)
  }

  /** One dimension read from a shape. */
  lemma DimRead(h: Host, p: Param, k: nat, s: seq<int>, E: Env)
    requires p.info.KnownShape? && k < |p.info.shape| && p.info.shape[k].PrimVar?
    ensures EvalDim(h, (k, p.info.shape[k]), VShape(s), E) ==
      if DimFits(p, s, k) then Some(E[p.info.shape[k].id := VInt(s[k])]) else None
  {
  }

  lemma FitFirst(p: Param, s: seq<int>, seen: set<nat>, k0: nat)
    requires p.info.KnownShape? && k0 < |p.info.shape|
    ensures DimsFit(p, s, seen, k0) <==>
      (p.info.shape[k0].PrimVar? && p.info.shape[k0].id !in seen ==> DimFits(p, s, k0)) && DimsFit(p, s, seen, k0 + 1)
  {
    hide DimFits;
    var d := p.info.shape[k0];
    if d.PrimVar? { assert SymbolAt(p, k0, d.id); }
  }

  lemma HoldFirst(p: Param, s: seq<int>, seen: set<nat>, k0: nat, F: Env)
    requires p.info.KnownShape? && k0 < |p.info.shape| && DimsHold(p, s, seen, k0 + 1, F)
    requires p.info.shape[k0].PrimVar? && p.info.shape[k0].id !in seen && LastIn(p, k0, p.info.shape[k0].id) ==>
      k0 < |s| && p.info.shape[k0].id in F && F[p.info.shape[k0].id] == VInt(s[k0])
    ensures DimsHold(p, s, seen, k0, F)
  {
    hide LastIn;
  }

  lemma {:induction false} DimsRead(h: Host, p: Param, s: seq<int>, seen: set<nat>, k0: nat, E: Env)
    requires p.info.KnownShape? && k0 <= |p.info.shape|
    ensures var r := EvalDims(h, UnseenDims(p.info.shape, seen, k0), VShape(s), E);
      (r.Some? <==> DimsFit(p, s, seen, k0)) &&
      (r.Some? ==> DimsHold(p, s, seen, k0, r.value) && OthersStay(p, seen, k0, E, r.value))
    decreases |p.info.shape| - k0
  {
    hide EvalDim, CallBuiltin, DimsFit, DimsHold, DimFits, EvalDims;
    var shape := p.info.shape;
    if k0 == |shape| {
      DimsNone(h, p, s, seen, E);
    } else {
      var d, dims := shape[k0], UnseenDims(shape, seen, k0);
      FitFirst(p, s, seen, k0);
      if d.PrimVar? && d.id !in seen {
        assert dims[0] == (k0, d) && dims[1..] == UnseenDims(shape, seen, k0 + 1);
        EvalDimsCons(h, dims, VShape(s), E);
        DimRead(h, p, k0, s, E);
        if DimFits(p, s, k0) {
          DimIn(p, s, k0);
          DimsRead(h, p, s, seen, k0 + 1, E[d.id := VInt(s[k0])]);
          var r := EvalDims(h, dims, VShape(s), E);
          if r.Some? {
            if LastIn(p, k0, d.id) { assert Other(p, seen, k0 + 1, d.id); }
            HoldFirst(p, s, seen, k0, r.value);
            assert SymbolAt(p, k0, d.id);
          }
        }
      } else {
        DimsRead(h, p, s, seen, k0 + 1, E);
        var r := EvalDims(h, dims, VShape(s), E);
        if r.Some? { HoldFirst(p, s, seen, k0, r.value); }
      }
    }
  }

  lemma DimIn(p: Param, s: seq<int>, k: nat)
    requires p.info.KnownShape? && k < |p.info.shape| && p.info.shape[k].PrimVar? && DimFits(p, s, k)
    ensures k < |s|
  {
  }

  lemma DimsNone(h: Host, p: Param, s: seq<int>, seen: set<nat>, E: Env)
    requires p.info.KnownShape?
    ensures EvalDims(h, UnseenDims(p.info.shape, seen, |p.info.shape|), VShape(s), E) == Some(E)
    ensures DimsFit(p, s, seen, |p.info.shape|) && DimsHold(p, s, seen, |p.info.shape|, E)
  {
  }

  // ---------------------------------------------------------------- all parameters

  ghost predicate AllFit(params: seq<Param>, args: seq<Val>, s: nat, seen: set<nat>)
    requires |args| == |params|
  {
    forall j: nat, k: nat, id :: ReadFrom(params, s, seen, j, k, id) ==> Fits(params[j], k, args[j])
  }

  ghost predicate AllHold(params: seq<Param>, args: seq<Val>, s: nat, seen: set<nat>, F: Env)
    requires |args| == |params|
  {
    forall j: nat, k: nat, id :: ReadFrom(params, s, seen, j, k, id) && LastIn(params[j], k, id) ==>
      HoldsDim(args[j], k, id, F)
  }

  predicate HoldsDim(arg: Val, k: nat, id: nat, F: Env) {
    arg.VTensor? && k < |arg.shape| && id in F && F[id] == VInt(arg.shape[k])
  }

  ghost predicate RestStays(params: seq<Param>, s: nat, seen: set<nat>, E: Env, F: Env) {
    forall id :: id in E && (id in seen || forall j: nat :: s <= j < |params| ==> !Mentions(params[j], id)) ==>
      id in F && F[id] == E[id]
  }

  /** The arguments are bound, and no parameter is a symbolic dimension. */
  ghost predicate Bound(params: seq<Param>, args: seq<Val>, E: Env) {
    |args| == |params| && forall j: nat :: j < |params| ==>
      params[j].id in E && E[params[j].id] == args[j] &&
      forall i: nat :: i < |params| ==> !Mentions(params[i], params[j].id)
  }

  lemma {:induction false} UnseenMentions(p: Param, seen: set<nat>, id: nat)
    ensures id in DimIds(Unseen(p, seen)) <==> id !in seen && Mentions(p, id)
  {
    if p.info.KnownShape? {
      var shape := p.info.shape;
      UnseenIds(shape, seen, 0);
      assert shape[0..] == shape;
      if id !in seen && Mentions(p, id) {
        var k: nat :| SymbolAt(p, k, id);
        assert shape[k] in shape;
      }
      if id in DimIds(Unseen(p, seen)) {
        var d :| d in shape && d.PrimVar? && d.id !in seen && d.id == id;
        var k :| 0 <= k < |shape| && shape[k] == d;
        assert SymbolAt(p, k, id);
      }
    }
  }

  /** What is read from the later parameters once this one is done. */
  lemma ReadNext(params: seq<Param>, s: nat, seen: set<nat>, j: nat, k: nat, id: nat)
    requires s < |params|
    ensures ReadFrom(params, s, seen, j, k, id) <==>
      (j == s && SymbolAt(params[s], k, id) && id !in seen) ||
      ReadFrom(params, s + 1, seen + DimIds(Unseen(params[s], seen)), j, k, id)
  {
    UnseenMentions(params[s], seen, id);
    if j == s && SymbolAt(params[s], k, id) { assert Mentions(params[s], id); }
  }

  lemma NothingUnseen(p: Param, seen: set<nat>, k: nat, id: nat)
    requires Unseen(p, seen) == []
    ensures !(SymbolAt(p, k, id) && id !in seen)
  {
    UnseenMentions(p, seen, id);
    assert DimIds([]) == {};
  }

  lemma SomethingUnseen(p: Param, seen: set<nat>) returns (k: nat, id: nat)
    requires Unseen(p, seen) != []
    ensures SymbolAt(p, k, id) && id !in seen
  {
    id := Unseen(p, seen)[0].1.id;
    assert id in DimIds(Unseen(p, seen));
    UnseenMentions(p, seen, id);
    k :| SymbolAt(p, k, id);
  }

  lemma {:induction false} SetupReads(h: Host, params: seq<Param>, args: seq<Val>, s: nat, seen: set<nat>, E: Env)
    requires s <= |params| == |args| && Bound(params, args, E)
    ensures var r := EvalSetup(h, params[s..], seen, E);
      (r.Some? <==> AllFit(params, args, s, seen)) &&
      (r.Some? ==> AllHold(params, args, s, seen, r.value) && RestStays(params, s, seen, E, r.value))
    decreases |params| - s
  {
    hide EvalSetup, CallBuiltin, Unseen, Bound, AllFit, AllHold, RestStays;
    if s == |params| {
      EvalSetupNone(h, seen, E);
      NothingRead(params, args, seen, E);
    } else {
      var p, rest := params[s], params[s..];
      assert rest[0] == p && rest[1..] == params[s + 1..];
      BoundAt(params, args, E, s);
      EvalSetupCons(h, rest, seen, E);
      var seen' := seen + DimIds(Unseen(p, seen));
      if Unseen(p, seen) == [] {
        assert seen' == seen;
        SetupReads(h, params, args, s + 1, seen, E);
        SkipOne(params, args, s, seen, E, EvalSetup(h, rest, seen, E));
      } else if !args[s].VTensor? {
        assert CallBuiltin(h, ShapeOf, [args[s]]) == None by { NotATensor(h, args[s]); }
        NoTensor(params, args, s, seen);
      } else {
        assert CallBuiltin(h, ShapeOf, [args[s]]) == Some(VShape(args[s].shape)) by { ATensor(h, args[s]); }
        var shape := args[s].shape;
        assert p.info.KnownShape? && Unseen(p, seen) == UnseenDims(p.info.shape, seen, 0) by { KnownUnseen(p, seen); }
        DimsRead(h, p, shape, seen, 0, E);
        var r := EvalDims(h, Unseen(p, seen), VShape(shape), E);
        if r.Some? {
          BoundStays(params, args, s, seen, E, r.value);
          SetupReads(h, params, args, s + 1, seen', r.value);
        }
        ReadOne(params, args, s, seen, E, r, if r.Some? then EvalSetup(h, params[s + 1..], seen', r.value) else None);
      }
    }
  }

  lemma NothingRead(params: seq<Param>, args: seq<Val>, seen: set<nat>, E: Env)
    requires |args| == |params|
    ensures AllFit(params, args, |params|, seen) && AllHold(params, args, |params|, seen, E)
    ensures RestStays(params, |params|, seen, E, E)
  {
  }

  lemma BoundAt(params: seq<Param>, args: seq<Val>, E: Env, s: nat)
    requires s < |params| && Bound(params, args, E)
    ensures |args| == |params| && params[s].id in E && E[params[s].id] == args[s]
  {
  }

  lemma NotATensor(h: Host, v: Val)
    requires !v.VTensor?
    ensures CallBuiltin(h, ShapeOf, [v]) == None
  {
  }

  lemma ATensor(h: Host, v: Val)
    requires v.VTensor?
    ensures CallBuiltin(h, ShapeOf, [v]) == Some(VShape(v.shape))
  {
  }

  lemma KnownUnseen(p: Param, seen: set<nat>)
    requires Unseen(p, seen) != []
    ensures p.info.KnownShape? && Unseen(p, seen) == UnseenDims(p.info.shape, seen, 0)
  {
  }

  lemma SkipOne(params: seq<Param>, args: seq<Val>, s: nat, seen: set<nat>, E: Env, r: Option<Env>)
    requires s < |params| == |args| && Unseen(params[s], seen) == []
    requires r.Some? <==> AllFit(params, args, s + 1, seen)
    requires r.Some? ==> AllHold(params, args, s + 1, seen, r.value) && RestStays(params, s + 1, seen, E, r.value)
    ensures r.Some? <==> AllFit(params, args, s, seen)
    ensures r.Some? ==> AllHold(params, args, s, seen, r.value) && RestStays(params, s, seen, E, r.value)
  {
    hide ReadFrom, Unseen, SymbolAt, Mentions, LastIn, Fits, HoldsDim;
    assert seen + DimIds(Unseen(params[s], seen)) == seen;
    var n := s + 1;
    forall j: nat, k: nat, id ensures ReadFrom(params, s, seen, j, k, id) <==> ReadFrom(params, n, seen, j, k, id) {
      ReadNext(params, s, seen, j, k, id);
      NothingUnseen(params[s], seen, k, id);
    }
    ReadIn(params, s, seen);
    ReadIn(params, n, seen);
    assert AllFit(params, args, s, seen) <==> AllFit(params, args, n, seen);
    if r.Some? { RestMore(params, s, seen, seen, E, E, r.value); }
  }

  lemma ReadIn(params: seq<Param>, s: nat, seen: set<nat>)
    ensures forall j: nat, k: nat, id :: ReadFrom(params, s, seen, j, k, id) ==>
      j < |params| && params[j].info.KnownShape? && k < |params[j].info.shape| && params[j].info.shape[k].PrimVar?
  {
    hide Mentions;
  }

  /** What stays from here on stayed before. */
  lemma RestMore(params: seq<Param>, s: nat, seen: set<nat>, seen': set<nat>, E: Env, E1: Env, F: Env)
    requires s < |params| && seen <= seen' && RestStays(params, s + 1, seen', E1, F)
    requires forall id :: id in E && (id in seen || !Mentions(params[s], id)) ==> id in E1 && E1[id] == E[id]
    ensures RestStays(params, s, seen, E, F)
  {
    hide Mentions;
  }

  lemma NoTensor(params: seq<Param>, args: seq<Val>, s: nat, seen: set<nat>)
    requires s < |params| == |args| && Unseen(params[s], seen) != [] && !args[s].VTensor?
    ensures !AllFit(params, args, s, seen)
  {
    hide Unseen;
    var k, id := SomethingUnseen(params[s], seen);
    assert ReadFrom(params, s, seen, s, k, id);
  }

  lemma BoundStays(params: seq<Param>, args: seq<Val>, s: nat, seen: set<nat>, E: Env, F: Env)
    requires s < |params| && Bound(params, args, E) && OthersStay(params[s], seen, 0, E, F)
    ensures Bound(params, args, F)
  {
    forall j: nat | j < |params| ensures params[j].id in F && F[params[j].id] == args[j] {
      assert !Mentions(params[s], params[j].id);
      assert Other(params[s], seen, 0, params[j].id);
    }
  }

  lemma ReadOne(params: seq<Param>, args: seq<Val>, s: nat, seen: set<nat>, E: Env, r: Option<Env>, r': Option<Env>)
    requires s < |params| == |args| && args[s].VTensor? && params[s].info.KnownShape?
    requires var p, shape := params[s], args[s].shape;
      (r.Some? <==> DimsFit(p, shape, seen, 0)) &&
      (r.Some? ==> DimsHold(p, shape, seen, 0, r.value) && OthersStay(p, seen, 0, E, r.value))
    requires var seen' := seen + DimIds(Unseen(params[s], seen));
      (r'.Some? <==> r.Some? && AllFit(params, args, s + 1, seen')) &&
      (r'.Some? ==> AllHold(params, args, s + 1, seen', r'.value) && RestStays(params, s + 1, seen', r.value, r'.value))
    ensures r'.Some? <==> AllFit(params, args, s, seen)
    ensures r'.Some? ==> AllHold(params, args, s, seen, r'.value) && RestStays(params, s, seen, E, r'.value)
  {
    hide ReadFrom, Unseen, Mentions, LastIn, DimFits, Other;
    var p, arg, seen' := params[s], args[s], seen + DimIds(Unseen(params[s], seen));
    var n := s + 1;
    forall j: nat, k: nat, id
      ensures ReadFrom(params, s, seen, j, k, id) <==>
        (j == s && SymbolAt(p, k, id) && id !in seen) || ReadFrom(params, n, seen', j, k, id)
    {
      ReadNext(params, s, seen, j, k, id);
    }
    ReadIn(params, s, seen);
    ReadIn(params, n, seen');
    if AllFit(params, args, s, seen) {
      forall k: nat, id | SymbolAt(p, k, id) && id !in seen ensures DimFits(p, arg.shape, k) {
        assert ReadFrom(params, s, seen, s, k, id);
        FitsDim(p, k, arg, id);
      }
    }
    if r'.Some? {
      forall j: nat, k: nat, id | ReadFrom(params, s, seen, j, k, id) ensures Fits(params[j], k, args[j]) {
        if j == s && SymbolAt(p, k, id) && id !in seen { FitsDim(p, k, arg, id); }
      }
      forall j: nat, k: nat, id | ReadFrom(params, s, seen, j, k, id) && LastIn(params[j], k, id)
        ensures HoldsDim(args[j], k, id, r'.value)
      {
        if j == s && SymbolAt(p, k, id) && id !in seen {
          UnseenMentions(p, seen, id);
          assert Mentions(p, id) by { SymbolMentions(p, k, id); }
          assert id in r.value && r.value[id] == VInt(arg.shape[k]);
          assert id in seen';
        }
      }
      forall id | id in E && (id in seen || !Mentions(p, id)) ensures id in r.value && r.value[id] == E[id] {
        OtherOne(p, seen, id);
      }
      RestMore(params, s, seen, seen', E, r.value, r'.value);
    }
  }

  lemma SymbolMentions(p: Param, k: nat, id: nat)
    requires SymbolAt(p, k, id)
    ensures Mentions(p, id)
  {
  }

  lemma OtherOne(p: Param, seen: set<nat>, id: nat)
    requires id in seen || !Mentions(p, id)
    ensures Other(p, seen, 0, id)
  {
  }

  lemma FitsDim(p: Param, k: nat, arg: Val, id: nat)
    requires SymbolAt(p, k, id) && arg.VTensor?
    ensures p.info.KnownShape? && k < |p.info.shape| && p.info.shape[k].PrimVar?
    ensures Fits(p, k, arg) <==> DimFits(p, arg.shape, k)
  {
  }

  // ---------------------------------------------------------------- the arguments of a call

  /** The place at which a symbolic dimension is read: the last one in the first parameter that mentions it. */
  ghost predicate ReadAt(params: seq<Param>, j: nat, k: nat, id: nat) {
    ReadFrom(params, 0, {}, j, k, id) && LastIn(params[j], k, id)
  }

  /** Every dimension of a first parameter that mentions its symbol is there and within its bound. */
  ghost predicate Accepted(params: seq<Param>, args: seq<Val>)
    requires |args| == |params|
  {
    AllFit(params, args, 0, {})
  }

  /** Entry code refuses its arguments exactly when one of these dimensions is missing or exceeds its bound; otherwise
      each symbolic dimension has the number at the place where it is read, and the parameters are the arguments. */
  lemma EntryIsExact(h: Host, params: seq<Param>, args: seq<Val>)
    requires |args| == |params| && Distinct(ParamIds(params))
    requires forall i: nat, j: nat :: i < |params| && j < |params| ==> !Mentions(params[i], params[j].id)
    ensures var entry := EvalSetup(h, params, {}, BindAll(map[], ParamIds(params), args));
      (entry.Some? <==> Accepted(params, args)) &&
      (entry.Some? ==>
         (forall j: nat, k: nat, id :: ReadAt(params, j, k, id) ==> HoldsDim(args[j], k, id, entry.value)) &&
         (forall j: nat :: j < |params| ==> params[j].id in entry.value && entry.value[params[j].id] == args[j]))
  {
    hide EvalSetup, Mentions, LastIn, HoldsDim, ReadFrom, AllFit;
    var ids := ParamIds(params);
    var E := BindAll(map[], ids, args);
    forall k | 0 <= k < |params| ensures params[k].id in E && E[params[k].id] == args[k] {
      BindAllAt(map[], ids, args, k);
    }
    assert params[0..] == params;
    SetupReads(h, params, args, 0, {}, E);
  }

  /** Refused arguments end the call before anything else happens. */
  lemma RefusedArguments(M: Machine, fn: Function, args: seq<Val>, w: World, fuel: nat)
    requires |args| == |fn.params| && Distinct(ParamIds(fn.params)) && !Accepted(fn.params, args)
    requires forall i: nat, j: nat :: i < |fn.params| && j < |fn.params| ==> !Mentions(fn.params[i], fn.params[j].id)
    ensures EvalFunction(M, fn, args, w, fuel) == Raised(w)
  {
    hide EvalSetup, Accepted, Mentions, EvalOps, ReadAt, HoldsDim;
    EntryIsExact(M.host, fn.params, args);
  }

  /** The symbolic dimensions as the arguments give them. */
  ghost predicate DimsGiven(params: seq<Param>, args: seq<Val>, dims: Env)
    requires |args| == |params|
  {
    forall id <- dims :: exists j: nat, k: nat :: ReadAt(params, j, k, id) && HoldsDim(args[j], k, id, dims)
  }

  lemma DimsAreRead(h: Host, params: seq<Param>, args: seq<Val>, dims: Env)
    requires |args| == |params| && Distinct(ParamIds(params)) && Accepted(params, args) && DimsGiven(params, args, dims)
    requires forall i: nat, j: nat :: i < |params| && j < |params| ==> !Mentions(params[i], params[j].id)
    ensures var entry := EvalSetup(h, params, {}, BindAll(map[], ParamIds(params), args));
      entry.Some? && forall id <- dims :: id in entry.value && entry.value[id] == dims[id]
  {
    hide EvalSetup, Mentions, Accepted, LastIn, HoldsDim;
    EntryIsExact(h, params, args);
    var F := EvalSetup(h, params, {}, BindAll(map[], ParamIds(params), args)).value;
    forall id | id in dims ensures id in F && F[id] == dims[id] {
      var j: nat, k: nat :| ReadAt(params, j, k, id) && HoldsDim(args[j], k, id, dims);
      SameDim(args[j], k, id, dims, F);
    }
  }

  lemma SameDim(arg: Val, k: nat, id: nat, E: Env, F: Env)
    requires HoldsDim(arg, k, id, E) && HoldsDim(arg, k, id, F)
    ensures id in E && id in F && E[id] == F[id]
  {
  }
}

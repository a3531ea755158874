/** What an index expression of a traced model denotes (python/devproc2/nn/builder.py): a chain of
    slices and selections against the part of the tensor that was asked for. */
module Indexing {
  import opened Bytecode
  import opened Runtime
  import opened PrimExprs
  import opened IRValues
  import opened TensorIR
  import opened TensorSemantics
  import opened RowMajor
  import opened Views

  // ---------------------------------------------------------------- leaving out axes

  /** The entries of the axes that are kept. */
  function Kept(xs: seq<int>, drop: seq<bool>): (r: seq<int>)
    requires |xs| == |drop|
    ensures |r| <= |xs|
  {
    if xs == [] then []
    else
      var n := |xs| - 1;
      Kept(xs[..n], drop[..n]) + if drop[n] then [] else [xs[n]]
  }

  /** An index with position 0 on the axes that are not kept. */
  function Expand(j: Index, drop: seq<bool>): (r: Index)
    requires |j| == Kepts(drop)
    ensures |r| == |drop|
    decreases |drop|
  {
    if drop == [] then []
    else if drop[0] then [0] + Expand(j, drop[1..])
    else [j[0]] + Expand(j[1..], drop[1..])
  }

  /** How many axes are kept. */
  function Kepts(drop: seq<bool>): nat {
    if drop == [] then 0 else (if drop[0] then 0 else 1) + Kepts(drop[1..])
  }

  lemma {:induction false} KeptCons(xs: seq<int>, drop: seq<bool>)
    requires |xs| == |drop| > 0
    ensures Kept(xs, drop) == (if drop[0] then [] else [xs[0]]) + Kept(xs[1..], drop[1..])
    decreases |xs|
  {
    var n := |xs| - 1;
    if n == 0 {
      assert xs[..0] == [] && xs[1..] == [];
    } else {
      KeptCons(xs[..n], drop[..n]);
      assert xs[..n][1..] == xs[1..][..n - 1] && drop[..n][1..] == drop[1..][..n - 1];
      assert xs[1..][n - 1] == xs[n] && drop[1..][n - 1] == drop[n];
    }
  }

  lemma {:induction false} KeptLength(xs: seq<int>, drop: seq<bool>)
    requires |xs| == |drop|
    ensures |Kept(xs, drop)| == Kepts(drop)
    decreases |xs|
  {
    if xs != [] {
      KeptCons(xs, drop);
      KeptLength(xs[1..], drop[1..]);
    }
  }

  /** Every axis that is left out has one position. */
  predicate DropsOnes(z: seq<int>, drop: seq<bool>) {
    |z| == |drop| && forall k :: 0 <= k < |z| && drop[k] ==> z[k] == 1
  }

  /** Leaving out axes with one position moves nothing. */
  lemma {:induction false} FlatKept(z: seq<int>, drop: seq<bool>, j: Index)
    requires DropsOnes(z, drop) && |j| == Kepts(drop)
    ensures |Kept(z, drop)| == |j| && Product(Kept(z, drop)) == Product(z)
    ensures Flat(Kept(z, drop), j) == Flat(z, Expand(j, drop))
    decreases |z|
  {
    KeptLength(z, drop);
    if z != [] {
      KeptCons(z, drop);
      if drop[0] {
        FlatKept(z[1..], drop[1..], j);
        assert [] + Kept(z[1..], drop[1..]) == Kept(z[1..], drop[1..]);
        assert Expand(j, drop)[1..] == Expand(j, drop[1..]);
      } else {
        FlatKept(z[1..], drop[1..], j[1..]);
        assert Kept(z, drop)[1..] == Kept(z[1..], drop[1..]);
        assert Expand(j, drop)[1..] == Expand(j[1..], drop[1..]);
      }
    }
  }

  /** Positions in the kept axes are the positions in all of them. */
  lemma {:induction false} KeptBox(z: seq<int>, drop: seq<bool>, j: Index)
    requires DropsOnes(z, drop) && |j| == Kepts(drop)
    ensures InBox(j, Kept(z, drop)) <==> InBox(Expand(j, drop), z)
    decreases |z|
  {
    KeptLength(z, drop);
    if z != [] {
      KeptCons(z, drop);
      var e := Expand(j, drop);
      if drop[0] {
        KeptBox(z[1..], drop[1..], j);
        BoxCons(e, z);
        assert e[1..] == Expand(j, drop[1..]);
      } else {
        KeptBox(z[1..], drop[1..], j[1..]);
        BoxCons(e, z);
        BoxCons(j, Kept(z, drop));
        assert Kept(z, drop)[1..] == Kept(z[1..], drop[1..]);
        assert e[1..] == Expand(j[1..], drop[1..]);
      }
    }
  }

  lemma BoxCons(idx: Index, sizes: seq<int>)
    requires |idx| == |sizes| > 0
    ensures InBox(idx, sizes) <==> 0 <= idx[0] < sizes[0] && InBox(idx[1..], sizes[1..])
  {
    if InBox(idx[1..], sizes[1..]) && 0 <= idx[0] < sizes[0] {
      forall k | 0 <= k < |idx| ensures 0 <= idx[k] < sizes[k] {
        if k > 0 { assert idx[k] == idx[1..][k - 1] && sizes[k] == sizes[1..][k - 1]; }
      }
    }
  }

  /** Every position of the part is one of the kept axes. */
  lemma {:induction false} Collapse(z: seq<int>, drop: seq<bool>, e: Index)
    requires DropsOnes(z, drop) && InBox(e, z)
    ensures |Kept(e, drop)| == Kepts(drop) && Expand(Kept(e, drop), drop) == e
    decreases |z|
  {
    KeptLength(e, drop);
    if z != [] {
      BoxCons(e, z);
      Collapse(z[1..], drop[1..], e[1..]);
      KeptCons(e, drop);
      ExpandCons(e, drop);
      assert e == [e[0]] + e[1..];
    }
  }

  lemma {:induction false} ExpandCons(e: Index, drop: seq<bool>)
    requires |e| == |drop| > 0 && |Kept(e, drop)| == Kepts(drop) && |Kept(e[1..], drop[1..])| == Kepts(drop[1..])
    ensures Expand(Kept(e, drop), drop) == [if drop[0] then 0 else e[0]] + Expand(Kept(e[1..], drop[1..]), drop[1..])
  {
    KeptCons(e, drop);
    var rest := Kept(e[1..], drop[1..]);
    if drop[0] {
      assert [] + rest == rest;
    } else {
      assert ([e[0]] + rest)[1..] == rest;
    }
  }

  // ---------------------------------------------------------------- shapes at run time

  lemma {:induction false} OnePrim(h: Host, e: PrimExpr, E: Env)
    requires EvalPrim(h, e, E).Some?
    ensures EvalPrims(h, [e], E) == Some([EvalPrim(h, e, E).value])
  {
    hide EvalPrim;
    var v := EvalPrim(h, e, E).value;
    assert [e][1..] == [] && [v] + [] == [v];
  }

  lemma {:induction false} OneInt(h: Host, v: Val)
    ensures AsInts(h, [v]) == if AsInt(h, v).Some? then Some([AsInt(h, v).value]) else None
  {
    hide AsInt;
    assert [v][1..] == [];
    if AsInt(h, v).Some? { assert [AsInt(h, v).value] + [] == [AsInt(h, v).value]; }
  }

  lemma EvalShapeFirst(h: Host, es: seq<PrimExpr>, E: Env)
    requires es != []
    ensures EvalShape(h, es, E) ==
      match (EvalShape(h, [es[0]], E), EvalShape(h, es[1..], E))
      case (Some(x), Some(rest)) => Some(x + rest)
      case _ => None
  {
    hide EvalPrim;
    var first, rest := EvalPrim(h, es[0], E), EvalPrims(h, es[1..], E);
    assert [es[0]][1..] == [];
    if first.Some? && rest.Some? {
      OnePrim(h, es[0], E);
      OneInt(h, first.value);
      assert EvalPrims(h, es, E) == Some([first.value] + rest.value);
      assert ([first.value] + rest.value)[1..] == rest.value && [first.value][1..] == [];
    }
  }

  lemma {:induction false} EvalShapeAppend(h: Host, a: seq<PrimExpr>, b: seq<PrimExpr>, E: Env)
    ensures EvalShape(h, a + b, E) ==
      match (EvalShape(h, a, E), EvalShape(h, b, E))
      case (Some(x), Some(y)) => Some(x + y)
      case _ => None
    decreases |a|
  {
    hide EvalPrims, EvalShape;
    if a == [] {
      assert a + b == b;
      NoDims(h, E);
      if EvalShape(h, b, E).Some? { assert [] + EvalShape(h, b, E).value == EvalShape(h, b, E).value; }
    } else {
      assert (a + b)[1..] == a[1..] + b && (a + b)[0] == a[0];
      EvalShapeAppend(h, a[1..], b, E);
      EvalShapeFirst(h, a, E);
      EvalShapeFirst(h, a + b, E);
      var x, p, q := EvalShape(h, [a[0]], E), EvalShape(h, a[1..], E), EvalShape(h, b, E);
      if x.Some? && p.Some? && q.Some? { assert x.value + (p.value + q.value) == x.value + p.value + q.value; }
    }
  }

  lemma NoDims(h: Host, E: Env)
    ensures EvalShape(h, [], E) == Some([])
  {
  }

  lemma EvalShapeLength(h: Host, es: seq<PrimExpr>, E: Env)
    ensures EvalShape(h, es, E).Some? ==> |EvalShape(h, es, E).value| == |es|
  {
  }

  /** Dropping or replacing one dimension does so at run time. */
  lemma EvalShapeAround(h: Host, es: seq<PrimExpr>, axis: nat, d: PrimExpr, n: int, E: Env, ns: seq<int>)
    requires EvalShape(h, es, E) == Some(ns) && axis < |es| && EvalShape(h, [d], E) == Some([n])
    ensures |ns| == |es| && EvalShape(h, Dropped(es, axis), E) == Some(Without(ns, axis))
    ensures EvalShape(h, es[axis := d], E) == Some(ns[axis := n])
  {
    hide EvalShape;
    EvalShapeLength(h, es, E);
    var a, m, b := es[..axis], [es[axis]], es[axis + 1..];
    assert es == a + (m + b) && es[axis := d] == a + ([d] + b);
    EvalShapeAppend(h, a, m + b, E);
    EvalShapeAppend(h, m, b, E);
    EvalShapeAppend(h, a, b, E);
    EvalShapeAppend(h, a, [d] + b, E);
    EvalShapeAppend(h, [d], b, E);
    EvalShapeLength(h, a, E);
    EvalShapeLength(h, m, E);
    EvalShapeLength(h, b, E);
    var x, y, z := EvalShape(h, a, E).value, EvalShape(h, m, E).value, EvalShape(h, b, E).value;
    assert ns == x + (y + z) && |y| == 1;
    assert Without(ns, axis) == x + z && ns[axis := n] == x + ([n] + z);
  }

  lemma EvalConstant(h: Host, n: int, E: Env)
    ensures EvalShape(h, [IntImm(n)], E) == Some([n])
  {
    OneInt(h, VInt(n));
    OnePrim(h, IntImm(n), E);
  }

  // ---------------------------------------------------------------- one selector

  /** What the builder knows about the tensor that `value` stands for. */
  ghost predicate Denotes(C: Context, st: TState, value: Value, info: Spec, t: TensorRef) {
    EvalV(value, st.env) == Some(TTensor(t)) && Describes(info, t) && FitsStorage(t) &&
      EvalShape(C.host, info.shape, C.dims) == Some(t.shape)
  }

  /** The tensor from one position of an axis on, or a stretch of it. */
  function Moved(t: TensorRef, axis: nat, from: int, shape: seq<int>): TensorRef
    requires axis < |t.shape|
  {
    t.(offset := t.offset + Views.ItemSize(t.dtype) * (from * RowMajor.Stride(t.shape, axis)), shape := shape)
  }

  /** A slice of one axis. */
  lemma {:induction false} PartRuns(C: Context, st: TState, c: Cursor, sel: Selector, next: nat, u: TensorRef,
                                    size: int)
    requires sel.Part? && Follow(c, sel, next).Some? && Denotes(C, st, c.value, c.info, u)
    requires |u.shape| == |c.info.shape|
    requires (forall k :: 0 <= k < |u.shape| ==> 1 <= u.shape[k]) && c.axis < |u.shape|
    requires 0 <= Or(sel.start, 0) && 1 <= size == Or(sel.stop, u.shape[c.axis]) - Or(sel.start, 0)
    requires Or(sel.start, 0) + size <= u.shape[c.axis]
    ensures var r := Follow(c, sel, next).value; var v := Moved(u, c.axis, Or(sel.start, 0), u.shape[c.axis := size]);
      (|r.ops| == |c.ops| + 1 && Exec(C, r.ops[|c.ops|], st) == Some(st.(env := st.env[next := TTensor(v)])) &&
       Denotes(C, st.(env := st.env[next := TTensor(v)]), r.value, r.info, v))
  {
    hide EvalShape, SliceOp, Exec, Sum, Flat, PayloadBytes, StaticStart, Views.ItemSize;
    var shape, axis, from := c.info.shape, c.axis, Or(sel.start, 0);
    var s, z := Origin(|u.shape|)[axis := from], u.shape[axis := size];
    assert shape[axis] in shape;
    var sizes, starts := SectionSizes(shape, axis, size), SectionStarts(|shape|, axis, from);
    assert sizes == shape[axis := IntImm(size)];
    EvalConstant(C.host, size, C.dims);
    EvalShapeAround(C.host, shape, axis, IntImm(size), size, C.dims, u.shape);
    forall j | 0 <= j < |s| ensures StartIs(starts[j], st.env, s[j]) { NumberIs(s[j], st.env); }
    SliceRuns(C, st, next, c.value, c.info, starts, sizes, u, s, z);
    FlatSingle(u.shape, axis, from);
  }

  /** A selection along one axis. */
  lemma {:induction false} AtRuns(C: Context, st: TState, c: Cursor, sel: Selector, next: nat, u: TensorRef, i: int)
    requires sel.At? && Follow(c, sel, next).Some? && Denotes(C, st, c.value, c.info, u) && |u.shape| == |c.info.shape|
    requires (forall k :: 0 <= k < |u.shape| ==> 1 <= u.shape[k]) && c.axis < |u.shape|
    requires EvalV(sel.index, st.env) == Some(TScalar(Int(i))) && 0 <= i < u.shape[c.axis]
    ensures var r := Follow(c, sel, next).value; var v := Moved(u, c.axis, i, Without(u.shape, c.axis));
      (|r.ops| == |c.ops| + 1 && Exec(C, r.ops[|c.ops|], st) == Some(st.(env := st.env[next := TTensor(v)])) &&
       Denotes(C, st.(env := st.env[next := TTensor(v)]), r.value, r.info, v))
  {
    hide EvalShape, SelectOp, Exec, Flat, PayloadBytes, Views.ItemSize;
    EvalConstant(C.host, 1, C.dims);
    EvalShapeAround(C.host, c.info.shape, c.axis, IntImm(1), 1, C.dims, u.shape);
    SelectRuns(C, st, next, c.value, c.info, c.axis, sel.index, u, i);
  }

  // ---------------------------------------------------------------- all selectors

  function Drops(selectors: seq<Selector>, rank: nat): (drop: seq<bool>)
    ensures |drop| == rank && forall k :: 0 <= k < rank ==> drop[k] == (k < |selectors| && selectors[k].At?)
  {
    seq(rank, k requires 0 <= k < rank => k < |selectors| && selectors[k].At?)
  }

  /** The part asked for: where it starts and how much of each axis it takes. */
  ghost predicate AsksFor(selectors: seq<Selector>, E: TEnv, shape: seq<int>, s: Index, z: seq<int>) {
    |s| == |shape| == |z| && |selectors| <= |shape| && forall k :: 0 <= k < |shape| ==>
      AsksForAt(selectors, E, shape, s, z, k)
  }

  predicate AsksForAt(selectors: seq<Selector>, E: TEnv, shape: seq<int>, s: Index, z: seq<int>, k: nat)
    requires |s| == |shape| == |z| && k < |shape|
  {
    if k >= |selectors| then s[k] == 0 && z[k] == shape[k]
    else
      match selectors[k]
      case Part(start, stop, _) => s[k] == Or(start, 0) && z[k] == Or(stop, shape[k]) - s[k]
      case At(index) => EvalV(index, E) == Some(TScalar(Int(s[k]))) && z[k] == 1
      case _ => false
  }

  /** Indices are no results of the chain itself. */
  predicate OldIndices(selectors: seq<Selector>, next: nat) {
    forall sel <- selectors :: sel.At? && !sel.index.Imm? ==> sel.index.id < next
  }

  /** The shape after n selectors. */
  function ShapeAfter(selectors: seq<Selector>, shape: seq<int>, z: seq<int>, n: nat): seq<int>
    requires |z| == |shape| && n <= |shape|
  {
    Kept(z[..n], Drops(selectors, |shape|)[..n]) + shape[n..]
  }

  function AxisAfter(selectors: seq<Selector>, z: seq<int>, n: nat): nat
    requires n <= |z|
  {
    |Kept(z[..n], Drops(selectors, |z|)[..n])|
  }

  /** The tensor after n selectors. */
  function TensorAfter(selectors: seq<Selector>, t: TensorRef, s: Index, z: seq<int>, n: nat): TensorRef
    requires |s| == |z| == |t.shape| && n <= |z|
  {
    t.(offset := t.offset + Views.ItemSize(t.dtype) * FlatTo(t.shape, s, n),
       shape := ShapeAfter(selectors, t.shape, z, n))
  }

  lemma ShapeNext(selectors: seq<Selector>, shape: seq<int>, z: seq<int>, n: nat)
    requires |z| == |shape| && n < |selectors| <= |shape|
    ensures var u, axis := ShapeAfter(selectors, shape, z, n), AxisAfter(selectors, z, n);
      axis < |u| && u[axis] == shape[n] && u[axis + 1..] == shape[n + 1..] &&
      ShapeAfter(selectors, shape, z, n + 1) == (if selectors[n].At? then Without(u, axis) else u[axis := z[n]]) &&
      AxisAfter(selectors, z, n + 1) == (if selectors[n].At? then axis else axis + 1)
  {
    var drop := Drops(selectors, |shape|);
    assert z[..n + 1][..n] == z[..n] && drop[..n + 1][..n] == drop[..n];
    var head := Kept(z[..n], drop[..n]);
    assert Kept(z[..n + 1], drop[..n + 1]) == head + if drop[n] then [] else [z[n]];
    assert head + [] == head;
    assert shape[n..] == [shape[n]] + shape[n + 1..];
  }

  lemma {:induction false} KeptBounds(z: seq<int>, drop: seq<bool>)
    requires |z| == |drop| && forall k :: 0 <= k < |z| ==> 1 <= z[k]
    ensures forall k :: 0 <= k < |Kept(z, drop)| ==> 1 <= Kept(z, drop)[k]
    decreases |z|
  {
    if z != [] { KeptBounds(z[..|z| - 1], drop[..|z| - 1]); }
  }

  lemma DimsStayPositive(selectors: seq<Selector>, shape: seq<int>, s: Index, z: seq<int>, n: nat)
    requires InRange(shape, s, z) && n <= |shape|
    ensures var u := ShapeAfter(selectors, shape, z, n); forall k :: 0 <= k < |u| ==> 1 <= u[k]
  {
    var head := Kept(z[..n], Drops(selectors, |shape|)[..n]);
    KeptBounds(z[..n], Drops(selectors, |shape|)[..n]);
    var u := head + shape[n..];
    forall k | 0 <= k < |u| ensures 1 <= u[k] {
      if k >= |head| {
        var i := n + (k - |head|);
        assert u[k] == shape[i] && 1 <= z[i] && s[i] + z[i] <= shape[i];
      }
    }
  }

  /** One more selector moves the start by its position times the stride of its axis. */
  lemma TensorNext(selectors: seq<Selector>, t: TensorRef, s: Index, z: seq<int>, n: nat)
    requires |s| == |z| == |t.shape| && n < |selectors| <= |z|
    ensures var u, axis := TensorAfter(selectors, t, s, z, n), AxisAfter(selectors, z, n);
      axis < |u.shape| && u.shape[axis] == t.shape[n] &&
      TensorAfter(selectors, t, s, z, n + 1) == Moved(u, axis, s[n], ShapeAfter(selectors, t.shape, z, n + 1))
  {
    hide Views.ItemSize, ShapeAfter, AxisAfter, Flat, FlatTo;
    ShapeNext(selectors, t.shape, z, n);
    FlatToNext(t.shape, s, n);
    Combine(Views.ItemSize(t.dtype), FlatTo(t.shape, s, n), s[n] * RowMajor.Stride(t.shape, n), t.offset);
  }

  lemma FlatToNext(shape: seq<int>, idx: Index, n: nat)
    requires |idx| == |shape| && n < |shape|
    ensures FlatTo(shape, idx, n + 1) == FlatTo(shape, idx, n) + idx[n] * RowMajor.Stride(shape, n)
  {
  }

  /** The state after the ops of n selectors: the tensor they lead to, and nothing else but new names. */
  ghost predicate Reached(C: Context, st: TState, st': TState, c: Cursor, u: TensorRef, axis: nat, next: nat) {
    st' == st.(env := st'.env) && Denotes(C, st', c.value, c.info, u) && c.axis == axis &&
    forall id :: id in st.env && id < next ==> id in st'.env && st'.env[id] == st.env[id]
  }

  lemma DenotesRank(C: Context, st: TState, value: Value, info: Spec, t: TensorRef)
    requires Denotes(C, st, value, info, t)
    ensures |info.shape| == |t.shape|
  {
  }

  /** Running one more selector. */
  lemma {:induction false} SelectorRuns(C: Context, st: TState, mid: TState, c: Cursor, selectors: seq<Selector>,
                                        n: nat, next: nat, t: TensorRef, s: Index, z: seq<int>)
    requires |s| == |z| == |t.shape| && n < |selectors| && AsksFor(selectors, st.env, t.shape, s, z)
    requires InRange(t.shape, s, z)
    requires Follow(c, selectors[n], next + n).Some? && OldIndices(selectors, next)
    requires Reached(C, st, mid, c, TensorAfter(selectors, t, s, z, n), AxisAfter(selectors, z, n), next)
    ensures var r := Follow(c, selectors[n], next + n).value;
      (|r.ops| == |c.ops| + 1 && Exec(C, r.ops[|c.ops|], mid).Some? &&
       Reached(C, st, Exec(C, r.ops[|c.ops|], mid).value, r, TensorAfter(selectors, t, s, z, n + 1),
               AxisAfter(selectors, z, n + 1), next))
  {
    hide Denotes, Moved, SliceOp, SelectOp, Exec, ShapeAfter, AxisAfter;
    var sel, u := selectors[n], TensorAfter(selectors, t, s, z, n);
    assert sel in selectors && AsksForAt(selectors, st.env, t.shape, s, z, n);
    TensorNext(selectors, t, s, z, n);
    ShapeNext(selectors, t.shape, z, n);
    DimsStayPositive(selectors, t.shape, s, z, n);
    DenotesRank(C, mid, c.value, c.info, u);
    if sel.At? {
      assert EvalV(sel.index, mid.env) == EvalV(sel.index, st.env);
      AtRuns(C, mid, c, sel, next + n, u, s[n]);
    } else {
      PartRuns(C, mid, c, sel, next + n, u, z[n]);
    }
  }

  /** Running what the first n selectors emit. */
  lemma {:induction false} SelectorsRun(C: Context, st: TState, base: Value, info: Spec, selectors: seq<Selector>,
                                        n: nat, next: nat, t: TensorRef, s: Index, z: seq<int>)
    requires n <= |selectors| && FollowTo(base, info, selectors, n, next).Some? && Denotes(C, st, base, info, t)
    requires AsksFor(selectors, st.env, t.shape, s, z) && InRange(t.shape, s, z) && OldIndices(selectors, next)
    ensures var c := FollowTo(base, info, selectors, n, next).value; var run := ExecOps(C, c.ops, st);
      run.Some? && Reached(C, st, run.value, c, TensorAfter(selectors, t, s, z, n), AxisAfter(selectors, z, n), next)
    decreases n
  {
    hide Denotes, Follow, InRange, OldIndices, Exec, Reached;
    if n == 0 {
      NothingRun(C, st, base, info, selectors, next, t, s, z);
    } else {
      var before, c := FollowTo(base, info, selectors, n - 1, next).value,
        FollowTo(base, info, selectors, n, next).value;
      SelectorsRun(C, st, base, info, selectors, n - 1, next, t, s, z);
      var mid := ExecOps(C, before.ops, st).value;
      SelectorRuns(C, st, mid, before, selectors, n - 1, next, t, s, z);
      FollowAdds(before, selectors[n - 1], next + (n - 1));
      var op := c.ops[|before.ops|];
      ExecAppend(C, before.ops, [op], st);
      RunOne(C, op, mid);
    }
  }

  lemma NothingRun(C: Context, st: TState, base: Value, info: Spec, selectors: seq<Selector>, next: nat, t: TensorRef,
                   s: Index, z: seq<int>)
    requires Denotes(C, st, base, info, t) && |s| == |z| == |t.shape|
    ensures Reached(C, st, st, Cursor([], base, info, 0), TensorAfter(selectors, t, s, z, 0),
                    AxisAfter(selectors, z, 0), next)
  {
    hide Denotes;
    assert [] + t.shape[0..] == t.shape;
    assert Views.ItemSize(t.dtype) * FlatTo(t.shape, s, 0) == 0;
    assert TensorAfter(selectors, t, s, z, 0) == t;
  }

  // ---------------------------------------------------------------- what it denotes

  /** The tensor of the part asked for. */
  function Indexed(selectors: seq<Selector>, t: TensorRef, s: Index, z: seq<int>): TensorRef
    requires |s| == |z| == |t.shape|
  {
    t.(offset := Address(t, s), shape := Kept(z, Drops(selectors, |t.shape|)))
  }

  lemma {:induction false} WholeRest(selectors: seq<Selector>, E: TEnv, t: TensorRef, s: Index, z: seq<int>)
    requires AsksFor(selectors, E, t.shape, s, z)
    ensures TensorAfter(selectors, t, s, z, |selectors|) == Indexed(selectors, t, s, z)
  {
    var n, drop := |selectors|, Drops(selectors, |t.shape|);
    RestKept(selectors, E, t.shape, s, z, |z|);
    assert z[..|z|] == z && drop[..|z|] == drop && t.shape[..|z|] == t.shape;
    FlatIsSum(t.shape, s, n);
    RestZeros(t.shape[n..], s[n..], selectors, E, t.shape, s, z);
  }

  lemma {:induction false} RestKept(selectors: seq<Selector>, E: TEnv, shape: seq<int>, s: Index, z: seq<int>, m: nat)
    requires AsksFor(selectors, E, shape, s, z) && |selectors| <= m <= |shape|
    ensures var n, drop := |selectors|, Drops(selectors, |shape|);
      Kept(z[..m], drop[..m]) == Kept(z[..n], drop[..n]) + shape[n..m]
    decreases m
  {
    var n, drop := |selectors|, Drops(selectors, |shape|);
    if m == n {
      assert shape[n..m] == [] && Kept(z[..n], drop[..n]) + [] == Kept(z[..n], drop[..n]);
    } else {
      RestKept(selectors, E, shape, s, z, m - 1);
      assert AsksForAt(selectors, E, shape, s, z, m - 1);
      assert z[..m][..m - 1] == z[..m - 1] && drop[..m][..m - 1] == drop[..m - 1];
      assert shape[n..m] == shape[n..m - 1] + [shape[m - 1]];
    }
  }

  lemma {:induction false} RestZeros(rest: seq<int>, at: Index, selectors: seq<Selector>, E: TEnv, shape: seq<int>,
                                     s: Index, z: seq<int>)
    requires AsksFor(selectors, E, shape, s, z) && rest == shape[|selectors|..] && at == s[|selectors|..]
    ensures |rest| == |at| && Flat(rest, at) == 0
  {
    forall k | 0 <= k < |at| ensures at[k] == 0 { assert AsksForAt(selectors, E, shape, s, z, |selectors| + k); }
    assert at == Origin(|rest|);
    FlatZeros(rest);
  }

  /** An index expression whose part is in range and not empty runs, and gives the tensor that starts
      where the part does and has the sizes of its kept axes. */
  lemma {:induction false} IndexRuns(C: Context, st: TState, base: Value, info: Spec, selectors: seq<Selector>,
                                     next: nat, t: TensorRef, s: Index, z: seq<int>)
    requires FollowTo(base, info, selectors, |selectors|, next).Some? && Denotes(C, st, base, info, t)
    requires AsksFor(selectors, st.env, t.shape, s, z) && InRange(t.shape, s, z) && OldIndices(selectors, next)
    ensures var c := FollowTo(base, info, selectors, |selectors|, next).value; var run := ExecOps(C, c.ops, st);
      run.Some? && run.value.mem == st.mem && run.value.hist == st.hist &&
      EvalV(c.value, run.value.env) == Some(TTensor(Indexed(selectors, t, s, z)))
  {
    hide AsksFor, InRange, OldIndices, FollowTo, ExecOps;
    SelectorsRun(C, st, base, info, selectors, |selectors|, next, t, s, z);
    WholeRest(selectors, st.env, t, s, z);
  }

  /** Its elements are those of the part exactly when, of every axis after one of which more than
      one position is taken, all positions are taken: then and only then is the part in one piece. */
  lemma IndexElements(selectors: seq<Selector>, E: TEnv, t: TensorRef, s: Index, z: seq<int>)
    requires AsksFor(selectors, E, t.shape, s, z) && InRange(t.shape, s, z) && Views.ItemSize(t.dtype) > 0
    ensures var v, drop := Indexed(selectors, t, s, z), Drops(selectors, |t.shape|);
      |v.shape| == Kepts(drop) &&
      ((forall j: Index :: InBox(j, v.shape) ==> Address(v, j) == Address(t, Plus(s, Expand(j, drop)))) <==>
       Whole(t.shape, z))
  {
    hide Flat, Views.ItemSize, Whole, Kept;
    var v, w, drop := Indexed(selectors, t, s, z), t.(offset := Address(t, s), shape := z), Drops(selectors, |t.shape|);
    forall k | 0 <= k < |z| && drop[k] ensures z[k] == 1 { assert AsksForAt(selectors, E, t.shape, s, z, k); }
    KeptLength(z, drop);
    SliceElements(t, s, z);
    forall j: Index | InBox(j, v.shape)
      ensures InBox(Expand(j, drop), z) && Address(v, j) == Address(w, Expand(j, drop)) {
      KeptBox(z, drop, j);
      FlatKept(z, drop, j);
    }
    if forall j: Index :: InBox(j, v.shape) ==> Address(v, j) == Address(t, Plus(s, Expand(j, drop))) {
      forall e: Index | InBox(e, z) ensures Address(w, e) == Address(t, Plus(s, e)) {
        Collapse(z, drop, e);
        var j := Kept(e, drop);
        KeptBox(z, drop, j);
        assert Address(v, j) == Address(w, Expand(j, drop));
      }
    }
  }

  /** One column of two rows is not in one piece: its second element is taken from the first row. */
  lemma ColumnIsNotAView(t: TensorRef)
    requires t.shape == [2, 3] && Views.ItemSize(t.dtype) > 0
    ensures var selectors, s, z := [Part(None, None, None), At(Imm(Int(1)))], [0, 1], [2, 1];
      AsksFor(selectors, map[], t.shape, s, z) && InRange(t.shape, s, z) && !Whole(t.shape, z) &&
        Indexed(selectors, t, s, z).shape == [2]
  {
    var selectors, s, z := [Part(None, None, None), At(Imm(Int(1)))], [0, 1], [2, 1];
    assert z[0] > 1 && z[1] != t.shape[1];
    forall k | 0 <= k < 2 ensures AsksForAt(selectors, map[], t.shape, s, z, k) {}
    var drop := Drops(selectors, 2);
    assert z[..1][..0] == [] && drop[..1][..0] == [];
    assert Kept(z[..1], drop[..1]) == [2];
  }
}

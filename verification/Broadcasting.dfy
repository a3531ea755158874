/** Symbolic broadcasting of shapes (python/devproc2/compiler/op/infer.py). */
module Broadcasting {
  import opened Bytecode
  import opened Runtime
  import opened PrimExprs
  import opened ShapeBounds

  /** A shape; or two constants that clash, which is an error; or not known at compile time. */
  datatype Broadcast = Shape(dims: seq<PrimExpr>) | Clash(a: int, b: int) | Unknown

  predicate IsOne(d: PrimExpr) {
    d == IntImm(1)
  }

  /** One dimension of the result. */
  datatype Dim = Dim(d: PrimExpr) | DimClash(a: int, b: int) | DimUnknown

  function Join(l: PrimExpr, r: PrimExpr): Dim {
    if IsOne(l) then Dim(r)
    else if IsOne(r) || SameExpr(l, r) then Dim(l)
    else if l.IntImm? && r.IntImm? then DimClash(l.value, r.value)
    else DimUnknown
  }

  /** The i-th dimension from the right; a missing one is 1. */
  function FromRight(s: seq<PrimExpr>, i: nat): PrimExpr {
    if i < |s| then s[|s| - 1 - i] else IntImm(1)
  }

  function Rank(l: seq<PrimExpr>, r: seq<PrimExpr>): nat {
    if |l| >= |r| then |l| else |r|
  }

  /** The last n dimensions of the result: the dimension nearest the right that fails decides how. */
  function BroadcastTo(l: seq<PrimExpr>, r: seq<PrimExpr>, n: nat): Broadcast {
    if n == 0 then Shape([])
    else
      match BroadcastTo(l, r, n - 1)
      case Shape(dims) =>
        (match Join(FromRight(l, n - 1), FromRight(r, n - 1))
         case Dim(d) => Shape([d] + dims)
         case DimClash(a, b) => Clash(a, b)
         case DimUnknown => Unknown)
      case failed => failed
  }

  function BroadcastShape(l: seq<PrimExpr>, r: seq<PrimExpr>): Broadcast {
    BroadcastTo(l, r, Rank(l, r))
  }

  lemma {:induction false} FailsOn(l: seq<PrimExpr>, r: seq<PrimExpr>, m: nat, n: nat)
    requires m <= n && !BroadcastTo(l, r, m).Shape?
    ensures BroadcastTo(l, r, n) == BroadcastTo(l, r, m)
    decreases n
  {
    if m < n { FailsOn(l, r, m, n - 1); }
  }

  function Reversed<T>(s: seq<T>): (r: seq<T>)
    ensures |r| == |s| && forall k :: 0 <= k < |s| ==> r[k] == s[|s| - 1 - k]
  {
    if s == [] then [] else Reversed(s[1..]) + [s[0]]
  }

  /** The loop over dimensions from the right; the list is reversed at the end. */
  method Infer(l: seq<PrimExpr>, r: seq<PrimExpr>) returns (b: Broadcast)
    ensures b == BroadcastShape(l, r)
  {
    var out: seq<PrimExpr> := [];
    for i := 0 to Rank(l, r)
      invariant BroadcastTo(l, r, i) == Shape(Reversed(out))
    {
      var ldim, rdim := FromRight(l, i), FromRight(r, i);
      if IsOne(ldim) {
        ReversedSnoc(out, rdim);
        out := out + [rdim];
      } else if IsOne(rdim) || SameExpr(ldim, rdim) {
        ReversedSnoc(out, ldim);
        out := out + [ldim];
      } else {
        FailsOn(l, r, i + 1, Rank(l, r));
        return if ldim.IntImm? && rdim.IntImm? then Clash(ldim.value, rdim.value) else Unknown;
      }
    }
    b := Shape(Reversed(out));
  }

  lemma {:induction false} ReversedSnoc<T>(s: seq<T>, x: T)
    ensures Reversed(s + [x]) == [x] + Reversed(s)
  {
  }

  // ---------------------------------------------------------------- what it means

  /** Concrete dimensions broadcast when they are equal or one of them is 1. */
  function JoinInts(a: int, b: int): Option<int> {
    if a == 1 then Some(b) else if b == 1 || a == b then Some(a) else None
  }

  function IntFromRight(s: seq<int>, i: nat): int {
    if i < |s| then s[|s| - 1 - i] else 1
  }

  /** `result` is what broadcasting concrete shapes gives. */
  predicate IsBroadcast(a: seq<int>, b: seq<int>, result: seq<int>) {
    |result| == (if |a| >= |b| then |a| else |b|) &&
    forall i :: 0 <= i < |result| ==> JoinInts(IntFromRight(a, i), IntFromRight(b, i)) == Some(IntFromRight(result, i))
  }

  ghost predicate Incompatible(a: seq<int>, b: seq<int>) {
    exists i: nat :: JoinInts(IntFromRight(a, i), IntFromRight(b, i)) == None
  }

  predicate Means(h: Host, d: PrimExpr, E: Env, n: int) {
    EvalPrim(h, d, E) == Some(VInt(n))
  }

  ghost predicate MeansAll(h: Host, s: seq<PrimExpr>, E: Env, ns: seq<int>) {
    |s| == |ns| && forall i: nat :: Means(h, FromRight(s, i), E, IntFromRight(ns, i))
  }

  /** One dimension: right unless the dimensions only look equal. */
  lemma JoinMeans(h: Host, l: PrimExpr, r: PrimExpr, E: Env, a: int, b: int)
    requires Means(h, l, E, a) && Means(h, r, E, b)
    ensures Join(l, r).Dim? ==> (LooksRight(l, r, a, b) <==>
      JoinInts(a, b).Some? && Means(h, Join(l, r).d, E, JoinInts(a, b).value))
    ensures Join(l, r).DimClash? ==> JoinInts(a, b) == None
  {
  }

  /** Two dimensions that are the same expression have the same value, or the second one is 1. */
  predicate LooksRight(l: PrimExpr, r: PrimExpr, a: int, b: int) {
    SameExpr(l, r) ==> a == b || b == 1
  }

  predicate LooksRightAt(l: seq<PrimExpr>, r: seq<PrimExpr>, a: seq<int>, b: seq<int>, i: nat) {
    LooksRight(FromRight(l, i), FromRight(r, i), IntFromRight(a, i), IntFromRight(b, i))
  }

  /** The inferred shape is what broadcasting the two actual shapes gives, and a clash found at
      compile time is one at run time. */
  ghost predicate Sound(h: Host, l: seq<PrimExpr>, r: seq<PrimExpr>, E: Env, a: seq<int>, b: seq<int>) {
    && (BroadcastShape(l, r).Shape? ==>
          exists result :: IsBroadcast(a, b, result) && MeansAll(h, BroadcastShape(l, r).dims, E, result))
    && (BroadcastShape(l, r).Clash? ==> Incompatible(a, b))
  }

  lemma OneMeans(h: Host, E: Env, i: nat, ns: seq<int>, s: seq<PrimExpr>)
    requires |s| == |ns| <= i
    ensures Means(h, FromRight(s, i), E, IntFromRight(ns, i))
  {
  }

  lemma {:induction false} ResultTo(h: Host, l: seq<PrimExpr>, r: seq<PrimExpr>, E: Env, a: seq<int>, b: seq<int>,
                                    n: nat)
    returns (result: seq<int>)
    requires MeansAll(h, l, E, a) && MeansAll(h, r, E, b) && BroadcastTo(l, r, n).Shape?
    requires forall i: nat :: LooksRightAt(l, r, a, b, i)
    ensures |result| == n && MeansAll(h, BroadcastTo(l, r, n).dims, E, result)
    ensures forall i :: 0 <= i < n ==> JoinInts(IntFromRight(a, i), IntFromRight(b, i)) == Some(IntFromRight(result, i))
    decreases n
  {
    hide Means, SameExpr, LooksRight, Join, JoinInts;
    if n == 0 {
      result := [];
      forall i: nat ensures Means(h, FromRight([], i), E, IntFromRight(result, i)) { OneMeans(h, E, i, result, []); }
    } else {
      var rest := ResultTo(h, l, r, E, a, b, n - 1);
      var ldim, rdim := FromRight(l, n - 1), FromRight(r, n - 1);
      assert LooksRightAt(l, r, a, b, n - 1);
      JoinMeans(h, ldim, rdim, E, IntFromRight(a, n - 1), IntFromRight(b, n - 1));
      var first := JoinInts(IntFromRight(a, n - 1), IntFromRight(b, n - 1)).value;
      result := [first] + rest;
      ConsMeans(h, Join(ldim, rdim).d, BroadcastTo(l, r, n - 1).dims, E, first, rest);
      forall i | 0 <= i < n ensures JoinInts(IntFromRight(a, i), IntFromRight(b, i)) == Some(IntFromRight(result, i)) {
        if i < n - 1 { assert IntFromRight(result, i) == IntFromRight(rest, i); }
      }
    }
  }

  lemma ConsMeans(h: Host, d: PrimExpr, dims: seq<PrimExpr>, E: Env, n: int, ns: seq<int>)
    requires Means(h, d, E, n) && MeansAll(h, dims, E, ns)
    ensures MeansAll(h, [d] + dims, E, [n] + ns)
  {
    hide Means;
    forall i: nat ensures Means(h, FromRight([d] + dims, i), E, IntFromRight([n] + ns, i)) {
      assert Means(h, FromRight(dims, i), E, IntFromRight(ns, i));
    }
  }

  lemma {:induction false} ClashTo(h: Host, l: seq<PrimExpr>, r: seq<PrimExpr>, E: Env, a: seq<int>, b: seq<int>,
                                   n: nat)
    requires MeansAll(h, l, E, a) && MeansAll(h, r, E, b) && BroadcastTo(l, r, n).Clash?
    ensures Incompatible(a, b)
    decreases n
  {
    hide Means, SameExpr, LooksRight;
    if BroadcastTo(l, r, n - 1).Clash? {
      ClashTo(h, l, r, E, a, b, n - 1);
    } else {
      JoinMeans(h, FromRight(l, n - 1), FromRight(r, n - 1), E, IntFromRight(a, n - 1), IntFromRight(b, n - 1));
    }
  }

  /** Inference is right about two actual shapes exactly when dimensions that are the same expression
      have the same value or the second one is 1; a clash is always one. */
  lemma SoundExactly(h: Host, l: seq<PrimExpr>, r: seq<PrimExpr>, E: Env, a: seq<int>, b: seq<int>)
    requires MeansAll(h, l, E, a) && MeansAll(h, r, E, b)
    ensures BroadcastShape(l, r).Shape? ==> (Sound(h, l, r, E, a, b) <==> forall i: nat :: LooksRightAt(l, r, a, b, i))
    ensures !BroadcastShape(l, r).Shape? ==> Sound(h, l, r, E, a, b)
  {
    hide Means, LooksRight, IsBroadcast;
    if BroadcastShape(l, r).Clash? { ClashTo(h, l, r, E, a, b, Rank(l, r)); }
    if BroadcastShape(l, r).Shape? {
      if forall i: nat :: LooksRightAt(l, r, a, b, i) {
        var result := ResultTo(h, l, r, E, a, b, Rank(l, r));
        ResultIs(a, b, result);
      }
      if Sound(h, l, r, E, a, b) {
        var result :| IsBroadcast(a, b, result) && MeansAll(h, BroadcastShape(l, r).dims, E, result);
        forall i: nat ensures LooksRightAt(l, r, a, b, i) { SoundAt(h, l, r, E, a, b, result, i); }
      }
    }
  }

  lemma ResultIs(a: seq<int>, b: seq<int>, result: seq<int>)
    requires |result| == (if |a| >= |b| then |a| else |b|)
    requires forall i :: 0 <= i < |result| ==>
      JoinInts(IntFromRight(a, i), IntFromRight(b, i)) == Some(IntFromRight(result, i))
    ensures IsBroadcast(a, b, result)
  {
  }

  lemma SoundAt(h: Host, l: seq<PrimExpr>, r: seq<PrimExpr>, E: Env, a: seq<int>, b: seq<int>, result: seq<int>, i: nat)
    requires MeansAll(h, l, E, a) && MeansAll(h, r, E, b) && BroadcastShape(l, r).Shape?
    requires IsBroadcast(a, b, result) && MeansAll(h, BroadcastShape(l, r).dims, E, result)
    ensures LooksRightAt(l, r, a, b, i)
  {
    hide Means, SameExpr, Join;
    ShapeIff(l, r);
    var x, y := IntFromRight(a, i), IntFromRight(b, i);
    assert Joins(l, r, i);
    assert Means(h, FromRight(BroadcastShape(l, r).dims, i), E, IntFromRight(result, i));
    JoinMeans(h, FromRight(l, i), FromRight(r, i), E, x, y);
    if i < |result| { assert JoinInts(x, y) == Some(IntFromRight(result, i)); }
  }

  /** Whatever the bindings: inference is right if the variables of the two shapes that look alike agree. */
  lemma BroadcastIsSound(h: Host, l: seq<PrimExpr>, r: seq<PrimExpr>, E: Env, a: seq<int>, b: seq<int>)
    requires MeansAll(h, l, E, a) && MeansAll(h, r, E, b) && NamesakesAgree(ShapeVars(l) + ShapeVars(r), E)
    ensures Sound(h, l, r, E, a, b)
  {
    hide Sound, NamesakesAgree, Means, SameExpr, BroadcastTo;
    forall i: nat ensures LooksRightAt(l, r, a, b, i) {
      var x, y := FromRight(l, i), FromRight(r, i);
      assert Means(h, x, E, IntFromRight(a, i)) && Means(h, y, E, IntFromRight(b, i));
      DimVars(l, i);
      DimVars(r, i);
      if SameExpr(x, y) {
        SameExprSameValue(h, x, y, ShapeVars(l) + ShapeVars(r), E);
        OneValue(h, x, y, E, IntFromRight(a, i), IntFromRight(b, i));
      }
    }
    SoundExactly(h, l, r, E, a, b);
  }

  lemma DimVars(s: seq<PrimExpr>, i: nat)
    ensures VarsOf(FromRight(s, i)) <= ShapeVars(s)
  {
  }

  lemma {:induction false} OneValue(h: Host, x: PrimExpr, y: PrimExpr, E: Env, a: int, b: int)
    requires Means(h, x, E, a) && Means(h, y, E, b) && EvalPrim(h, x, E) == EvalPrim(h, y, E)
    ensures a == b
  {
  }

  /** Every variable stands for an integer. */
  predicate AreInts(vars: set<PrimExpr>, E: Env) {
    forall x <- vars :: x.PrimVar? && x.id in E && E[x.id].VInt?
  }

  /** Inference is right about all shapes over the variables. */
  ghost predicate SoundOver(h: Host, vars: set<PrimExpr>, E: Env) {
    forall l, r, a, b :: MeansAll(h, l, E, a) && MeansAll(h, r, E, b) && ShapeVars(l) + ShapeVars(r) <= vars ==>
      Sound(h, l, r, E, a, b)
  }

  lemma SmallerAgree(small: set<PrimExpr>, vars: set<PrimExpr>, E: Env)
    requires small <= vars && NamesakesAgree(vars, E)
    ensures NamesakesAgree(small, E)
  {
  }

  /** Inference is right about all shapes over some variables exactly when those that look alike agree. */
  lemma SoundOverExactly(h: Host, vars: set<PrimExpr>, E: Env)
    requires AreInts(vars, E)
    ensures SoundOver(h, vars, E) <==> NamesakesAgree(vars, E)
  {
    hide Sound, SameExpr;
    if NamesakesAgree(vars, E) {
      forall l, r, a, b | MeansAll(h, l, E, a) && MeansAll(h, r, E, b) && ShapeVars(l) <= vars && ShapeVars(r) <= vars
        ensures Sound(h, l, r, E, a, b)
      {
        SmallerAgree(ShapeVars(l) + ShapeVars(r), vars, E);
        BroadcastIsSound(h, l, r, E, a, b);
      }
    }
    if SoundOver(h, vars, E) {
      forall x, y | x in vars && y in vars && SameExpr(x, y) ensures EvalPrim(Cpp, x, E) == EvalPrim(Cpp, y, E) {
        var m, n := E[x.id].i, E[y.id].i;
        SameExprBack(x, y);
        RankOne(h, x, m, E);
        RankOne(h, y, n, E);
        assert Sound(h, [x], [y], E, [m], [n]);
        assert Sound(h, [y], [x], E, [n], [m]);
        NamesakesBroadcast(h, x, y, E, m, n);
        NamesakesBroadcast(h, y, x, E, n, m);
      }
    }
  }

  lemma {:induction false} RankOne(h: Host, x: PrimExpr, n: int, E: Env)
    requires Means(h, x, E, n)
    ensures MeansAll(h, [x], E, [n]) && forall vars :: VarsOf(x) <= vars ==> ShapeVars([x]) <= vars
  {
    assert ShapeVars([x]) == VarsOf(x);
  }

  /** What goes wrong: two variables of one name are taken for one dimension. */
  lemma {:induction false} NamesakesBroadcast(h: Host, x: PrimExpr, y: PrimExpr, E: Env, m: int, n: int)
    requires SameExpr(x, y) && x.PrimVar? && Means(h, x, E, m) && Means(h, y, E, n)
    ensures BroadcastShape([x], [y]) == Shape([x]) && (Sound(h, [x], [y], E, [m], [n]) <==> m == n || n == 1)
  {
    hide SameExpr, Means, Sound;
    RankOne(h, x, m, E);
    RankOne(h, y, n, E);
    var l, r := [x], [y];
    assert BroadcastTo(l, r, 0) == Shape([]);
    assert FromRight(l, 0) == x && FromRight(r, 0) == y;
    assert BroadcastTo(l, r, 1) == Shape([x] + []);
    SoundExactly(h, l, r, E, [m], [n]);
    assert LooksRightAt(l, r, [m], [n], 0) <==> m == n || n == 1;
    assert forall i: nat :: i > 0 ==> LooksRightAt(l, r, [m], [n], i);
  }

  // ---------------------------------------------------------------- algebra

  /** Structurally equal results, or the same failure up to the order of the clashing constants. */
  predicate SameBroadcast(x: Broadcast, y: Broadcast) {
    match (x, y)
    case (Shape(s), Shape(t)) => |s| == |t| && forall i :: 0 <= i < |s| ==> SameExpr(s[i], t[i])
    case (Clash(a, b), Clash(c, d)) => a == d && b == c
    case (Unknown, Unknown) => true
    case _ => false
  }

  lemma {:induction false} CommutesTo(l: seq<PrimExpr>, r: seq<PrimExpr>, n: nat)
    ensures SameBroadcast(BroadcastTo(l, r, n), BroadcastTo(r, l, n))
    decreases n
  {
    hide SameExpr;
    if n > 0 {
      CommutesTo(l, r, n - 1);
      JoinCommutes(FromRight(l, n - 1), FromRight(r, n - 1));
    }
  }

  lemma JoinCommutes(a: PrimExpr, b: PrimExpr)
    ensures var x, y := Join(a, b), Join(b, a);
      (x.Dim? <==> y.Dim?) && (x.Dim? ==> SameExpr(x.d, y.d)) && (x.DimClash? ==> y == DimClash(x.b, x.a)) &&
        (x.DimUnknown? <==> y.DimUnknown?)
  {
    hide SameExpr;
    if SameExpr(a, b) { SameExprBack(a, b); }
    if SameExpr(b, a) { SameExprBack(b, a); }
    SameExprSelf(a);
    SameExprSelf(b);
  }

  /** The order of the operands does not matter, not even for how it fails. */
  lemma BroadcastCommutes(l: seq<PrimExpr>, r: seq<PrimExpr>)
    ensures SameBroadcast(BroadcastShape(l, r), BroadcastShape(r, l))
  {
    CommutesTo(l, r, Rank(l, r));
  }

  /** Broadcasting with a result that may be missing. */
  function Then(x: Broadcast, r: seq<PrimExpr>): Broadcast {
    if x.Shape? then BroadcastShape(x.dims, r) else x
  }

  function Before(l: seq<PrimExpr>, x: Broadcast): Broadcast {
    if x.Shape? then BroadcastShape(l, x.dims) else x
  }

  predicate Joins(l: seq<PrimExpr>, r: seq<PrimExpr>, i: nat) {
    Join(FromRight(l, i), FromRight(r, i)).Dim?
  }

  /** A shape exactly when every pair of dimensions joins; then dimension by dimension. */
  lemma {:induction false} ShapeTo(l: seq<PrimExpr>, r: seq<PrimExpr>, n: nat)
    ensures BroadcastTo(l, r, n).Shape? <==> forall i: nat :: i < n ==> Joins(l, r, i)
    ensures BroadcastTo(l, r, n).Shape? ==> |BroadcastTo(l, r, n).dims| == n
    ensures BroadcastTo(l, r, n).Shape? ==>
      forall i: nat :: i < n ==> Dim(FromRight(BroadcastTo(l, r, n).dims, i)) == Join(FromRight(l, i), FromRight(r, i))
    decreases n
  {
    hide Join;
    if n > 0 {
      ShapeTo(l, r, n - 1);
      if BroadcastTo(l, r, n).Shape? {
        var dims := BroadcastTo(l, r, n).dims;
        forall i: nat | i < n ensures Dim(FromRight(dims, i)) == Join(FromRight(l, i), FromRight(r, i)) {
          if i < n - 1 { assert FromRight(dims, i) == FromRight(dims[1..], i); }
        }
      } else if BroadcastTo(l, r, n - 1).Shape? {
        assert !Joins(l, r, n - 1);
      }
    }
  }

  /** Beyond the rank both dimensions are missing. */
  lemma ShapeIff(l: seq<PrimExpr>, r: seq<PrimExpr>)
    ensures BroadcastShape(l, r).Shape? <==> forall i: nat :: Joins(l, r, i)
    ensures BroadcastShape(l, r).Shape? ==> |BroadcastShape(l, r).dims| == Rank(l, r)
    ensures BroadcastShape(l, r).Shape? ==>
      forall i: nat :: Dim(FromRight(BroadcastShape(l, r).dims, i)) == Join(FromRight(l, i), FromRight(r, i))
  {
    ShapeTo(l, r, Rank(l, r));
    forall i: nat | i >= Rank(l, r)
      ensures Joins(l, r, i) && Join(FromRight(l, i), FromRight(r, i)) == Dim(IntImm(1)) {}
  }

  /** The two dimensions can be joined: one is 1, or they are the same expression. */
  predicate Joinable(l: PrimExpr, r: PrimExpr) {
    l == IntImm(1) || r == IntImm(1) || SameExpr(l, r)
  }

  /** The dimensions nearest the right that cannot be joined. */
  predicate FailsFirst(l: seq<PrimExpr>, r: seq<PrimExpr>, i: nat) {
    !Joinable(FromRight(l, i), FromRight(r, i)) && forall k: nat :: k < i ==> Joinable(FromRight(l, k), FromRight(r, k))
  }

  lemma {:induction false} FailsTo(l: seq<PrimExpr>, r: seq<PrimExpr>, i: nat, n: nat)
    requires FailsFirst(l, r, i) && i < n
    ensures BroadcastTo(l, r, n) == BroadcastTo(l, r, i + 1)
    ensures BroadcastTo(l, r, i).Shape?
  {
    hide SameExpr;
    forall k: nat | k < i ensures Joins(l, r, k) { assert Joinable(FromRight(l, k), FromRight(r, k)); }
    ShapeTo(l, r, i);
    FailsOn(l, r, i + 1, n);
  }

  /** When a broadcast is known, when it is not, and when it is refused: every pair of dimensions can be joined, or the
      first pair from the right that cannot be decides; it is refused exactly if both are constants. */
  lemma InferredExactly(l: seq<PrimExpr>, r: seq<PrimExpr>)
    ensures BroadcastShape(l, r).Shape? <==> forall i: nat :: Joinable(FromRight(l, i), FromRight(r, i))
    ensures BroadcastShape(l, r).Shape? ==> forall i: nat :: var x, y := FromRight(l, i), FromRight(r, i);
      FromRight(BroadcastShape(l, r).dims, i) == if x == IntImm(1) then y else x
    ensures forall i: nat :: FailsFirst(l, r, i) ==>
      match (FromRight(l, i), FromRight(r, i))
      case (IntImm(a), IntImm(b)) => BroadcastShape(l, r) == Clash(a, b)
      case _ => BroadcastShape(l, r) == Unknown
  {
    hide SameExpr;
    ShapeIff(l, r);
    forall i: nat ensures Joins(l, r, i) <==> Joinable(FromRight(l, i), FromRight(r, i)) {}
    if BroadcastShape(l, r).Shape? {
      forall i: nat ensures var x, y := FromRight(l, i), FromRight(r, i);
        FromRight(BroadcastShape(l, r).dims, i) == if x == IntImm(1) then y else x
      {
        assert Dim(FromRight(BroadcastShape(l, r).dims, i)) == Join(FromRight(l, i), FromRight(r, i));
      }
    }
    forall i: nat | FailsFirst(l, r, i)
      ensures match (FromRight(l, i), FromRight(r, i))
        case (IntImm(a), IntImm(b)) => BroadcastShape(l, r) == Clash(a, b)
        case _ => BroadcastShape(l, r) == Unknown
    {
      assert i < Rank(l, r);
      FailsTo(l, r, i, Rank(l, r));
    }
  }

  /** Joining three dimensions: both groupings succeed together, with equal results. */
  lemma JoinAssociates(a: PrimExpr, b: PrimExpr, c: PrimExpr)
    ensures var ab, bc := Join(a, b), Join(b, c);
      ((ab.Dim? && Join(ab.d, c).Dim?) <==> (bc.Dim? && Join(a, bc.d).Dim?)) &&
      (ab.Dim? && Join(ab.d, c).Dim? ==> bc.Dim? && Join(a, bc.d).Dim? && SameExpr(Join(ab.d, c).d, Join(a, bc.d).d))
  {
    hide SameExpr;
    SameExprSelf(a);
    SameExprSelf(b);
    SameExprSelf(c);
    if SameExpr(a, b) {
      SameExprBack(a, b);
      if SameExpr(b, c) { SameExprOn(a, b, c); }
      if SameExpr(a, c) { SameExprOn(b, a, c); }
    }
    if SameExpr(a, c) && SameExpr(b, c) {
      SameExprBack(b, c);
      SameExprOn(a, c, b);
    }
    OneAlone(a);
    OneAlone(b);
    OneAlone(c);
  }

  /** Nothing but 1 itself is structurally equal to 1. */
  lemma {:induction false} OneAlone(a: PrimExpr)
    ensures forall d :: SameExpr(a, d) ==> (IsOne(a) <==> IsOne(d))
  {
  }

  /** Grouping does not matter: both ways give structurally equal shapes, or both fail. */
  lemma BroadcastAssociates(a: seq<PrimExpr>, b: seq<PrimExpr>, c: seq<PrimExpr>)
    ensures var x, y := Then(BroadcastShape(a, b), c), Before(a, BroadcastShape(b, c));
      (x.Shape? <==> y.Shape?) && (x.Shape? ==> SameBroadcast(x, y))
  {
    hide SameExpr, Join, FromRight, BroadcastTo;
    var ab, bc := BroadcastShape(a, b), BroadcastShape(b, c);
    var x, y := Then(ab, c), Before(a, bc);
    ShapeIff(a, b);
    ShapeIff(b, c);
    if ab.Shape? { ShapeIff(ab.dims, c); }
    if bc.Shape? { ShapeIff(a, bc.dims); }
    forall i: nat
      ensures var p, q := Join(FromRight(a, i), FromRight(b, i)), Join(FromRight(b, i), FromRight(c, i));
        (p.Dim? && Join(p.d, FromRight(c, i)).Dim?) <==> (q.Dim? && Join(FromRight(a, i), q.d).Dim?)
      ensures var p, q := Join(FromRight(a, i), FromRight(b, i)), Join(FromRight(b, i), FromRight(c, i));
        p.Dim? && Join(p.d, FromRight(c, i)).Dim? ==>
          q.Dim? && Join(FromRight(a, i), q.d).Dim? &&
            SameExpr(Join(p.d, FromRight(c, i)).d, Join(FromRight(a, i), q.d).d)
    {
      JoinAssociates(FromRight(a, i), FromRight(b, i), FromRight(c, i));
    }
    if x.Shape? {
      forall i: nat ensures Joins(b, c, i) { assert Joins(a, b, i) && Joins(ab.dims, c, i); }
      forall i: nat ensures Joins(a, bc.dims, i) { assert Joins(a, b, i) && Joins(ab.dims, c, i); }
      AllSame(x.dims, y.dims);
    }
    if y.Shape? {
      forall i: nat ensures Joins(a, b, i) { assert Joins(b, c, i) && Joins(a, bc.dims, i); }
      forall i: nat ensures Joins(ab.dims, c, i) { assert Joins(b, c, i) && Joins(a, bc.dims, i); }
    }
  }

  lemma AllSame(s: seq<PrimExpr>, t: seq<PrimExpr>)
    requires |s| == |t| && forall i: nat :: SameExpr(FromRight(s, i), FromRight(t, i))
    ensures SameBroadcast(Shape(s), Shape(t))
  {
    hide SameExpr;
    forall i | 0 <= i < |s| ensures SameExpr(s[i], t[i]) {
      assert FromRight(s, |s| - 1 - i) == s[i] && FromRight(t, |s| - 1 - i) == t[i];
    }
  }

  /** Which failure is reported does depend on the grouping. */
  lemma FailureDependsOnGrouping()
    ensures var a, b, c := [IntImm(2)], [IntImm(3)], [PrimVar(0, "n", None)];
      Then(BroadcastShape(a, b), c).Clash? && Before(a, BroadcastShape(b, c)).Unknown?
  {
    var a, b, c := [IntImm(2)], [IntImm(3)], [PrimVar(0, "n", None)];
    assert BroadcastTo(a, b, 0) == Shape([]) && BroadcastTo(b, c, 0) == Shape([]);
    assert BroadcastTo(a, b, 1) == Clash(2, 3) && BroadcastTo(b, c, 1) == Unknown;
  }
}

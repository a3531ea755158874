/** What every step of code generation keeps: registers stay below the counter, the pools only
    grow, and no old binding is disturbed. */
module CodegenState {
  import opened Bytecode
  import opened Runtime
  import opened Builtins
  import opened PrimExprs
  import opened IRValues
  import opened MemoryIR
  import opened CodegenSpec

  /** The kind every callee name stands for, and the float zero a program uses: interning by name
      alone relies on there being one kind a name, interning of constants on there being one zero. */
  datatype Kinds = Kinds(of: Name -> CalleeKind, zero: Const)

  predicate IsZero(c: Const) {
    c == Float(0) || c == Float(NEGATIVE_ZERO)
  }

  /** Interning cannot tell the two zeros apart, so a compiled program must not use both. */
  predicate Plain(c: Const, kinds: Kinds) {
    IsZero(c) ==> c == kinds.zero
  }

  ghost predicate Good(s: State, kinds: Kinds) {
    && (forall id :: id in s.env ==> s.env[id] < s.next)
    && (forall k :: 0 <= k < |s.inits| ==> 0 <= s.inits[k].reg < s.next && 0 <= s.inits[k].idx < |s.consts|)
    && (forall k :: 0 <= k < |s.funcs| ==> kinds.of(s.funcs[k].name) == s.funcs[k].kind)
    && (forall c <- s.consts :: Plain(c, kinds))
    && Ascending(s.inits)
    && UniqueNames(s.funcs)
  }

  /** Lookup by name finds the one entry of that name. */
  ghost predicate UniqueNames(funcs: seq<Entry>) {
    forall i, j :: 0 <= i < j < |funcs| ==> funcs[i].name != funcs[j].name
  }

  /** No register is preloaded twice. */
  ghost predicate Ascending(inits: seq<ConstInit>) {
    forall i, j :: 0 <= i < j < |inits| ==> inits[i].reg < inits[j].reg
  }

  /** f is a later state of the same compilation. */
  ghost predicate Extends(s: State, f: State) {
    && s.next <= f.next
    && s.inits <= f.inits
    && (forall k :: |s.inits| <= k < |f.inits| ==> f.inits[k].reg >= s.next)
    && s.funcs <= f.funcs
    && (forall k :: |s.funcs| <= k < |f.funcs| ==> f.funcs[k].kind != VMFunc)
    && s.consts <= f.consts
  }

  /** One compilation step: the invariant is kept and only the given ids change their binding, to registers that are
      new. */
  ghost predicate Advances(s: State, s': State, ids: set<nat>, kinds: Kinds) {
    && Good(s', kinds)
    && Extends(s, s')
    && s.next <= s'.next
    && s'.env.Keys == s.env.Keys + ids
    && (forall id :: id in s.env && id !in ids ==> s'.env[id] == s.env[id])
    && (forall id :: id in ids ==> s'.env[id] >= s.next)
  }

  lemma ExtendsTrans(a: State, b: State, c: State)
    requires Extends(a, b) && Extends(b, c)
    ensures Extends(a, c)
  {
    forall k | |a.inits| <= k < |c.inits| ensures c.inits[k].reg >= a.next {
      if k < |b.inits| { assert c.inits[k] == b.inits[k]; }
    }
    forall k | |a.funcs| <= k < |c.funcs| ensures c.funcs[k].kind != VMFunc {
      if k < |b.funcs| { assert c.funcs[k] == b.funcs[k]; }
    }
  }

  lemma AdvancesTrans(a: State, b: State, c: State, ids: set<nat>, more: set<nat>, kinds: Kinds)
    requires Advances(a, b, ids, kinds) && Advances(b, c, more, kinds)
    ensures Advances(a, c, ids + more, kinds)
  {
    ExtendsTrans(a, b, c);
  }

  lemma AdvancesNone(s: State, kinds: Kinds)
    requires Good(s, kinds)
    ensures Advances(s, s, {}, kinds)
  {
  }

  lemma AdvancesGood(s: State, s': State, ids: set<nat>, kinds: Kinds)
    requires Advances(s, s', ids, kinds)
    ensures Good(s', kinds) && Extends(s, s') && s.next <= s'.next
  {
  }

  ghost predicate BuiltinKinds(kinds: Kinds) {
    forall b: CoreBuiltin :: kinds.of(Core(b)) == Builtin
  }

  // ---------------------------------------------------------------- pools

  lemma SamePlainConst(c: Const, d: Const, kinds: Kinds)
    requires Plain(c, kinds) && Plain(d, kinds) && SameConst(c, d)
    ensures c == d
  {
    assert forall n: nat :: n < NEGATIVE_ZERO && n % NEGATIVE_ZERO == 0 ==> n == 0;
  }

  lemma InternConstOk(consts: seq<Const>, c: Const, kinds: Kinds)
    requires Plain(c, kinds) && forall d <- consts :: Plain(d, kinds)
    ensures var (pool, i) := InternConst(consts, c);
      consts <= pool && i < |pool| && pool[i] == c && forall d <- pool :: Plain(d, kinds)
  {
    var i := FindConst(consts, c, 0);
    if i < |consts| { SamePlainConst(consts[i], c, kinds); }
  }

  lemma SameConstMeans(c: Const, d: Const)
    ensures SameConst(c, d) <==> (c == d && !(c.Float? && IsNaN(c.bits))) || (IsZero(c) && IsZero(d))
  {
    assert forall n: nat :: n < NEGATIVE_ZERO && n % NEGATIVE_ZERO == 0 ==> n == 0;
  }

  /** The other zero is in the pool before the constant is. */
  ghost predicate Conflated(consts: seq<Const>, c: Const) {
    IsZero(c) && exists k :: 0 <= k < |consts| && IsZero(consts[k]) && c !in consts[..k + 1]
  }

  /** A constant gets a pool entry that holds it, except exactly a zero whose opposite is there first. */
  lemma PooledExactly(consts: seq<Const>, c: Const)
    ensures var (pool, i) := InternConst(consts, c);
      i < |pool| && (pool[i] == c <==> !Conflated(consts, c))
  {
    hide SameConst, IsNaN;
    var i := FindConst(consts, c, 0);
    FirstSame(consts, c, 0);
    if i < |consts| { SameConstMeans(consts[i], c); }
    if i < |consts| && consts[i] != c {
      assert IsZero(consts[i]);
      forall j | 0 <= j <= i ensures consts[j] != c {
        if j < i { SameConstMeans(consts[j], c); }
      }
    }
    if Conflated(consts, c) {
      var k :| 0 <= k < |consts| && IsZero(consts[k]) && c !in consts[..k + 1];
      SameConstMeans(consts[k], c);
      assert i <= k && consts[i] in consts[..k + 1];
    }
  }

  lemma {:induction false} FirstSame(consts: seq<Const>, c: Const, k: nat)
    requires k <= |consts|
    ensures forall j :: k <= j < FindConst(consts, c, k) ==> !SameConst(consts[j], c)
    decreases |consts| - k
  {
    hide SameConst;
    if k < |consts| && !SameConst(consts[k], c) { FirstSame(consts, c, k + 1); }
  }

  /** The side condition is needed: after +0.0, the constant -0.0 is interned as +0.0. */
  lemma NegativeZeroIsConflated()
    ensures var (pool, i) := InternConst([Float(0)], Float(NEGATIVE_ZERO));
      i < |pool| && pool[i] == Float(0) != Float(NEGATIVE_ZERO)
  {
    assert SameConst(Float(0), Float(NEGATIVE_ZERO));
  }

  lemma ConstRegOk(c: Const, s: State, kinds: Kinds)
    requires Good(s, kinds) && Plain(c, kinds)
    ensures var (r, s') := ConstReg(c, s);
      Advances(s, s', {}, kinds) && s'.env == s.env && r == s.next && s'.next == s.next + 1 &&
      s'.inits == s.inits + [ConstInit(r, s'.inits[|s.inits|].idx)] && s'.funcs == s.funcs &&
      s'.consts[s'.inits[|s.inits|].idx] == c
  {
    InternConstOk(s.consts, c, kinds);
    var (r, s') := ConstReg(c, s);
    forall k | 0 <= k < |s'.inits|
      ensures 0 <= s'.inits[k].reg < s'.next && 0 <= s'.inits[k].idx < |s'.consts|
    {
      if k < |s.inits| { assert s'.inits[k] == s.inits[k]; }
    }
  }

  lemma InternFuncOk(funcs: seq<Entry>, name: Name, kind: CalleeKind, kinds: Kinds)
    requires UniqueNames(funcs) && forall k :: 0 <= k < |funcs| ==> kinds.of(funcs[k].name) == funcs[k].kind
    requires kinds.of(name) == kind
    ensures var (table, i) := InternFunc(funcs, name, kind);
      funcs <= table && |table| <= |funcs| + 1 && i < |table| && table[i].name == name && table[i].kind == kind &&
      UniqueNames(table) && forall k :: 0 <= k < |table| ==> kinds.of(table[k].name) == table[k].kind
  {
  }

  /** Some entry of that name is of another kind. */
  ghost predicate Misfiled(funcs: seq<Entry>, name: Name, kind: CalleeKind) {
    exists k :: 0 <= k < |funcs| && funcs[k].name == name && funcs[k].kind != kind
  }

  /** A callee gets an entry of its name, and one of its kind except exactly when the name is taken by another. */
  lemma InternedExactly(funcs: seq<Entry>, name: Name, kind: CalleeKind)
    requires UniqueNames(funcs)
    ensures var (table, i) := InternFunc(funcs, name, kind);
      i < |table| && table[i].name == name && (table[i].kind == kind <==> !Misfiled(funcs, name, kind))
  {
    var i := FindFunc(funcs, name, 0);
    assert forall k :: 0 <= k < |funcs| && funcs[k].name == name ==> k == i;
  }

  /** A kernel with the name of a packed function gets the packed function's entry. */
  lemma KernelIsMisfiled(s: string)
    ensures var table := [External(Named(s), PackedFunc)];
      InternFunc(table, Named(s), Kernel) == (table, 0) && Misfiled(table, Named(s), Kernel)
  {
    assert [External(Named(s), PackedFunc)][0].name == Named(s);
  }

  lemma EmitCallOk(dst: int, kind: CalleeKind, name: Name, args: seq<nat>, launch: seq<nat>, s: State, kinds: Kinds)
    requires Good(s, kinds) && kinds.of(name) == kind && kind != VMFunc
    ensures var g := EmitCall(dst, kind, name, args, launch, s);
      Advances(s, g.s, {}, kinds) && g.s.env == s.env && g.s.next == s.next && g.s.inits == s.inits &&
      g.s.consts == s.consts && |g.code| == 1
  {
    InternFuncOk(s.funcs, name, kind, kinds);
  }

  lemma WithIdentityOk(s: State, kinds: Kinds)
    requires Good(s, kinds) && BuiltinKinds(kinds)
    ensures var s' := WithIdentity(s);
      Advances(s, s', {}, kinds) && s'.env == s.env && s'.next == s.next && s'.inits == s.inits && s'.consts == s.consts
  {
    InternFuncOk(s.funcs, Core(Identity), Builtin, kinds);
  }

  lemma AllocBindOk(s: State, id: nat, kinds: Kinds)
    requires Good(s, kinds)
    ensures Advances(s, AllocBind(s, id), {id}, kinds)
  {
  }

  lemma EmitFreshOk(b: CoreBuiltin, args: seq<nat>, s: State, kinds: Kinds)
    requires Good(s, kinds) && BuiltinKinds(kinds)
    ensures var g := EmitFresh(b, args, s);
      Advances(s, g.s, {}, kinds) && g.s.env == s.env && g.s.inits == s.inits && g.s.next == s.next + 1 &&
      g.reg == s.next &&
      |g.code| == 1
  {
    EmitCallOk(s.next, Builtin, Core(b), args, [], Alloc(s), kinds);
  }

  function Ids1(res: Option<nat>): set<nat> {
    if res.Some? then {res.value} else {}
  }

  lemma EmitResultOk(res: Option<nat>, kind: CalleeKind, name: Name, args: seq<nat>, launch: seq<nat>, s: State,
                     kinds: Kinds)
    requires Good(s, kinds) && kinds.of(name) == kind && kind != VMFunc
    ensures var g := EmitResult(res, kind, name, args, launch, s);
      Advances(s, g.s, Ids1(res), kinds) && g.s.inits == s.inits && |g.code| == 1 &&
      g.s.next == (if res.Some? then s.next + 1 else s.next) &&
      g.s.env == (if res.Some? then s.env[res.value := s.next] else s.env)
  {
    if res.Some? { AllocBindOk(s, res.value, kinds); }
    EmitCallOk(if res.Some? then s.next else -1, kind, name, args, launch,
               if res.Some? then AllocBind(s, res.value) else s, kinds);
  }

  // ---------------------------------------------------------------- operands

  predicate PlainValue(v: Value, kinds: Kinds) {
    v.Imm? ==> Plain(v.c, kinds)
  }

  predicate PlainValues(vs: seq<Value>, kinds: Kinds) {
    forall k :: 0 <= k < |vs| ==> PlainValue(vs[k], kinds)
  }

  /** Reading operands binds nothing: it only allocates registers for constants. */
  lemma RegOfOk(v: Value, s: State, kinds: Kinds)
    requires Good(s, kinds) && PlainValue(v, kinds)
    ensures Advances(s, RegOf(v, s).1, {}, kinds) && RegOf(v, s).1.env == s.env
  {
    if v.Imm? { ConstRegOk(v.c, s, kinds); }
  }

  lemma {:induction false} RegsOfOk(vs: seq<Value>, s: State, kinds: Kinds)
    requires Good(s, kinds) && PlainValues(vs, kinds)
    ensures var (rs, s') := RegsOf(vs, s);
      |rs| == |vs| && Advances(s, s', {}, kinds) && s'.env == s.env
  {
    if vs != [] {
      RegOfOk(vs[0], s, kinds);
      RegsOfOk(vs[1..], RegOf(vs[0], s).1, kinds);
      AdvancesTrans(s, RegOf(vs[0], s).1, RegsOf(vs, s).1, {}, {}, kinds);
    }
  }

  lemma {:induction false} ConstRegsOk(cs: seq<Const>, s: State, kinds: Kinds)
    requires Good(s, kinds) && forall c <- cs :: Plain(c, kinds)
    ensures var (rs, s') := ConstRegs(cs, s);
      |rs| == |cs| && Advances(s, s', {}, kinds) && s'.env == s.env
  {
    if cs != [] {
      ConstRegOk(cs[0], s, kinds);
      ConstRegsOk(cs[1..], ConstReg(cs[0], s).1, kinds);
      AdvancesTrans(s, ConstReg(cs[0], s).1, ConstRegs(cs, s).1, {}, {}, kinds);
    }
  }

  lemma BoundRegOk(v: Value, s: State, kinds: Kinds)
    requires Good(s, kinds) && PlainValue(v, kinds)
    ensures Advances(s, BoundReg(v, s).1, {}, kinds) && BoundReg(v, s).1.env == s.env
  {
    if v.Imm? {
      ConstRegOk(Int(if RangeConst(v.c).Some? then RangeConst(v.c).value else 0), s, kinds);
    }
  }

  lemma {:induction false} MaterializeOk(e: PrimExpr, s: State, kinds: Kinds)
    requires Good(s, kinds) && BuiltinKinds(kinds)
    ensures var g := Materialize(e, s); Advances(s, g.s, {}, kinds) && g.s.env == s.env
    decreases e
  {
    match e
    case IntImm(i) => ConstRegOk(Int(i), s, kinds);
    case PrimVar(_, _, _) =>
    case Bin(op, l, r) =>
      var gl := Materialize(l, s);
      var gr := Materialize(r, gl.s);
      MaterializeOk(l, s, kinds);
      MaterializeOk(r, gl.s, kinds);
      AdvancesTrans(s, gl.s, gr.s, {}, {}, kinds);
      if BuiltinOf(op).Some? {
        EmitFreshOk(BuiltinOf(op).value, [gl.reg, gr.reg], gr.s, kinds);
        AdvancesTrans(s, gr.s, Materialize(e, s).s, {}, {}, kinds);
      }
  }

  lemma {:induction false} MaterializeAllOk(es: seq<PrimExpr>, s: State, kinds: Kinds)
    requires Good(s, kinds) && BuiltinKinds(kinds)
    ensures var g := MaterializeAll(es, s);
      |g.regs| == |es| && Advances(s, g.s, {}, kinds) && g.s.env == s.env
  {
    if es != [] {
      var g := Materialize(es[0], s);
      MaterializeOk(es[0], s, kinds);
      MaterializeAllOk(es[1..], g.s, kinds);
      AdvancesTrans(s, g.s, MaterializeAll(es, s).s, {}, {}, kinds);
    }
  }

  lemma GenShapeOk(shape: seq<PrimExpr>, s: State, kinds: Kinds)
    requires Good(s, kinds) && BuiltinKinds(kinds)
    ensures var g := GenShape(shape, s); Advances(s, g.s, {}, kinds) && g.s.env == s.env
  {
    var g := MaterializeAll(shape, s);
    MaterializeAllOk(shape, s, kinds);
    EmitFreshOk(MakeShape, g.regs, g.s, kinds);
    AdvancesTrans(s, g.s, GenShape(shape, s).s, {}, {}, kinds);
  }

  lemma GenScaleOk(b: CoreBuiltin, unit: int, k: int, reg: nat, s: State, kinds: Kinds)
    requires Good(s, kinds) && BuiltinKinds(kinds)
    ensures var g := GenScale(b, unit, k, reg, s); Advances(s, g.s, {}, kinds) && g.s.env == s.env
  {
    if k != unit {
      ConstRegOk(Int(k), s, kinds);
      var (c, s1) := ConstReg(Int(k), s);
      EmitFreshOk(b, [reg, c], s1, kinds);
      AdvancesTrans(s, s1, GenScale(b, unit, k, reg, s).s, {}, {}, kinds);
    }
  }

  predicate PlainArg(a: Arg, kinds: Kinds) {
    match a
    case AVal(v) => PlainValue(v, kinds)
    case AConst(c) => Plain(c, kinds)
    case AOffset(v, _, _) => PlainValue(v, kinds)
    case _ => true
  }

  lemma GenArgOk(a: Arg, s: State, kinds: Kinds)
    requires Good(s, kinds) && BuiltinKinds(kinds) && PlainArg(a, kinds)
    ensures var g := GenArg(a, s); Advances(s, g.s, {}, kinds) && g.s.env == s.env
  {
    match a
    case AVal(v) => RegOfOk(v, s, kinds);
    case AConst(c) => ConstRegOk(c, s, kinds);
    case AShape(shape) => GenShapeOk(shape, s, kinds);
    case AExpr(e) => MaterializeOk(e, s, kinds);
    case AOffset(v, stride, base) =>
      var (r, s1) := RegOf(v, s);
      var scaled := GenScale(MulI64, 1, stride, r, s1);
      RegOfOk(v, s, kinds);
      GenScaleOk(MulI64, 1, stride, r, s1, kinds);
      GenScaleOk(AddI64, 0, base, scaled.reg, scaled.s, kinds);
      AdvancesTrans(s, s1, scaled.s, {}, {}, kinds);
      AdvancesTrans(s, scaled.s, GenArg(a, s).s, {}, {}, kinds);
  }

  lemma {:induction false} GenArgsOk(args: seq<Arg>, s: State, kinds: Kinds)
    requires Good(s, kinds) && BuiltinKinds(kinds) && forall a <- args :: PlainArg(a, kinds)
    ensures var g := GenArgs(args, s);
      |g.regs| == |args| && Advances(s, g.s, {}, kinds) && g.s.env == s.env
  {
    if args != [] {
      GenArgOk(args[0], s, kinds);
      GenArgsOk(args[1..], GenArg(args[0], s).s, kinds);
      AdvancesTrans(s, GenArg(args[0], s).s, GenArgs(args, s).s, {}, {}, kinds);
    }
  }

  lemma GenCallOk(c: LoweredCall, s: State, kinds: Kinds)
    requires Good(s, kinds) && BuiltinKinds(kinds) && kinds.of(c.name) == c.kind && c.kind != VMFunc
    requires (forall a <- c.args :: PlainArg(a, kinds)) && (forall a <- c.launch :: PlainArg(a, kinds))
    ensures Advances(s, GenCall(c, s).s, Ids1(c.res), kinds)
  {
    var g := GenArgs(c.args, s);
    var l := GenArgs(c.launch, g.s);
    GenArgsOk(c.args, s, kinds);
    GenArgsOk(c.launch, g.s, kinds);
    EmitResultOk(c.res, c.kind, c.name, g.regs, l.regs, l.s, kinds);
    AdvancesTrans(s, g.s, l.s, {}, {}, kinds);
    AdvancesTrans(s, l.s, GenCall(c, s).s, {}, Ids1(c.res), kinds);
  }
}

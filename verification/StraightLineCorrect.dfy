/** Emitted calls, symbolic expressions and straight-line ops compute what they stand for. */
module StraightLineCorrect {
  import opened Bytecode
  import opened Runtime
  import opened Builtins
  import opened PrimExprs
  import opened PrimMeaning
  import opened IRValues
  import opened Structured
  import opened CodegenSpec
  import opened CodegenState
  import opened WellFormed
  import opened FrameMachine
  import opened MemoryIR

  /** The registers holding constants in the finished function. */
  ghost function ConstSet(fin: State): set<int> {
    set k | 0 <= k < |fin.inits| :: fin.inits[k].reg
  }

  /** Enough registers, and every constant register holds its constant. */
  ghost predicate Loaded(h: Host, R: seq<Val>, fin: State) {
    && |R| >= fin.next
    && (forall k :: 0 <= k < |fin.inits| ==>
          0 <= fin.inits[k].reg < |R| && 0 <= fin.inits[k].idx < |fin.consts| &&
          R[fin.inits[k].reg] == Load(h, fin.consts[fin.inits[k].idx]))
  }

  /** Only registers in [lo, hi) may differ, and no constant register does. */
  ghost predicate Same(R: seq<Val>, R': seq<Val>, lo: nat, hi: nat, fin: State) {
    |R| == |R'| &&
    forall r :: 0 <= r < |R| && (r < lo || r >= hi || r in ConstSet(fin)) ==> R'[r] == R[r]
  }

  /** Every visible id is in its register. */
  ghost predicate Agree(s: State, E: Env, R: seq<Val>) {
    forall id :: id in E ==> id in s.env && s.env[id] < |R| && R[s.env[id]] == E[id]
  }

  ghost predicate Ready(P: Code, s: State, fin: State, E: Env, R: seq<Val>, kinds: Kinds) {
    Good(s, kinds) && fin.funcs <= P.funcs && |R| >= fin.next && Loaded(P.M.host, R, fin) && Agree(s, E, R)
  }

  lemma AgreeAt(s: State, E: Env, R: seq<Val>, id: nat)
    requires Agree(s, E, R) && id in E
    ensures id in s.env && Lookup(s, id) < |R| && R[Lookup(s, id)] == E[id]
  {
  }

  lemma SameTrans(R0: seq<Val>, R1: seq<Val>, R2: seq<Val>, lo: nat, mid: nat, mid': nat, hi: nat, fin: State)
    requires Same(R0, R1, lo, mid, fin) && Same(R1, R2, mid', hi, fin) && lo <= mid' && mid <= hi
    ensures Same(R0, R2, lo, hi, fin)
  {
  }

  lemma LoadedSame(h: Host, R: seq<Val>, R': seq<Val>, lo: nat, hi: nat, fin: State)
    requires Loaded(h, R, fin) && Same(R, R', lo, hi, fin)
    ensures Loaded(h, R', fin)
  {
    forall k | 0 <= k < |fin.inits| ensures R'[fin.inits[k].reg] == Load(h, fin.consts[fin.inits[k].idx]) {
      assert fin.inits[k].reg in ConstSet(fin);
    }
  }

  /** Running code that only writes registers allocated after s leaves s's bindings readable. */
  lemma ReadySame(P: Code, s: State, s': State, fin: State, E: Env, R: seq<Val>, R': seq<Val>, hi: nat, kinds: Kinds)
    requires Ready(P, s, fin, E, R, kinds) && Same(R, R', s.next, hi, fin)
    requires Good(s', kinds) && Extends(s, s')
    requires forall id :: id in E && id in s.env ==> id in s'.env && s'.env[id] == s.env[id]
    ensures Ready(P, s', fin, E, R', kinds)
  {
    LoadedSame(P.M.host, R, R', s.next, hi, fin);
  }

  /** A register allocated by Alloc is never a constant register. */
  lemma FreshNotConst(s: State, s': State, fin: State, kinds: Kinds)
    requires Good(s, kinds) && s'.inits == s.inits && s'.next > s.next && Extends(s', fin)
    ensures s.next !in ConstSet(fin)
  {
    forall k | 0 <= k < |fin.inits| ensures fin.inits[k].reg != s.next {
      if k < |s.inits| { assert fin.inits[k] == s.inits[k]; }
    }
  }

  // ---------------------------------------------------------------- operands

  lemma ConstRegHolds(h: Host, c: Const, s: State, fin: State, R: seq<Val>, kinds: Kinds)
    requires Good(s, kinds) && Plain(c, kinds) && Extends(ConstReg(c, s).1, fin) && Loaded(h, R, fin)
    ensures ConstReg(c, s).0 < |R| && R[ConstReg(c, s).0] == Load(h, c)
  {
    ConstRegOk(c, s, kinds);
    var s' := ConstReg(c, s).1;
    assert fin.inits[|s.inits|] == s'.inits[|s.inits|];
    assert fin.consts[s'.inits[|s.inits|].idx] == s'.consts[s'.inits[|s.inits|].idx];
  }

  lemma {:induction false} ConstRegsHold(h: Host, cs: seq<Const>, s: State, fin: State, R: seq<Val>, kinds: Kinds)
    requires Good(s, kinds) && (forall c <- cs :: Plain(c, kinds)) && Extends(ConstRegs(cs, s).1, fin)
    requires Loaded(h, R, fin)
    ensures var rs := ConstRegs(cs, s).0;
      |rs| == |cs| && forall k :: 0 <= k < |cs| ==> rs[k] < |R| && R[rs[k]] == Load(h, cs[k])
  {
    if cs != [] {
      var (r, s1) := ConstReg(cs[0], s);
      ConstRegOk(cs[0], s, kinds);
      ConstRegsOk(cs[1..], s1, kinds);
      ExtendsTrans(s1, ConstRegs(cs, s).1, fin);
      ConstRegHolds(h, cs[0], s, fin, R, kinds);
      ConstRegsHold(h, cs[1..], s1, fin, R, kinds);
    }
  }

  lemma RegOfHolds(P: Code, v: Value, s: State, fin: State, E: Env, R: seq<Val>, kinds: Kinds)
    requires Ready(P, s, fin, E, R, kinds) && PlainValue(v, kinds) && Extends(RegOf(v, s).1, fin)
    requires EvalValue(P.M.host, v, E).Some?
    ensures RegOf(v, s).0 < |R| && R[RegOf(v, s).0] == EvalValue(P.M.host, v, E).value
  {
    if v.Imm? { ConstRegHolds(P.M.host, v.c, s, fin, R, kinds); }
  }

  lemma {:induction false} RegsOfHold(P: Code, vs: seq<Value>, s: State, fin: State, E: Env, R: seq<Val>, kinds: Kinds)
    requires Ready(P, s, fin, E, R, kinds) && PlainValues(vs, kinds) && Extends(RegsOf(vs, s).1, fin)
    requires EvalValues(P.M.host, vs, E).Some?
    ensures var rs := RegsOf(vs, s).0;
      |rs| == |vs| && forall k :: 0 <= k < |vs| ==> rs[k] < |R| && R[rs[k]] == EvalValues(P.M.host, vs, E).value[k]
  {
    if vs != [] {
      var (r, s1) := RegOf(vs[0], s);
      RegOfOk(vs[0], s, kinds);
      RegsOfOk(vs[1..], s1, kinds);
      ExtendsTrans(s1, RegsOf(vs, s).1, fin);
      RegOfHolds(P, vs[0], s, fin, E, R, kinds);
      RegsOfHold(P, vs[1..], s1, fin, E, R, kinds);
    }
  }

  predicate RegsHold(rs: seq<nat>, vals: seq<Val>, R: seq<Val>) {
    |rs| == |vals| && forall k :: 0 <= k < |rs| ==> rs[k] < |R| && R[rs[k]] == vals[k]
  }

  // ---------------------------------------------------------------- one call

  /** The call with its launch arguments, which must be integers. */
  function Launched(M: Machine, kind: CalleeKind, name: Name, args: seq<Val>, launch: seq<Val>, w: World)
    : Outcome<Val> {
    match LaunchArgs(M.host, launch)
    case Some(dims) => Perform(M, kind, name, args, dims, w)
    case None => Raised(w)
  }

  function AfterCall(pc: int, R: seq<Val>, dst: int, r: Outcome<Val>): Status
    requires dst < |R|
  {
    match r
    case Ok(v, w') => Running(pc + 1, Write(R, dst, v), w')
    case Raised(w') => Failed(w')
    case OutOfFuel => Stuck
  }

  lemma {:induction false} CallRuns(P: Code, pc: int, R: seq<Val>, w: World, dst: int, kind: CalleeKind, name: Name,
                                    args: seq<nat>, launch: seq<nat>, xs: seq<Val>, ls: seq<Val>, s: State,
                                    kinds: Kinds)
    requires Good(s, kinds) && kinds.of(name) == kind && kind != VMFunc
    requires var g := EmitCall(dst, kind, name, args, launch, s); g.s.funcs <= P.funcs && At(P.instrs, pc, g.code)
    requires RegsHold(args, xs, R) && RegsHold(launch, ls, R) && dst < |R|
    ensures Steps(P, Running(pc, R, w), 1) == AfterCall(pc, R, dst, Launched(P.M, kind, name, xs, ls, w))
  {
    var g := EmitCall(dst, kind, name, args, launch, s);
    InternFuncOk(s.funcs, name, kind, kinds);
    AtHead(P.instrs, pc, g.code[0]);
    var i := g.code[0];
    assert P.funcs[i.func] == g.s.funcs[i.func];
    assert Read(R, i.args) == xs;
    assert Read(R, i.launch) == ls;
    assert Steps(P, Step(P, Running(pc, R, w)), 0) == Step(P, Running(pc, R, w));
  }

  /** A builtin call with a pure meaning, into dst. */
  lemma {:induction false} BuiltinRuns(P: Code, pc: int, R: seq<Val>, w: World, dst: int, b: CoreBuiltin,
                                       args: seq<nat>, xs: seq<Val>, s: State, kinds: Kinds)
    requires Good(s, kinds) && BuiltinKinds(kinds)
    requires var g := EmitBuiltin(dst, b, args, s); g.s.funcs <= P.funcs && At(P.instrs, pc, g.code)
    requires RegsHold(args, xs, R) && dst < |R|
    ensures Steps(P, Running(pc, R, w), 1) ==
      match Pure(P.M, b, xs, w)
      case Ok(v, w') => Running(pc + 1, Write(R, dst, v), w')
      case Raised(w') => Failed(w')
      case OutOfFuel => Stuck
  {
    assert RegsHold([], [], R);
    CallRuns(P, pc, R, w, dst, Builtin, Core(b), args, [], xs, [], s, kinds);
  }

  lemma WriteSame(R: seq<Val>, dst: nat, v: Val, lo: nat, hi: nat, fin: State)
    requires dst < |R| && lo <= dst < hi && dst !in ConstSet(fin)
    ensures Same(R, Write(R, dst, v), lo, hi, fin)
  {
  }

  /** `n` steps from the start of `len` instructions with the file R; R' is the file behind them if they end there. */
  datatype Stretch = Stretch(P: Code, pc: int, R: seq<Val>, w: World, n: nat, len: nat, R': seq<Val>)

  /** What a code fragment that produces a value does when run. */
  ghost predicate Produces(r: Stretch, reg: nat, result: Option<Val>, lo: nat, hi: nat, fin: State) {
    match result
    case Some(v) =>
      Steps(r.P, Running(r.pc, r.R, r.w), r.n) == Running(r.pc + r.len, r.R', r.w) &&
      reg < |r.R'| == |r.R| && r.R'[reg] == v && Same(r.R, r.R', lo, hi, fin)
    case None => Steps(r.P, Running(r.pc, r.R, r.w), r.n) == Failed(r.w)
  }

  /** A value that is already in a register needs no code. */
  lemma ProducesNow(P: Code, pc: int, R: seq<Val>, w: World, reg: nat, v: Val, lo: nat, hi: nat, fin: State)
    requires reg < |R| && R[reg] == v
    ensures Produces(Stretch(P, pc, R, w, 0, 0, R), reg, Some(v), lo, hi, fin)
  {
  }

  /** Code that ends in the next piece of code, which produces a value. */
  lemma {:induction false} ProducesThen(P: Code, pc: int, R: seq<Val>, w: World, n1: nat, len1: nat, R1: seq<Val>,
                                        n2: nat, len2: nat, reg: nat, R2: seq<Val>, result: Option<Val>, lo: nat,
                                        mid: nat, hi: nat, fin: State)
    requires Steps(P, Running(pc, R, w), n1) == Running(pc + len1, R1, w) && Same(R, R1, lo, mid, fin)
    requires Produces(Stretch(P, pc + len1, R1, w, n2, len2, R2), reg, result, mid, hi, fin) && lo <= mid <= hi
    ensures Produces(Stretch(P, pc, R, w, n1 + n2, len1 + len2, R2), reg, result, lo, hi, fin)
  {
    StepsAdd(P, Running(pc, R, w), n1, n2);
    if result.Some? { SameTrans(R, R1, R2, lo, mid, mid, hi, fin); }
  }

  /** An interpreted builtin into a fresh register. */
  lemma FreshRuns(P: Code, pc: int, R: seq<Val>, w: World, b: CoreBuiltin, args: seq<nat>, xs: seq<Val>, s: State,
                  fin: State, kinds: Kinds) returns (R': seq<Val>)
    requires Good(s, kinds) && BuiltinKinds(kinds) && Interpreted(P.M.host, b) && fin.funcs <= P.funcs
    requires var g := EmitFresh(b, args, s); Extends(g.s, fin) && At(P.instrs, pc, g.code)
    requires RegsHold(args, xs, R) && |R| >= fin.next
    ensures Produces(Stretch(P, pc, R, w, 1, 1, R'), s.next, CallBuiltin(P.M.host, b, xs), s.next, s.next + 1, fin)
  {
    var g := EmitFresh(b, args, s);
    EmitFreshOk(b, args, s, kinds);
    BuiltinRuns(P, pc, R, w, s.next, b, args, xs, Alloc(s), kinds);
    FreshNotConst(s, g.s, fin, kinds);
    match CallBuiltin(P.M.host, b, xs)
    case Some(v) =>
      R' := Write(R, s.next, v);
      WriteSame(R, s.next, v, s.next, s.next + 1, fin);
    case None =>
      R' := R;
  }

  // ---------------------------------------------------------------- symbolic expressions

  /** The register of an expression lies below the counter it leaves, so later code keeps it. */
  lemma {:induction false} MaterializeRegBelow(e: PrimExpr, s: State, bound: set<nat>, kinds: Kinds)
    requires Good(s, kinds) && BuiltinKinds(kinds) && BoundPrim(e, bound) && bound <= s.env.Keys
    ensures Materialize(e, s).reg < Materialize(e, s).s.next
  {
    match e
    case IntImm(i) => ConstRegOk(Int(i), s, kinds);
    case PrimVar(_, _, _) =>
    case Bin(op, l, r) =>
  }

  /** Two values, then the builtin that combines them. */
  lemma BinRuns(P: Code, b: CoreBuiltin, gl: RegGen, gr: RegGen, lo: nat, fin: State, pc: int, R: seq<Val>, w: World,
                n1: nat, R1: seq<Val>, x: Val, n2: nat, R2: seq<Val>, y: Val, kinds: Kinds)
    returns (R': seq<Val>)
    requires Good(gr.s, kinds) && BuiltinKinds(kinds) && Interpreted(P.M.host, b) && fin.funcs <= P.funcs
    requires |R| >= fin.next
    requires Produces(Stretch(P, pc, R, w, n1, |gl.code|, R1), gl.reg, Some(x), lo, gl.s.next, fin)
    requires Produces(Stretch(P, pc + |gl.code|, R1, w, n2, |gr.code|, R2), gr.reg, Some(y), gl.s.next, gr.s.next, fin)
    requires lo <= gl.s.next <= gr.s.next && gl.reg < gl.s.next
    requires var g := EmitFresh(b, [gl.reg, gr.reg], gr.s);
      Extends(g.s, fin) && At(P.instrs, pc + |gl.code| + |gr.code|, g.code)
    ensures Produces(Stretch(P, pc, R, w, n1 + n2 + 1, |gl.code| + |gr.code| + 1, R'), gr.s.next,
                     CallBuiltin(P.M.host, b, [x, y]), lo, gr.s.next + 1, fin)
  {
    hide Good, Extends, Loaded, Agree, Steps, CallBuiltin, EmitFresh, At;
    ProducesThen(P, pc, R, w, n1, |gl.code|, R1, n2, |gr.code|, gr.reg, R2, Some(y), lo, gl.s.next, gr.s.next, fin);
    assert R2[gl.reg] == x;
    hide Same;
    R' := FreshRuns(P, pc + |gl.code| + |gr.code|, R2, w, b, [gl.reg, gr.reg], [x, y], gr.s, fin, kinds);
    ProducesThen(P, pc, R, w, n1 + n2, |gl.code| + |gr.code|, R2, 1, 1, gr.s.next, R', CallBuiltin(P.M.host, b, [x, y]),
                 lo, gr.s.next, gr.s.next + 1, fin);
  }

  lemma {:induction false} MaterializeRuns(P: Code, e: PrimExpr, s: State, fin: State, E: Env, pc: int, R: seq<Val>,
                                           w: World, kinds: Kinds)
    returns (n: nat, R': seq<Val>)
    requires Ready(P, s, fin, E, R, kinds) && BuiltinKinds(kinds) && BoundPrim(e, E.Keys)
    requires var g := Materialize(e, s); Extends(g.s, fin) && At(P.instrs, pc, g.code)
    ensures var g := Materialize(e, s);
      Produces(Stretch(P, pc, R, w, n, |g.code|, R'), g.reg, EvalPrim(P.M.host, e, E), s.next, g.s.next, fin)
    decreases e, 1
  {
    hide Good, Extends, Loaded, Same, Agree, Steps, CallBuiltin, EmitFresh;
    match e
    case IntImm(i) =>
      n, R' := 0, R;
      ConstRegHolds(P.M.host, Int(i), s, fin, R, kinds);
      ProducesNow(P, pc, R, w, Materialize(e, s).reg, VInt(i), s.next, Materialize(e, s).s.next, fin);
    case PrimVar(id, _, _) =>
      n, R' := 0, R;
      AgreeAt(s, E, R, id);
      ProducesNow(P, pc, R, w, Lookup(s, id), E[id], s.next, s.next, fin);
    case Bin(op, l, r) =>
      n, R' := BinaryRuns(P, e, s, fin, E, pc, R, w, kinds);
  }

  lemma {:induction false} BinaryRuns(P: Code, e: PrimExpr, s: State, fin: State, E: Env, pc: int, R: seq<Val>,
                                      w: World, kinds: Kinds)
    returns (n: nat, R': seq<Val>)
    requires Ready(P, s, fin, E, R, kinds) && BuiltinKinds(kinds) && BoundPrim(e, E.Keys) && e.Bin?
    requires var g := Materialize(e, s); Extends(g.s, fin) && At(P.instrs, pc, g.code)
    ensures var g := Materialize(e, s);
      Produces(Stretch(P, pc, R, w, n, |g.code|, R'), g.reg, EvalPrim(P.M.host, e, E), s.next, g.s.next, fin)
    decreases e, 0
  {
    hide Good, Extends, Loaded, Same, Agree, Steps, CallBuiltin, EmitFresh, At, Materialize, EvalPrim, BoundPrim;
    BinaryParts(P.M.host, e, s, E);
    var l, r, b := e.lhs, e.rhs, BuiltinOf(e.op).value;
    var gl := Materialize(l, s);
    var gr := Materialize(r, gl.s);
    var g := EmitFresh(b, [gl.reg, gr.reg], gr.s);
    MaterializeOk(l, s, kinds);
    MaterializeOk(r, gl.s, kinds);
    EmitFreshOk(b, [gl.reg, gr.reg], gr.s, kinds);
    ExtendsTrans(gr.s, g.s, fin);
    ExtendsTrans(gl.s, gr.s, fin);
    AtParts(P.instrs, pc, gl.code + gr.code, g.code);
    AtParts(P.instrs, pc, gl.code, gr.code);
    var n1, R1 := MaterializeRuns(P, l, s, fin, E, pc, R, w, kinds);
    n, R' := n1, R1;
    if EvalPrim(P.M.host, l, E).Some? {
      ReadySame(P, s, gl.s, fin, E, R, R1, gl.s.next, kinds);
      var n2, R2 := MaterializeRuns(P, r, gl.s, fin, E, pc + |gl.code|, R1, w, kinds);
      n, R' := n1 + n2, R2;
      StepsAdd(P, Running(pc, R, w), n1, n2);
      if EvalPrim(P.M.host, r, E).Some? {
        ReadyBound(P, l, s, fin, E, R, kinds);
        R' := BinRuns(P, b, gl, gr, s.next, fin, pc, R, w, n1, R1, EvalPrim(P.M.host, l, E).value,
                      n2, R2, EvalPrim(P.M.host, r, E).value, kinds);
        n := n1 + n2 + 1;
      }
    }
  }

  /** The code of a shape expression leaves the number that the expression stands for, and fails if there is none. */
  lemma MaterializesNumber(P: Code, e: PrimExpr, s: State, fin: State, E: Env, pc: int, R: seq<Val>, w: World,
                           kinds: Kinds)
    returns (n: nat, R': seq<Val>)
    requires Ready(P, s, fin, E, R, kinds) && BuiltinKinds(kinds) && BoundPrim(e, E.Keys) && Integral(e, E)
    requires var g := Materialize(e, s); Extends(g.s, fin) && At(P.instrs, pc, g.code)
    ensures var g := Materialize(e, s);
      (forall m :: Gives(P.M.host, e, E, m) ==>
         Steps(P, Running(pc, R, w), n) == Running(pc + |g.code|, R', w) && g.reg < |R'| && R'[g.reg] == VInt(m)) &&
      ((forall m :: !Gives(P.M.host, e, E, m)) ==> Steps(P, Running(pc, R, w), n) == Failed(w))
  {
    hide Good, Ready, Extends, At, Same, Steps, Materialize, EvalPrim, Gives;
    PrimMeans(P.M.host, e, E);
    n, R' := MaterializeRuns(P, e, s, fin, E, pc, R, w, kinds);
  }

  /** One level of a binary expression: its bindings, its code, its value. */
  lemma {:induction false} BinaryParts(h: Host, e: PrimExpr, s: State, E: Env)
    requires e.Bin? && BoundPrim(e, E.Keys)
    ensures BoundPrim(e.lhs, E.Keys) && BoundPrim(e.rhs, E.Keys) && BuiltinOf(e.op).Some?
    ensures var b := BuiltinOf(e.op).value;
      var gl := Materialize(e.lhs, s); var gr := Materialize(e.rhs, gl.s);
      var g := EmitFresh(b, [gl.reg, gr.reg], gr.s);
      Materialize(e, s) == RegGen(g.reg, gl.code + gr.code + g.code, g.s) && Interpreted(h, b)
    ensures EvalPrim(h, e, E) ==
      match (EvalPrim(h, e.lhs, E), EvalPrim(h, e.rhs, E))
      case (Some(x), Some(y)) => CallBuiltin(h, BuiltinOf(e.op).value, [x, y])
      case _ => None
  {
    hide EvalPrim, CallBuiltin, Arithmetic;
    BinaryValue(h, e, E);
  }

  lemma BinaryValue(h: Host, e: PrimExpr, E: Env)
    requires e.Bin? && BuiltinOf(e.op).Some?
    ensures EvalPrim(h, e, E) ==
      match (EvalPrim(h, e.lhs, E), EvalPrim(h, e.rhs, E))
      case (Some(x), Some(y)) => CallBuiltin(h, BuiltinOf(e.op).value, [x, y])
      case _ => None
  {
    hide Arithmetic;
  }

  lemma {:induction false} ReadyBound(P: Code, e: PrimExpr, s: State, fin: State, E: Env, R: seq<Val>, kinds: Kinds)
    requires Ready(P, s, fin, E, R, kinds) && BuiltinKinds(kinds) && BoundPrim(e, E.Keys)
    ensures Materialize(e, s).reg < Materialize(e, s).s.next
  {
    MaterializeRegBelow(e, s, E.Keys, kinds);
  }

  /** Results of running the code for a list of expressions. */
  ghost predicate ProducesAll(r: Stretch, regs: seq<nat>, results: Option<seq<Val>>, lo: nat, hi: nat, fin: State) {
    match results
    case Some(vals) =>
      Steps(r.P, Running(r.pc, r.R, r.w), r.n) == Running(r.pc + r.len, r.R', r.w) &&
      |r.R'| == |r.R| && RegsHold(regs, vals, r.R') && Same(r.R, r.R', lo, hi, fin)
    case None => Steps(r.P, Running(r.pc, r.R, r.w), r.n) == Failed(r.w)
  }

  lemma {:induction false} MaterializeAllRuns(P: Code, es: seq<PrimExpr>, s: State, fin: State, E: Env, pc: int,
                                              R: seq<Val>, w: World, kinds: Kinds)
    returns (n: nat, R': seq<Val>)
    requires Ready(P, s, fin, E, R, kinds) && BuiltinKinds(kinds) && BoundPrims(es, E.Keys)
    requires var g := MaterializeAll(es, s); Extends(g.s, fin) && At(P.instrs, pc, g.code)
    ensures var g := MaterializeAll(es, s);
      ProducesAll(Stretch(P, pc, R, w, n, |g.code|, R'), g.regs, EvalPrims(P.M.host, es, E), s.next, g.s.next, fin)
    decreases |es|
  {
    hide Good, Extends, Loaded, Same, Agree, Steps, CallBuiltin, EmitFresh, Materialize, EvalPrim, BoundPrim, At;
    if es == [] {
      n, R' := 0, R;
      ProducesNone(P, pc, R, w, s.next, fin);
    } else {
      var g := Materialize(es[0], s);
      var gs := MaterializeAll(es[1..], g.s);
      MaterializeOk(es[0], s, kinds);
      MaterializeAllOk(es[1..], g.s, kinds);
      ExtendsTrans(g.s, gs.s, fin);
      AtParts(P.instrs, pc, g.code, gs.code);
      var n1, R1 := MaterializeRuns(P, es[0], s, fin, E, pc, R, w, kinds);
      if EvalPrim(P.M.host, es[0], E).None? {
        n, R' := n1, R1;
      } else {
        ReadySame(P, s, g.s, fin, E, R, R1, g.s.next, kinds);
        var n2, R2 := MaterializeAllRuns(P, es[1..], g.s, fin, E, pc + |g.code|, R1, w, kinds);
        n, R' := n1 + n2, R2;
        ReadyBound(P, es[0], s, fin, E, R, kinds);
        ProducesAllCons(P, pc, R, w, n1, |g.code|, g.reg, R1, EvalPrim(P.M.host, es[0], E).value,
                        n2, |gs.code|, gs.regs, R2, EvalPrims(P.M.host, es[1..], E), s.next, g.s.next, gs.s.next, fin);
      }
    }
  }

  lemma ProducesNone(P: Code, pc: int, R: seq<Val>, w: World, lo: nat, fin: State)
    ensures ProducesAll(Stretch(P, pc, R, w, 0, 0, R), [], Some([]), lo, lo, fin)
  {
  }

  /** One value, then the others; the first keeps its register. */
  lemma ProducesAllCons(P: Code, pc: int, R: seq<Val>, w: World, n1: nat, len1: nat, reg: nat, R1: seq<Val>, v: Val,
                        n2: nat, len2: nat, regs: seq<nat>, R2: seq<Val>, rest: Option<seq<Val>>, lo: nat, mid: nat,
                        hi: nat, fin: State)
    requires Produces(Stretch(P, pc, R, w, n1, len1, R1), reg, Some(v), lo, mid, fin)
    requires ProducesAll(Stretch(P, pc + len1, R1, w, n2, len2, R2), regs, rest, mid, hi, fin)
    requires lo <= mid <= hi && reg < mid
    ensures ProducesAll(Stretch(P, pc, R, w, n1 + n2, len1 + len2, R2), [reg] + regs, if rest.Some?
                        then Some([v] + rest.value) else None, lo, hi, fin)
  {
    StepsAdd(P, Running(pc, R, w), n1, n2);
    if rest.Some? { SameTrans(R, R1, R2, lo, mid, mid, hi, fin); }
  }

  /** The code for a shape leaves the shape tuple in its register. */
  lemma GenShapeRuns(P: Code, shape: seq<PrimExpr>, s: State, fin: State, E: Env, pc: int, R: seq<Val>, w: World,
                     kinds: Kinds)
    returns (n: nat, R': seq<Val>)
    requires Ready(P, s, fin, E, R, kinds) && BuiltinKinds(kinds) && BoundPrims(shape, E.Keys)
    requires var g := GenShape(shape, s); Extends(g.s, fin) && At(P.instrs, pc, g.code)
    ensures var g := GenShape(shape, s);
      Produces(Stretch(P, pc, R, w, n, |g.code|, R'), g.reg, ShapeValue(P.M.host, shape, E), s.next, g.s.next, fin) &&
        g.reg < g.s.next
  {
    hide Good, Extends, Loaded, Same, Agree, Steps, CallBuiltin, EmitFresh;
    var g := MaterializeAll(shape, s);
    var m := EmitFresh(MakeShape, g.regs, g.s);
    MaterializeAllOk(shape, s, kinds);
    EmitFreshOk(MakeShape, g.regs, g.s, kinds);
    ExtendsTrans(g.s, m.s, fin);
    AtParts(P.instrs, pc, g.code, m.code);
    var n1, R1 := MaterializeAllRuns(P, shape, s, fin, E, pc, R, w, kinds);
    if EvalPrims(P.M.host, shape, E).None? {
      n, R' := n1, R1;
    } else {
      var xs := EvalPrims(P.M.host, shape, E).value;
      R' := FreshRuns(P, pc + |g.code|, R1, w, MakeShape, g.regs, xs, g.s, fin, kinds);
      n := n1 + 1;
      ProducesThen(P, pc, R, w, n1, |g.code|, R1, 1, 1, m.reg, R', CallBuiltin(P.M.host, MakeShape, xs),
                   s.next, g.s.next, m.s.next, fin);
      MakeShapeMeans(P.M.host, shape, E);
    }
  }

  lemma {:induction false} MakeShapeMeans(h: Host, shape: seq<PrimExpr>, E: Env)
    requires EvalPrims(h, shape, E).Some?
    ensures CallBuiltin(h, MakeShape, EvalPrims(h, shape, E).value) == ShapeValue(h, shape, E)
  {
  }

  ghost function ShapeValue(h: Host, shape: seq<PrimExpr>, E: Env): Option<Val> {
    match EvalShape(h, shape, E)
    case Some(dims) => Some(VShape(dims))
    case None => None
  }

  // ---------------------------------------------------------------- call arguments

  ghost function EvalArg(h: Host, a: Arg, E: Env): Option<Val> {
    match a
    case AVal(v) => EvalValue(h, v, E)
    case AConst(c) => Some(Load(h, c))
    case AShape(shape) => ShapeValue(h, shape, E)
    case AExpr(e) => EvalPrim(h, e, E)
    case AOffset(v, stride, base) =>
      match EvalValue(h, v, E)
      case Some(x) => ViewOffset(h, x, stride, base)
      case None => None
  }

  ghost function EvalArgs(h: Host, args: seq<Arg>, E: Env): (r: Option<seq<Val>>)
    ensures r.Some? ==> |r.value| == |args|
  {
    if args == [] then Some([])
    else
      match (EvalArg(h, args[0], E), EvalArgs(h, args[1..], E))
      case (Some(x), Some(rest)) => Some([x] + rest)
      case _ => None
  }

  /** Scaling or displacing by a constant, skipped for the unit. */
  ghost function Scaled(h: Host, b: CoreBuiltin, unit: int, k: int, x: Val): Option<Val> {
    if k == unit then Some(x) else CallBuiltin(h, b, [x, VInt(k)])
  }

  lemma ViewOffsetInTwoSteps(h: Host, x: Val, stride: int, base: int)
    ensures ViewOffset(h, x, stride, base) ==
      match Scaled(h, MulI64, 1, stride, x)
      case Some(y) => Scaled(h, AddI64, 0, base, y)
      case None => None
  {
  }

  lemma ScaleRuns(P: Code, b: CoreBuiltin, unit: int, k: int, reg: nat, x: Val, s: State, fin: State, pc: int,
                  R: seq<Val>, w: World, kinds: Kinds)
    returns (n: nat, R': seq<Val>)
    requires Good(s, kinds) && BuiltinKinds(kinds) && Interpreted(P.M.host, b) && fin.funcs <= P.funcs
    requires Loaded(P.M.host, R, fin)
    requires var g := GenScale(b, unit, k, reg, s); Extends(g.s, fin) && At(P.instrs, pc, g.code)
    requires reg < |R| && R[reg] == x && reg < s.next && |R| >= fin.next
    ensures var g := GenScale(b, unit, k, reg, s);
      Produces(Stretch(P, pc, R, w, n, |g.code|, R'), g.reg, Scaled(P.M.host, b, unit, k, x), s.next, g.s.next, fin) &&
        g.reg < g.s.next
  {
    hide Good, Extends, Loaded, Same, CallBuiltin, EmitFresh, Steps, BuiltinKinds;
    var g := GenScale(b, unit, k, reg, s);
    n, R' := 0, R;
    if k == unit {
      ProducesNow(P, pc, R, w, reg, x, s.next, s.next, fin);
    } else {
      var (c, s1) := ConstReg(Int(k), s);
      ConstRegOk(Int(k), s, kinds);
      EmitFreshOk(b, [reg, c], s1, kinds);
      ExtendsTrans(s1, g.s, fin);
      ConstRegHolds(P.M.host, Int(k), s, fin, R, kinds);
      R' := FreshRuns(P, pc, R, w, b, [reg, c], [x, VInt(k)], s1, fin, kinds);
      n := 1;
      ProducesWiden(P, pc, R, w, 1, 1, s1.next, R', CallBuiltin(P.M.host, b, [x, VInt(k)]), s.next, s1.next, g.s.next,
                    fin);
    }
  }

  lemma ProducesWiden(P: Code, pc: int, R: seq<Val>, w: World, n: nat, len: nat, reg: nat, R': seq<Val>,
                      result: Option<Val>, lo: nat, lo': nat, hi: nat, fin: State)
    requires Produces(Stretch(P, pc, R, w, n, len, R'), reg, result, lo', hi, fin) && lo <= lo'
    ensures Produces(Stretch(P, pc, R, w, n, len, R'), reg, result, lo, hi, fin)
  {
  }

  /** A register scaled, then displaced. */
  lemma ScaledTwice(P: Code, stride: int, base: int, r: nat, x: Val, s: State, fin: State, pc: int, R: seq<Val>,
                    w: World, kinds: Kinds)
    returns (n: nat, R': seq<Val>)
    requires Good(s, kinds) && BuiltinKinds(kinds) && fin.funcs <= P.funcs && Loaded(P.M.host, R, fin)
    requires r < |R| && R[r] == x && r < s.next && |R| >= fin.next
    requires var scaled := GenScale(MulI64, 1, stride, r, s);
      var moved := GenScale(AddI64, 0, base, scaled.reg, scaled.s);
      Extends(moved.s, fin) && At(P.instrs, pc, scaled.code + moved.code)
    ensures var scaled := GenScale(MulI64, 1, stride, r, s);
      var moved := GenScale(AddI64, 0, base, scaled.reg, scaled.s);
      Produces(Stretch(P, pc, R, w, n, |scaled.code| + |moved.code|, R'), moved.reg,
               ViewOffset(P.M.host, x, stride, base), s.next, moved.s.next, fin) && moved.reg < moved.s.next
  {
    hide Good, Extends, Loaded, Same, CallBuiltin, Steps, GenScale, BuiltinKinds, ViewOffset, Scaled, At;
    var scaled := GenScale(MulI64, 1, stride, r, s);
    var moved := GenScale(AddI64, 0, base, scaled.reg, scaled.s);
    GenScaleOk(MulI64, 1, stride, r, s, kinds);
    GenScaleOk(AddI64, 0, base, scaled.reg, scaled.s, kinds);
    ExtendsTrans(scaled.s, moved.s, fin);
    AtParts(P.instrs, pc, scaled.code, moved.code);
    ViewOffsetInTwoSteps(P.M.host, x, stride, base);
    var n1, R1 := ScaleRuns(P, MulI64, 1, stride, r, x, s, fin, pc, R, w, kinds);
    n, R' := n1, R1;
    if Scaled(P.M.host, MulI64, 1, stride, x).Some? {
      var y := Scaled(P.M.host, MulI64, 1, stride, x).value;
      LoadedSame(P.M.host, R, R1, s.next, scaled.s.next, fin);
      var n2, R2 := ScaleRuns(P, AddI64, 0, base, scaled.reg, y, scaled.s, fin, pc + |scaled.code|, R1, w, kinds);
      n, R' := n1 + n2, R2;
      ProducesThen(P, pc, R, w, n1, |scaled.code|, R1, n2, |moved.code|, moved.reg, R2,
                   Scaled(P.M.host, AddI64, 0, base, y), s.next, scaled.s.next, moved.s.next, fin);
    } else {
      GenScaleBelow(AddI64, 0, base, scaled.reg, scaled.s, kinds);
    }
  }

  lemma OffsetRuns(P: Code, v: Value, stride: int, base: int, s: State, fin: State, E: Env, pc: int, R: seq<Val>,
                   w: World, kinds: Kinds)
    returns (n: nat, R': seq<Val>)
    requires Ready(P, s, fin, E, R, kinds) && BuiltinKinds(kinds) && OkValue(v, E.Keys, kinds)
    requires var g := GenArg(AOffset(v, stride, base), s); Extends(g.s, fin) && At(P.instrs, pc, g.code)
    ensures var g := GenArg(AOffset(v, stride, base), s);
      Produces(Stretch(P, pc, R, w, n, |g.code|, R'), g.reg, EvalArg(P.M.host, AOffset(v, stride, base), E), s.next,
               g.s.next, fin) &&
      g.reg < g.s.next
  {
    hide Good, Extends, Loaded, Same, Agree, CallBuiltin, Steps, GenScale, BuiltinKinds, PlainValue, ViewOffset, At;
    var (r, s1) := RegOf(v, s);
    var scaled := GenScale(MulI64, 1, stride, r, s1);
    var moved := GenScale(AddI64, 0, base, scaled.reg, scaled.s);
    RegOfOk(v, s, kinds);
    GenScaleOk(MulI64, 1, stride, r, s1, kinds);
    GenScaleOk(AddI64, 0, base, scaled.reg, scaled.s, kinds);
    ExtendsTrans(scaled.s, moved.s, fin);
    ExtendsTrans(s1, scaled.s, fin);
    OkEval(P.M.host, v, E);
    var x := EvalValue(P.M.host, v, E).value;
    RegOfHolds(P, v, s, fin, E, R, kinds);
    RegOfBelow(P, v, s, fin, E, R, kinds);
    n, R' := ScaledTwice(P, stride, base, r, x, s1, fin, pc, R, w, kinds);
    ProducesWiden(P, pc, R, w, n, |scaled.code| + |moved.code|, moved.reg, R', ViewOffset(P.M.host, x, stride, base),
                  s.next, s1.next, moved.s.next, fin);
  }

  lemma GenScaleBelow(b: CoreBuiltin, unit: int, k: int, reg: nat, s: State, kinds: Kinds)
    requires Good(s, kinds) && BuiltinKinds(kinds) && reg < s.next
    ensures GenScale(b, unit, k, reg, s).reg < GenScale(b, unit, k, reg, s).s.next
  {
    if k != unit {
      ConstRegOk(Int(k), s, kinds);
      var (c, s1) := ConstReg(Int(k), s);
      EmitFreshOk(b, [reg, c], s1, kinds);
    }
  }

  lemma RegOfBelow(P: Code, v: Value, s: State, fin: State, E: Env, R: seq<Val>, kinds: Kinds)
    requires Ready(P, s, fin, E, R, kinds) && OkValue(v, E.Keys, kinds)
    ensures RegOf(v, s).0 < RegOf(v, s).1.next
  {
  }

  lemma OkEval(h: Host, v: Value, E: Env)
    requires BoundValue(v, E.Keys)
    ensures EvalValue(h, v, E).Some?
  {
  }

  lemma ArgRuns(P: Code, a: Arg, s: State, fin: State, E: Env, pc: int, R: seq<Val>, w: World, kinds: Kinds)
    returns (n: nat, R': seq<Val>)
    requires Ready(P, s, fin, E, R, kinds) && BuiltinKinds(kinds) && OkArg(a, E.Keys, kinds)
    requires var g := GenArg(a, s); Extends(g.s, fin) && At(P.instrs, pc, g.code)
    ensures var g := GenArg(a, s);
      Produces(Stretch(P, pc, R, w, n, |g.code|, R'), g.reg, EvalArg(P.M.host, a, E), s.next, g.s.next, fin) &&
        g.reg < g.s.next
  {
    hide Good, Extends, Loaded, Same, Agree, CallBuiltin, Steps, GenScale, GenShape;
    n, R' := 0, R;
    match a
    case AVal(v) =>
      OkEval(P.M.host, v, E);
      RegOfHolds(P, v, s, fin, E, R, kinds);
      RegOfBelow(P, v, s, fin, E, R, kinds);
      ProducesNow(P, pc, R, w, RegOf(v, s).0, EvalValue(P.M.host, v, E).value, s.next, RegOf(v, s).1.next, fin);
    case AConst(c) =>
      ConstRegHolds(P.M.host, c, s, fin, R, kinds);
      ConstRegOk(c, s, kinds);
      ProducesNow(P, pc, R, w, ConstReg(c, s).0, Load(P.M.host, c), s.next, ConstReg(c, s).1.next, fin);
    case AShape(shape) =>
      n, R' := GenShapeRuns(P, shape, s, fin, E, pc, R, w, kinds);
    case AExpr(e) =>
      ReadyBound(P, e, s, fin, E, R, kinds);
      n, R' := MaterializeRuns(P, e, s, fin, E, pc, R, w, kinds);
    case AOffset(v, stride, base) =>
      n, R' := OffsetRuns(P, v, stride, base, s, fin, E, pc, R, w, kinds);
  }

  lemma OkArgPlain(args: seq<Arg>, scope: set<nat>, kinds: Kinds)
    requires forall a <- args :: OkArg(a, scope, kinds)
    ensures forall a <- args :: PlainArg(a, kinds)
  {
  }

  lemma {:induction false} ArgsRun(P: Code, args: seq<Arg>, s: State, fin: State, E: Env, pc: int, R: seq<Val>,
                                   w: World, kinds: Kinds)
    returns (n: nat, R': seq<Val>)
    requires Ready(P, s, fin, E, R, kinds) && BuiltinKinds(kinds) && forall a <- args :: OkArg(a, E.Keys, kinds)
    requires var g := GenArgs(args, s); Extends(g.s, fin) && At(P.instrs, pc, g.code)
    ensures var g := GenArgs(args, s);
      ProducesAll(Stretch(P, pc, R, w, n, |g.code|, R'), g.regs, EvalArgs(P.M.host, args, E), s.next, g.s.next, fin)
    decreases |args|
  {
    hide Good, Extends, Loaded, Same, Agree, Steps, GenArg, EvalArg;
    if args == [] {
      n, R' := 0, R;
      ProducesNone(P, pc, R, w, s.next, fin);
    } else {
      var g := GenArg(args[0], s);
      var gs := GenArgs(args[1..], g.s);
      OkArgPlain(args, E.Keys, kinds);
      GenArgOk(args[0], s, kinds);
      GenArgsOk(args[1..], g.s, kinds);
      ExtendsTrans(g.s, gs.s, fin);
      AtParts(P.instrs, pc, g.code, gs.code);
      var n1, R1 := ArgRuns(P, args[0], s, fin, E, pc, R, w, kinds);
      n, R' := n1, R1;
      if EvalArg(P.M.host, args[0], E).Some? {
        ReadySame(P, s, g.s, fin, E, R, R1, g.s.next, kinds);
        var n2, R2 := ArgsRun(P, args[1..], g.s, fin, E, pc + |g.code|, R1, w, kinds);
        n, R' := n1 + n2, R2;
        ProducesAllCons(P, pc, R, w, n1, |g.code|, g.reg, R1, EvalArg(P.M.host, args[0], E).value,
                        n2, |gs.code|, gs.regs, R2, EvalArgs(P.M.host, args[1..], E), s.next, g.s.next, gs.s.next, fin);
      }
    }
  }

  // ---------------------------------------------------------------- straight-line ops

  /** Running n steps of a fragment has the outcome of evaluating what it was generated from:
      the same environment in the registers, the same foreign calls, the same failure.  When
      evaluation runs out of fuel the machine is still going after that many steps. */
  ghost predicate Executes(r: Stretch, out: Outcome<Env>, s: State, s': State, fin: State, fuel: nat) {
    match out
    case Ok(E', w') =>
      Steps(r.P, Running(r.pc, r.R, r.w), r.n) == Running(r.pc + r.len, r.R', w') &&
      Agree(s', E', r.R') && |r.R'| == |r.R| && Same(r.R, r.R', s.next, s'.next, fin)
    case Raised(w') => Steps(r.P, Running(r.pc, r.R, r.w), r.n) == Failed(w')
    case OutOfFuel => r.n >= fuel && Steps(r.P, Running(r.pc, r.R, r.w), r.n).Running?
  }

  /** A fragment that reaches the next fragment. */
  lemma {:induction false} ExecutesThen(P: Code, pc: int, R: seq<Val>, w: World, n1: nat, len1: nat, R1: seq<Val>,
                                        w1: World, n2: nat, len2: nat, R2: seq<Val>, out: Outcome<Env>, s: State,
                                        mid: State, s': State, fin: State, fuel: nat)
    requires Steps(P, Running(pc, R, w), n1) == Running(pc + len1, R1, w1)
    requires |R1| == |R| && Same(R, R1, s.next, mid.next, fin)
    requires Executes(Stretch(P, pc + len1, R1, w1, n2, len2, R2), out, mid, s', fin, fuel)
    requires s.next <= mid.next <= s'.next
    ensures Executes(Stretch(P, pc, R, w, n1 + n2, len1 + len2, R2), out, s, s', fin, fuel)
  {
    StepsAdd(P, Running(pc, R, w), n1, n2);
    if out.Ok? { SameTrans(R, R1, R2, s.next, mid.next, mid.next, s'.next, fin); }
  }

  // ---------------------------------------------------------------- the final call

  ghost function Bound(res: Option<nat>, E: Env, r: Outcome<Val>): Outcome<Env> {
    if res.Some? then Define(res.value, E, r) else Discard(E, r)
  }

  ghost function EvalCall(M: Machine, c: LoweredCall, E: Env, w: World): Outcome<Env> {
    match (EvalArgs(M.host, c.args, E), EvalArgs(M.host, c.launch, E))
    case (Some(xs), Some(ls)) => Bound(c.res, E, Launched(M, c.kind, c.name, xs, ls, w))
    case _ => Raised(w)
  }

  lemma EffectRuns(P: Code, kind: CalleeKind, name: Name, args: seq<nat>, launch: seq<nat>, xs: seq<Val>, ls: seq<Val>,
                   s: State, fin: State, E: Env, pc: int, R: seq<Val>, w: World, kinds: Kinds, fuel: nat)
    requires Ready(P, s, fin, E, R, kinds) && kinds.of(name) == kind && kind != VMFunc
    requires var g := EmitCall(-1, kind, name, args, launch, s); g.s.funcs <= P.funcs && At(P.instrs, pc, g.code)
    requires RegsHold(args, xs, R) && RegsHold(launch, ls, R)
    ensures Executes(Stretch(P, pc, R, w, 1, 1, R), Bound(None, E, Launched(P.M, kind, name, xs, ls, w)), s,
                     EmitCall(-1, kind, name, args, launch, s).s, fin, fuel)
  {
    hide Loaded, Steps, Perform;
    EmitCallOk(-1, kind, name, args, launch, s, kinds);
    CallRuns(P, pc, R, w, -1, kind, name, args, launch, xs, ls, s, kinds);
    if LaunchArgs(P.M.host, ls).Some? {
      PerformEnds(P.M, kind, name, xs, LaunchArgs(P.M.host, ls).value, w);
    }
  }

  lemma DefineRuns(P: Code, id: nat, kind: CalleeKind, name: Name, args: seq<nat>, launch: seq<nat>, xs: seq<Val>,
                   ls: seq<Val>, s: State, fin: State, E: Env, pc: int, R: seq<Val>, w: World, kinds: Kinds, fuel: nat)
    returns (R': seq<Val>)
    requires Ready(P, s, fin, E, R, kinds) && kinds.of(name) == kind && kind != VMFunc
    requires var g := EmitResult(Some(id), kind, name, args, launch, s); Extends(g.s, fin) && At(P.instrs, pc, g.code)
    requires RegsHold(args, xs, R) && RegsHold(launch, ls, R)
    ensures var g := EmitResult(Some(id), kind, name, args, launch, s);
      Executes(Stretch(P, pc, R, w, 1, 1, R'), Bound(Some(id), E, Launched(P.M, kind, name, xs, ls, w)), s, g.s, fin,
               fuel)
  {
    hide Loaded, Steps, Perform, Same;
    var g := EmitResult(Some(id), kind, name, args, launch, s);
    var dst := s.next;
    EmitResultOk(Some(id), kind, name, args, launch, s, kinds);
    NextInRange(P.M.host, s, g.s, fin, R);
    AllocBindOk(s, id, kinds);
    CallRuns(P, pc, R, w, dst, kind, name, args, launch, xs, ls, AllocBind(s, id), kinds);
    FreshNotConst(s, g.s, fin, kinds);
    R' := R;
    if LaunchArgs(P.M.host, ls).Some? {
      var r := Perform(P.M, kind, name, xs, LaunchArgs(P.M.host, ls).value, w);
      PerformEnds(P.M, kind, name, xs, LaunchArgs(P.M.host, ls).value, w);
      if r.Ok? {
        R' := Write(R, dst, r.value);
        WriteSame(R, dst, r.value, dst, dst + 1, fin);
        AgreeDefine(s, g.s, E, R, id, r.value);
      }
    }
  }

  lemma PerformEnds(M: Machine, kind: CalleeKind, name: Name, args: seq<Val>, launch: seq<int>, w: World)
    ensures !Perform(M, kind, name, args, launch, w).OutOfFuel?
  {
  }

  lemma ResultRuns(P: Code, res: Option<nat>, kind: CalleeKind, name: Name, args: seq<nat>, launch: seq<nat>,
                   xs: seq<Val>, ls: seq<Val>, s: State, fin: State, E: Env, pc: int, R: seq<Val>, w: World,
                   kinds: Kinds, fuel: nat)
    returns (R': seq<Val>)
    requires Ready(P, s, fin, E, R, kinds) && kinds.of(name) == kind && kind != VMFunc
    requires var g := EmitResult(res, kind, name, args, launch, s); Extends(g.s, fin) && At(P.instrs, pc, g.code)
    requires RegsHold(args, xs, R) && RegsHold(launch, ls, R)
    ensures var g := EmitResult(res, kind, name, args, launch, s);
      Executes(Stretch(P, pc, R, w, 1, 1, R'), Bound(res, E, Launched(P.M, kind, name, xs, ls, w)), s, g.s, fin, fuel)
  {
    hide Good, Loaded, Steps, Perform, Same, Agree, Executes, Bound, Launched;
    R' := R;
    if res.None? {
      EffectRuns(P, kind, name, args, launch, xs, ls, s, fin, E, pc, R, w, kinds, fuel);
    } else {
      R' := DefineRuns(P, res.value, kind, name, args, launch, xs, ls, s, fin, E, pc, R, w, kinds, fuel);
    }
  }

  lemma NextInRange(h: Host, s: State, s': State, fin: State, R: seq<Val>)
    requires Extends(s', fin) && Loaded(h, R, fin) && s.next < s'.next
    ensures s.next < |R|
  {
  }

  /** A new binding in a fresh register, beside the old ones. */
  lemma AgreeDefine(s: State, s': State, E: Env, R: seq<Val>, id: nat, v: Val)
    requires Agree(s, E, R) && s.next < |R| && s'.env == s.env[id := s.next]
    requires forall k :: k in s.env ==> s.env[k] < s.next
    ensures Agree(s', E[id := v], R[s.next := v])
  {
  }

  lemma HoldsSame(rs: seq<nat>, xs: seq<Val>, R: seq<Val>, R': seq<Val>, lo: nat, hi: nat, fin: State)
    requires RegsHold(rs, xs, R) && |R'| == |R| && Same(R, R', lo, hi, fin) && forall k :: 0 <= k < |rs| ==> rs[k] < lo
    ensures RegsHold(rs, xs, R')
  {
  }

  lemma ArgBelow(P: Code, a: Arg, s: State, fin: State, E: Env, R: seq<Val>, kinds: Kinds)
    requires Ready(P, s, fin, E, R, kinds) && BuiltinKinds(kinds) && OkArg(a, E.Keys, kinds)
    ensures GenArg(a, s).reg < GenArg(a, s).s.next
  {
    match a
    case AVal(v) =>
    case AConst(c) =>
    case AShape(shape) => MaterializeAllOk(shape, s, kinds);
    case AExpr(e) => ReadyBound(P, e, s, fin, E, R, kinds);
    case AOffset(v, stride, base) =>
      var (r, s1) := RegOf(v, s);
      var scaled := GenScale(MulI64, 1, stride, r, s1);
      RegOfOk(v, s, kinds);
      RegOfBelow(P, v, s, fin, E, R, kinds);
      GenScaleOk(MulI64, 1, stride, r, s1, kinds);
      GenScaleBelow(MulI64, 1, stride, r, s1, kinds);
      GenScaleBelow(AddI64, 0, base, scaled.reg, scaled.s, kinds);
  }

  /** Argument registers lie below the counter, whatever is computed after them. */
  lemma {:induction false} ArgsBelow(P: Code, args: seq<Arg>, s: State, fin: State, E: Env, R: seq<Val>, kinds: Kinds)
    requires Ready(P, s, fin, E, R, kinds) && BuiltinKinds(kinds) && forall a <- args :: OkArg(a, E.Keys, kinds)
    requires Extends(GenArgs(args, s).s, fin)
    ensures forall k :: 0 <= k < |GenArgs(args, s).regs| ==> GenArgs(args, s).regs[k] < GenArgs(args, s).s.next
    decreases |args|
  {
    hide Good, Extends, Loaded, Same, Agree, GenArg;
    if args != [] {
      var g := GenArg(args[0], s);
      OkArgPlain(args, E.Keys, kinds);
      GenArgOk(args[0], s, kinds);
      GenArgsOk(args[1..], g.s, kinds);
      ArgBelow(P, args[0], s, fin, E, R, kinds);
      ReadyKeeps(P, s, g.s, fin, E, R, kinds);
      ArgsBelow(P, args[1..], g.s, fin, E, R, kinds);
    }
  }

  lemma ReadyKeeps(P: Code, s: State, s': State, fin: State, E: Env, R: seq<Val>, kinds: Kinds)
    requires Ready(P, s, fin, E, R, kinds) && Advances(s, s', {}, kinds)
    ensures Ready(P, s', fin, E, R, kinds)
  {
  }

  lemma CallGenRuns(P: Code, c: LoweredCall, s: State, fin: State, E: Env, pc: int, R: seq<Val>, w: World, kinds: Kinds,
                    fuel: nat)
    returns (n: nat, R': seq<Val>)
    requires Ready(P, s, fin, E, R, kinds) && BuiltinKinds(kinds) && kinds.of(c.name) == c.kind && c.kind != VMFunc
    requires (forall a <- c.args :: OkArg(a, E.Keys, kinds)) && (forall a <- c.launch :: OkArg(a, E.Keys, kinds))
    requires var g := GenCall(c, s); Extends(g.s, fin) && At(P.instrs, pc, g.code)
    ensures var g := GenCall(c, s);
      Executes(Stretch(P, pc, R, w, n, |g.code|, R'), EvalCall(P.M, c, E, w), s, g.s, fin, fuel)
  {
    hide Good, Extends, Loaded, Same, Agree, Steps, GenArg, EvalArg, GenArgs, EvalArgs, EmitResult, Bound, Launched;
    var g := GenArgs(c.args, s);
    var l := GenArgs(c.launch, g.s);
    var call := EmitResult(c.res, c.kind, c.name, g.regs, l.regs, l.s);
    OkArgPlain(c.args, E.Keys, kinds);
    OkArgPlain(c.launch, E.Keys, kinds);
    GenArgsOk(c.args, s, kinds);
    GenArgsOk(c.launch, g.s, kinds);
    EmitResultOk(c.res, c.kind, c.name, g.regs, l.regs, l.s, kinds);
    ExtendsTrans(l.s, call.s, fin);
    ExtendsTrans(g.s, l.s, fin);
    AtParts(P.instrs, pc, g.code + l.code, call.code);
    AtParts(P.instrs, pc, g.code, l.code);
    var n1, R1 := ArgsRun(P, c.args, s, fin, E, pc, R, w, kinds);
    n, R' := n1, R1;
    if EvalArgs(P.M.host, c.args, E).Some? {
      var xs := EvalArgs(P.M.host, c.args, E).value;
      ReadySame(P, s, g.s, fin, E, R, R1, g.s.next, kinds);
      var n2, R2 := ArgsRun(P, c.launch, g.s, fin, E, pc + |g.code|, R1, w, kinds);
      n, R' := n1 + n2, R2;
      StepsAdd(P, Running(pc, R, w), n1, n2);
      if EvalArgs(P.M.host, c.launch, E).Some? {
        var ls := EvalArgs(P.M.host, c.launch, E).value;
        ReadySame(P, g.s, l.s, fin, E, R1, R2, l.s.next, kinds);
        ArgsBelow(P, c.args, s, fin, E, R, kinds);
        HoldsSame(g.regs, xs, R1, R2, g.s.next, l.s.next, fin);
        SameTrans(R, R1, R2, s.next, g.s.next, g.s.next, l.s.next, fin);
        R' := ResultRuns(P, c.res, c.kind, c.name, g.regs, l.regs, xs, ls, l.s, fin, E,
                         pc + |g.code| + |l.code|, R2, w, kinds, fuel);
        n := n1 + n2 + 1;
        ExecutesThen(P, pc, R, w, n1 + n2, |g.code| + |l.code|, R2, w, 1, 1, R',
                     Bound(c.res, E, Launched(P.M, c.kind, c.name, xs, ls, w)), s, l.s, call.s, fin, fuel);
      }
    }
  }

  // ---------------------------------------------------------------- the ops as calls

  lemma {:induction false} ValuesEval(h: Host, vs: seq<Value>, E: Env)
    ensures EvalArgs(h, Values(vs), E) == EvalValues(h, vs, E)
  {
    if vs != [] {
      ValuesEval(h, vs[1..], E);
      assert Values(vs)[1..] == Values(vs[1..]);
    }
  }

  lemma {:induction false} ExprsEval(h: Host, es: seq<PrimExpr>, E: Env)
    ensures EvalArgs(h, Exprs(es), E) == EvalPrims(h, es, E)
  {
    if es != [] {
      ExprsEval(h, es[1..], E);
      assert Exprs(es)[1..] == Exprs(es[1..]);
    }
  }

  lemma {:induction false} ConcatEval(h: Host, a: seq<Value>, b: seq<Value>, E: Env)
    ensures EvalValues(h, a + b, E) ==
      if EvalValues(h, a, E).Some? && EvalValues(h, b, E).Some?
      then Some(EvalValues(h, a, E).value + EvalValues(h, b, E).value) else None
  {
    if a == [] {
      assert a + b == b;
      if EvalValues(h, b, E).Some? { assert [] + EvalValues(h, b, E).value == EvalValues(h, b, E).value; }
    } else {
      assert (a + b)[1..] == a[1..] + b && (a + b)[0] == a[0];
      ConcatEval(h, a[1..], b, E);
      if EvalValue(h, a[0], E).Some? && EvalValues(h, a[1..], E).Some? && EvalValues(h, b, E).Some? {
        var x, xs, ys := EvalValue(h, a[0], E).value, EvalValues(h, a[1..], E).value, EvalValues(h, b, E).value;
        assert [x] + (xs + ys) == ([x] + xs) + ys;
      }
    }
  }

  lemma {:induction false} ArgsCons(h: Host, a: Arg, rest: seq<Arg>, E: Env)
    ensures EvalArgs(h, [a] + rest, E) ==
      match (EvalArg(h, a, E), EvalArgs(h, rest, E))
      case (Some(x), Some(xs)) => Some([x] + xs)
      case _ => None
  {
    assert ([a] + rest)[1..] == rest;
  }

  ghost function Cons(x: Option<Val>, xs: Option<seq<Val>>): Option<seq<Val>> {
    if x.Some? && xs.Some? then Some([x.value] + xs.value) else None
  }

  lemma {:induction false} Args2(h: Host, a: Arg, b: Arg, E: Env)
    ensures EvalArgs(h, [a, b], E) == Cons(EvalArg(h, a, E), Cons(EvalArg(h, b, E), Some([])))
  {
    ArgsCons(h, b, [], E);
    ArgsCons(h, a, [b], E);
    assert [b] + [] == [b];
    assert [a] + [b] == [a, b];
  }

  lemma {:induction false} Args3(h: Host, a: Arg, b: Arg, c: Arg, E: Env)
    ensures EvalArgs(h, [a, b, c], E) == Cons(EvalArg(h, a, E), EvalArgs(h, [b, c], E))
  {
    ArgsCons(h, a, [b, c], E);
    assert [a] + [b, c] == [a, b, c];
  }

  lemma {:induction false} Args4(h: Host, a: Arg, b: Arg, c: Arg, d: Arg, E: Env)
    ensures EvalArgs(h, [a, b, c, d], E) == Cons(EvalArg(h, a, E), EvalArgs(h, [b, c, d], E))
  {
    ArgsCons(h, a, [b, c, d], E);
    assert [a] + [b, c, d] == [a, b, c, d];
  }

  lemma {:induction false} Args6(h: Host, a: Arg, b: Arg, c: Arg, d: Arg, e: Arg, f: Arg, E: Env)
    ensures EvalArgs(h, [a, b, c, d, e, f], E) == Cons(EvalArg(h, a, E),
                                                       Cons(EvalArg(h, b, E), EvalArgs(h, [c, d, e, f], E)))
  {
    ArgsCons(h, a, [b, c, d, e, f], E);
    ArgsCons(h, b, [c, d, e, f], E);
    assert [a] + [b, c, d, e, f] == [a, b, c, d, e, f];
    assert [b] + [c, d, e, f] == [b, c, d, e, f];
  }

  lemma AllocStorageMeans(M: Machine, op: Op, E: Env, w: World)
    requires op.AllocStorageOp?
    ensures EvalSimple(M, op, E, w) == EvalCall(M, CallOf(op), E, w)
  {
    hide Perform, EvalPrim;
    var h := M.host;
    Args4(h, AExpr(op.size), AInt(op.alignment), AInt(op.devType), AInt(op.devId), E);
    Args3(h, AInt(op.alignment), AInt(op.devType), AInt(op.devId), E);
    Args2(h, AInt(op.devType), AInt(op.devId), E);
    if EvalPrim(h, op.size, E).Some? {
      assert EvalArgs(h, CallOf(op).args, E).value ==
        [EvalPrim(h, op.size, E).value, VInt(op.alignment), VInt(op.devType), VInt(op.devId)];
    }
  }

  lemma AllocTensorMeans(M: Machine, op: Op, E: Env, w: World)
    requires op.AllocTensorOp?
    ensures EvalSimple(M, op, E, w) == EvalCall(M, CallOf(op), E, w)
  {
    hide Perform, EvalShape;
    var h, d := M.host, op.dtype;
    Args6(h, AVal(op.storage), AInt(op.offset), AShape(op.shape), AInt(d.code), AInt(d.bits), AInt(d.lanes), E);
    Args4(h, AShape(op.shape), AInt(d.code), AInt(d.bits), AInt(d.lanes), E);
    Args3(h, AInt(d.code), AInt(d.bits), AInt(d.lanes), E);
    Args2(h, AInt(d.bits), AInt(d.lanes), E);
    if EvalValue(M.host, op.storage, E).Some? && EvalShape(h, op.shape, E).Some? {
      assert EvalArgs(h, CallOf(op).args, E).value ==
        [EvalValue(M.host, op.storage, E).value, VInt(op.offset), VShape(EvalShape(h, op.shape, E).value),
         VInt(d.code), VInt(d.bits), VInt(d.lanes)];
    }
  }

  lemma TensorViewMeans(M: Machine, op: Op, E: Env, w: World)
    requires op.TensorViewOp?
    ensures EvalSimple(M, op, E, w) == EvalCall(M, CallOf(op), E, w)
  {
    hide Perform, EvalShape, ViewOffset;
    var h, offset := M.host, AOffset(op.byteOffset, op.byteStride, op.baseOffset);
    Args3(h, AVal(op.base), offset, AShape(op.shape), E);
    Args2(h, offset, AShape(op.shape), E);
    if EvalArgs(h, CallOf(op).args, E).Some? {
      assert EvalArgs(h, CallOf(op).args, E).value ==
        [EvalValue(M.host, op.base, E).value, EvalArg(h, offset, E).value, VShape(EvalShape(h, op.shape, E).value)];
    }
  }

  lemma TupleMeans(M: Machine, op: Op, E: Env, w: World)
    requires op.ShapeAssertOp? || op.TupleOp? || op.TupleGetItemOp?
    ensures EvalSimple(M, op, E, w) == EvalCall(M, CallOf(op), E, w)
  {
    hide Perform;
    var h := M.host;
    match op
    case ShapeAssertOp(tensor, dim, upper) =>
      Args3(h, AVal(tensor), AInt(dim), AInt(upper), E);
      Args2(h, AInt(dim), AInt(upper), E);
      if EvalValue(M.host, tensor, E).Some? {
        assert EvalArgs(h, CallOf(op).args, E).value == [EvalValue(M.host, tensor, E).value, VInt(dim), VInt(upper)];
      }
    case TupleOp(res, elems) =>
      ValuesEval(h, elems, E);
    case TupleGetItemOp(res, tup, index) =>
      Args2(h, AVal(tup), AInt(index), E);
      if EvalValue(M.host, tup, E).Some? {
        assert EvalArgs(h, CallOf(op).args, E).value == [EvalValue(M.host, tup, E).value, VInt(index)];
      }
  }

  /** What an op means is what its lowered call means. */
  lemma SimpleMeans(M: Machine, op: Op, E: Env, w: World)
    requires !op.IfOp? && !op.ForOp?
    ensures EvalSimple(M, op, E, w) == EvalCall(M, CallOf(op), E, w)
  {
    match op
    case AllocStorageOp(_, _, _, _, _) => AllocStorageMeans(M, op, E, w);
    case AllocTensorOp(_, _, _, _, _) => AllocTensorMeans(M, op, E, w);
    case TensorViewOp(_, _, _, _, _, _) => TensorViewMeans(M, op, E, w);
    case CallDPSOp(kind, name, inputs, outputs, launch) =>
      hide Perform;
      ValuesEval(M.host, inputs + outputs, E);
      ConcatEval(M.host, inputs, outputs, E);
      ExprsEval(M.host, launch, E);
    case _ => TupleMeans(M, op, E, w);
  }

  lemma SimpleRuns(P: Code, op: Op, s: State, taken: set<nat>, fin: State, E: Env, pc: int, R: seq<Val>, w: World,
                   kinds: Kinds, fuel: nat)
    returns (n: nat, R': seq<Val>)
    requires Ready(P, s, fin, E, R, kinds) && BuiltinKinds(kinds) && !op.IfOp? && !op.ForOp?
    requires WfOp(op, E.Keys, taken, kinds)
    requires var g := GenSimple(op, s); Extends(g.s, fin) && At(P.instrs, pc, g.code)
    ensures var g := GenSimple(op, s);
      Executes(Stretch(P, pc, R, w, n, |g.code|, R'), EvalSimple(P.M, op, E, w), s, g.s, fin, fuel)
  {
    CallOfOk(op, E.Keys, taken, kinds);
    SimpleMeans(P.M, op, E, w);
    n, R' := CallGenRuns(P, CallOf(op), s, fin, E, pc, R, w, kinds, fuel);
  }
}
